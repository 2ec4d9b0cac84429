/**
 * The member controller: the create decision (constraint violations, a taken email, other failures,
 * success), lookup, update and delete responses, and the gate each protected call passes first.
 */
module Controller {
  import opened Wrappers
  import opened Http
  import opened Members
  import opened Operations
  import opened Helper
  import opened Authorization
  import opened RateLimiting
  import opened Repository
  import opened Sequences
  import opened Service

  /** The message of the failure raised when the email of a new member is already stored. */
  const UNIQUE_EMAIL_VIOLATION := "Unique Email Violation"

  /** The bean validator, seen from the controller: the violations it finds in a member. */
  type Validator = Member -> set<Violation>

  /** The property paths of a set of violations. */
  function Paths(violations: set<Violation>): set<string> {
    set v | v in violations :: v.propertyPath
  }

  /** No two violations share a property path. */
  predicate UniquePaths(violations: set<Violation>) {
    forall v1, v2 | v1 in violations && v2 in violations && v1.propertyPath == v2.propertyPath :: v1 == v2
  }

  /**
   * A 400 response for a set of violations: one key per property path, each mapped to the message of
   * a violation at that path (which one, when several share a path, depends on iteration order).
   */
  predicate IsViolationResponse(violations: set<Violation>, resp: Response<map<string, string>>) {
    && resp.status == BAD_REQUEST && resp.headers == map[] && resp.body.Some?
    && resp.body.value.Keys == Paths(violations)
    && forall p | p in resp.body.value :: Violation(p, resp.body.value[p]) in violations
  }

  /** Builds the 400 response for a set of violations by putting each path and message into a map. */
  method CreateViolationResponse(violations: set<Violation>) returns (resp: Response<map<string, string>>)
    ensures IsViolationResponse(violations, resp)
    ensures UniquePaths(violations) ==>
      forall v | v in violations :: v.propertyPath in resp.body.value && resp.body.value[v.propertyPath] == v.message
  {
    var body: map<string, string> := map[];
    var rest := violations;
    while rest != {}
      invariant rest <= violations
      invariant body.Keys == Paths(violations - rest)
      invariant forall p | p in body :: Violation(p, body[p]) in violations
      decreases |rest|
    {
      var v :| v in rest;
      body := body[v.propertyPath := v.message];
      rest := rest - {v};
    }
    assert violations - rest == violations;
    resp := Response(BAD_REQUEST, map[], Some(body));
    if UniquePaths(violations) {
      forall v | v in violations
        ensures v.propertyPath in body && body[v.propertyPath] == v.message
      {
        assert v.propertyPath in Paths(violations);
        assert Violation(v.propertyPath, body[v.propertyPath]) in violations;
      }
    }
  }

  /**
   * The response for a failure caught while creating a member: the violation map for constraint
   * violations, 409 {"email": "Email taken"} for any other validation failure, and 400 with the
   * failure's message for everything else.
   */
  method RespondToCreateFailure(e: Exception) returns (resp: Response<map<string, string>>)
    ensures e.ConstraintViolation? ==> IsViolationResponse(e.violations, resp)
    ensures e.Validation? ==> resp == Response(CONFLICT, map[], Some(map["email" := "Email taken"]))
    ensures !e.ConstraintViolation? && !e.Validation? ==> resp == Response(BAD_REQUEST, map[], Some(map["error" := e.message]))
  {
    match e
    case ConstraintViolation(violations) =>
      resp := CreateViolationResponse(violations);
    case Validation(_) =>
      resp := Response(CONFLICT, map[], Some(map["email" := "Email taken"]));
    case _ =>
      resp := Response(BAD_REQUEST, map[], Some(map["error" := e.message]));
  }

  /** Some stored member holds `email`. */
  predicate EmailTaken(members: map<int, Member>, email: string) {
    exists k | k in members :: members[k].email == email
  }

  /** The controller over the repository it shares with its service. */
  class MemberController {
    const repository: MemberRepository
    const memberService: MemberService

    ghost predicate Valid()
      reads this, repository, memberService
    {
      memberService.repository == repository && repository.Valid()
    }

    constructor (memberService: MemberService)
      requires memberService.repository.Valid()
      ensures this.memberService == memberService && repository == memberService.repository
      ensures Valid()
    {
      this.memberService := memberService;
      repository := memberService.repository;
    }

    /** 200 with the stored member, or 404 without a body when the id is not stored. */
    method LookupMemberById(id: int) returns (resp: Response<Member>)
      ensures id in repository.members ==> resp == Response(OK, map[], Some(repository.members[id]))
      ensures id !in repository.members ==> resp == Response(NOT_FOUND, map[], None)
    {
      if id in repository.members {
        resp := Response(OK, map[], Some(repository.members[id]));
      } else {
        resp := Response(NOT_FOUND, map[], None);
      }
    }

    /**
     * Checks a new member: the constraint violations first, and only when there are none the email
     * lookup. The lookup either throws `lookupFault`, when that is present (a store failure), or
     * fails with "Unique Email Violation" when a stored member already holds the email.
     */
    method ValidateMember(member: Member, validator: Validator, lookupFault: Option<Exception>)
      returns (outcome: Outcome<Exception>)
      requires Valid()
      ensures validator(member) != {} ==> outcome == Fail(ConstraintViolation(validator(member)))
      ensures validator(member) == {} && lookupFault.Some? ==> outcome == Fail(lookupFault.value)
      ensures validator(member) == {} && lookupFault.None? && EmailTaken(repository.members, member.email) ==>
        outcome == Fail(Validation(UNIQUE_EMAIL_VIOLATION))
      ensures validator(member) == {} && lookupFault.None? && !EmailTaken(repository.members, member.email) ==>
        outcome == Pass
    {
      var violations := validator(member);
      if violations != {} {
        return Fail(ConstraintViolation(violations));
      }
      if lookupFault.Some? {
        return Fail(lookupFault.value);
      }
      if FindByEmail(repository.members, member.email).Some? {
        return Fail(Validation(UNIQUE_EMAIL_VIOLATION));
      }
      outcome := Pass;
    }

    /**
     * Creates a member. Violations give 400 with the violation map and register nothing. A store
     * failure of the email lookup is answered as the catch clauses say (400 {"error": message} for a
     * general failure) and registers nothing. A taken email gives 409 {"email": "Email taken"} and
     * registers nothing. Otherwise the member is registered once, under the next member id, and the
     * answer is 200 without a body.
     */
    method CreateMember(member: Member, validator: Validator, lookupFault: Option<Exception>)
      returns (resp: Response<map<string, string>>)
      requires Valid()
      modifies repository, memberService.sequenceGenerator
      ensures Valid()
      ensures validator(member) != {} ==>
        && IsViolationResponse(validator(member), resp)
        && repository.members == old(repository.members)
        && memberService.sequenceGenerator.counters == old(memberService.sequenceGenerator.counters)
      ensures validator(member) == {} && lookupFault.Some? ==>
        && repository.members == old(repository.members)
        && memberService.sequenceGenerator.counters == old(memberService.sequenceGenerator.counters)
        && (lookupFault.value.ConstraintViolation? ==> IsViolationResponse(lookupFault.value.violations, resp))
        && (lookupFault.value.Validation? ==> resp == Response(CONFLICT, map[], Some(map["email" := "Email taken"])))
        && (!lookupFault.value.ConstraintViolation? && !lookupFault.value.Validation? ==>
              resp == Response(BAD_REQUEST, map[], Some(map["error" := lookupFault.value.message])))
      ensures validator(member) == {} && lookupFault.None? && EmailTaken(old(repository.members), member.email) ==>
        && resp == Response(CONFLICT, map[], Some(map["email" := "Email taken"]))
        && repository.members == old(repository.members)
        && memberService.sequenceGenerator.counters == old(memberService.sequenceGenerator.counters)
      ensures validator(member) == {} && lookupFault.None? && !EmailTaken(old(repository.members), member.email) ==>
        var id := Incremented(old(memberService.sequenceGenerator.counters), SEQUENCE_NAME);
        && resp == Response(OK, map[], None)
        && memberService.sequenceGenerator.counters == old(memberService.sequenceGenerator.counters)[SEQUENCE_NAME := id]
        && repository.members == old(repository.members)[id := member.(id := id)]
    {
      var check := ValidateMember(member, validator, lookupFault);
      if check.Fail? {
        resp := RespondToCreateFailure(check.error);
        return;
      }
      var outcome, registered := memberService.Register(member);
      match outcome
      case Pass =>
        resp := Response(OK, map[], None);
      case Fail(e) =>
        resp := RespondToCreateFailure(e);
    }

    /** 200 with the updated member; the service's failure is passed on to the exception handler. */
    method UpdateMember(id: int, update: MemberUpdateDto) returns (r: Result<Response<Member>, Exception>)
      requires Valid()
      modifies repository
      ensures Valid()
      ensures UpdateOutcome(old(repository.members), id, update).Ok? ==>
        r == Ok(Response(OK, map[], Some(UpdateOutcome(old(repository.members), id, update).value)))
        && repository.members == old(repository.members)[id := r.value.body.value]
      ensures UpdateOutcome(old(repository.members), id, update).Err? ==>
        r == Err(UpdateOutcome(old(repository.members), id, update).error)
        && repository.members == old(repository.members)
    {
      var updated := memberService.UpdateMember(id, update);
      match updated
      case Ok(member) =>
        r := Ok(Response(OK, map[], Some(member)));
      case Err(e) =>
        r := Err(e);
    }

    /** 204 without a body after deleting; a not-found failure is passed on to the exception handler. */
    method DeleteMember(id: int) returns (r: Result<Response<()>, Exception>)
      requires Valid()
      modifies repository
      ensures Valid()
      ensures id in old(repository.members) ==>
        r == Ok(Response(NO_CONTENT, map[], None)) && repository.members == old(repository.members) - {id}
      ensures id !in old(repository.members) ==>
        r == Err(MEMBER_NOT_FOUND) && repository.members == old(repository.members)
    {
      var outcome := memberService.DeleteMember(id);
      match outcome
      case Pass =>
        r := Ok(Response(NO_CONTENT, map[], None));
      case Fail(e) =>
        r := Err(e);
    }
  }

  /**
   * The gate in front of a call of `op`: authorization, then rate limiting when `op` is rate limited.
   * A failed authorization stops the request before any rate-limit call. After a passed gate on a
   * rate-limited operation the identity slot is empty; on any other operation it still holds the
   * user id the auth service returned.
   */
  method Gate(op: Operation, authHeader: Option<string>, context: UserContext,
              authorization: AuthorizationAspect, rateLimiting: RateLimitingAspect,
              authService: AuthService, rateLimitService: RateLimitService)
    returns (outcome: Outcome<Exception>)
    modifies context, authorization, rateLimiting
    ensures ExtractToken(authHeader).None? ==>
      && outcome == Fail(MISSING_TOKEN)
      && authorization.exchanges == old(authorization.exchanges)
      && rateLimiting.exchanges == old(rateLimiting.exchanges)
      && context.userId == old(context.userId)
    ensures ExtractToken(authHeader).Some? ==>
      var call := AuthExchange(authorization.authServiceUrl, ExtractToken(authHeader).value, op);
      && authorization.exchanges == old(authorization.exchanges) + [call]
      && (authService(call).Err? ==>
            outcome == Fail(authService(call).error)
            && rateLimiting.exchanges == old(rateLimiting.exchanges)
            && context.userId == old(context.userId))
      && (authService(call).Ok? && !IsRateLimited(op) ==>
            outcome == Pass
            && rateLimiting.exchanges == old(rateLimiting.exchanges)
            && context.userId == authService(call).value.userId)
      && (authService(call).Ok? && IsRateLimited(op) && authService(call).value.userId.None? ==>
            outcome == Pass
            && rateLimiting.exchanges == old(rateLimiting.exchanges)
            && context.userId == None)
      && (authService(call).Ok? && IsRateLimited(op) && authService(call).value.userId.Some? ==>
            var limit := RateLimitExchange(rateLimiting.rateLimitServiceUrl, authService(call).value.userId.value);
            && rateLimiting.exchanges == old(rateLimiting.exchanges) + [limit]
            && outcome == rateLimitService(limit)
            && context.userId == (if outcome.Pass? then None else authService(call).value.userId))
  {
    outcome := authorization.Authorize(op, authHeader, context, authService);
    if outcome.Fail? || !IsRateLimited(op) {
      return;
    }
    outcome := rateLimiting.RateLimit(context, rateLimitService);
  }
}
