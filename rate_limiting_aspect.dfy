/**
 * The rate-limit gate: if the request's identity slot holds a user id, report one call to the
 * rate-limit service under that id, then clear the slot.
 */
module RateLimiting {
  import opened Wrappers
  import opened Http
  import opened Helper

  /** The rate-limit service, seen from the gate: one bodiless call in, success or an exception out. */
  type RateLimitService = Exchange<()> -> Outcome<Exception>

  /** The rate-limit endpoint of a user: the user id appended to the base URL as one path segment. */
  function BuildRateLimitUrl(baseUrl: string, userId: string): (url: string)
    ensures |url| == |baseUrl| + 1 + |userId|
    ensures url[..|baseUrl|] == baseUrl && url[|baseUrl|] == '/' && url[|baseUrl| + 1..] == userId
  {
    baseUrl + "/" + userId
  }

  /** Distinct users are sent to distinct endpoints under the same base. */
  lemma BuildRateLimitUrlInjective(baseUrl: string, userId1: string, userId2: string)
    requires BuildRateLimitUrl(baseUrl, userId1) == BuildRateLimitUrl(baseUrl, userId2)
    ensures userId1 == userId2
  {
    var url := BuildRateLimitUrl(baseUrl, userId1);
    assert userId1 == url[|baseUrl| + 1..] == userId2;
  }

  /** The one call the gate makes for a user: a PUT without a body and with empty headers. */
  function RateLimitExchange(baseUrl: string, userId: string): (call: Exchange<()>)
    ensures call.verb == PUT && call.headers == map[] && call.body == None
    ensures call.url == BuildRateLimitUrl(baseUrl, userId)
  {
    Exchange(BuildRateLimitUrl(baseUrl, userId), PUT, map[], None)
  }

  /** The rate-limiting aspect; `exchanges` records every call it has made to the rate-limit service. */
  class RateLimitingAspect {
    const rateLimitServiceUrl: string
    var exchanges: seq<Exchange<()>>

    constructor (rateLimitServiceUrl: string)
      ensures this.rateLimitServiceUrl == rateLimitServiceUrl && exchanges == []
    {
      this.rateLimitServiceUrl := rateLimitServiceUrl;
      exchanges := [];
    }

    /**
     * Rate-limits the current request. An empty slot means no call and a normal return. A user id in
     * the slot means one call for exactly that id; its error is passed on unchanged and leaves the slot
     * as it was (the clearing is skipped), while a normal return always leaves the slot empty.
     */
    method RateLimit(context: UserContext, rateLimitService: RateLimitService) returns (outcome: Outcome<Exception>)
      modifies this, context
      ensures old(context.userId).None? ==>
        outcome == Pass && exchanges == old(exchanges) && context.userId == None
      ensures old(context.userId).Some? ==>
        var call := RateLimitExchange(rateLimitServiceUrl, old(context.userId).value);
        && exchanges == old(exchanges) + [call]
        && outcome == rateLimitService(call)
        && (outcome.Fail? ==> context.userId == old(context.userId))
      ensures outcome.Pass? ==> context.userId == None
    {
      var userId := context.userId;
      if userId.Some? {
        var call := RateLimitExchange(rateLimitServiceUrl, userId.value);
        outcome := CallRateLimitService(call, rateLimitService);
        if outcome.Fail? {
          return;
        }
      }
      context.userId := None;
      outcome := Pass;
    }

    /** Makes the call and passes its result on unchanged. */
    method CallRateLimitService(call: Exchange<()>, rateLimitService: RateLimitService) returns (outcome: Outcome<Exception>)
      modifies this
      ensures exchanges == old(exchanges) + [call]
      ensures outcome == rateLimitService(call)
    {
      exchanges := exchanges + [call];
      outcome := rateLimitService(call);
    }
  }
}
