/**
 * The member service: registration under a freshly allocated id, partial update with the
 * email-conflict rule, and deletion, each with its not-found error.
 */
module Service {
  import opened Wrappers
  import opened Http
  import opened Members
  import opened Repository
  import opened Sequences

  /** The failure for an id that is not stored; `message` is how the status exception renders itself. */
  const MEMBER_NOT_FOUND: Exception :=
    ResponseStatus(NOT_FOUND, Some("Member not found"), "404 NOT_FOUND \"Member not found\"")

  /** The failure for an email already held by another member. */
  const EMAIL_IN_USE: Exception :=
    ResponseStatus(CONFLICT, Some("Email is already in use by another member"),
                   "409 CONFLICT \"Email is already in use by another member\"")

  /** The member after a partial update: each present field replaces the current one, absent ones are kept. */
  function ApplyUpdate(existing: Member, update: MemberUpdateDto): (r: Member)
    ensures r.id == existing.id
    ensures update.name.None? ==> r.name == existing.name
    ensures update.name.Some? ==> r.name == update.name.value
    ensures update.email.None? ==> r.email == existing.email
    ensures update.email.Some? ==> r.email == update.email.value
    ensures update.phoneNumber.None? ==> r.phoneNumber == existing.phoneNumber
    ensures update.phoneNumber.Some? ==> r.phoneNumber == update.phoneNumber.value
  {
    Member(existing.id,
           if update.name.Some? then update.name.value else existing.name,
           if update.email.Some? then update.email.value else existing.email,
           if update.phoneNumber.Some? then update.phoneNumber.value else existing.phoneNumber)
  }

  /** Applying the same update twice changes nothing the second time. */
  lemma ApplyUpdateIdempotent(existing: Member, update: MemberUpdateDto)
    ensures ApplyUpdate(ApplyUpdate(existing, update), update) == ApplyUpdate(existing, update)
  {
  }

  /** The update of member `id` asks for a new email that another member already holds. */
  predicate EmailConflict(members: map<int, Member>, id: int, update: MemberUpdateDto)
    requires id in members
  {
    && update.email.Some?
    && update.email.value != members[id].email
    && EmailHeldByOther(members, update.email.value, id)
  }

  /**
   * What updating member `id` yields: not found for an absent id, a conflict for a new email held by
   * another member, and otherwise the updated member, which keeps the store well formed.
   */
  function UpdateOutcome(members: map<int, Member>, id: int, update: MemberUpdateDto): (r: Result<Member, Exception>)
    requires WellFormed(members)
    ensures id !in members ==> r == Err(MEMBER_NOT_FOUND)
    ensures id in members && EmailConflict(members, id, update) ==> r == Err(EMAIL_IN_USE)
    ensures id in members && !EmailConflict(members, id, update) ==> r == Ok(ApplyUpdate(members[id], update))
    ensures r.Ok? ==> WellFormed(members[id := r.value])
  {
    if id !in members then Err(MEMBER_NOT_FOUND)
    else
      var existing := members[id];
      if update.email.Some? && update.email.value != existing.email
         && (var holder := FindByEmail(members, update.email.value); holder.Some? && holder.value.id != id)
      then Err(EMAIL_IN_USE)
      else
        var updated := ApplyUpdate(existing, update);
        assert !EmailHeldByOther(members, updated.email, id);
        Ok(updated)
  }

  /** Keeping the current email is never checked against other members, so it never conflicts. */
  lemma UnchangedEmailNeverConflicts(members: map<int, Member>, id: int, update: MemberUpdateDto)
    requires WellFormed(members) && id in members
    requires update.email.None? || update.email.value == members[id].email
    ensures UpdateOutcome(members, id, update).Ok?
  {
  }

  /** The service over one repository and one sequence allocator. */
  class MemberService {
    const repository: MemberRepository
    const sequenceGenerator: SequenceGeneratorService

    constructor (repository: MemberRepository, sequenceGenerator: SequenceGeneratorService)
      ensures this.repository == repository && this.sequenceGenerator == sequenceGenerator
    {
      this.repository := repository;
      this.sequenceGenerator := sequenceGenerator;
    }

    /**
     * Registers a member: allocates the next member id once, gives it to the member and saves the
     * member under it. The save fails, and stores nothing, if another member holds the email; the
     * allocated id is spent either way.
     */
    method Register(member: Member) returns (outcome: Outcome<Exception>, registered: Member)
      requires repository.Valid()
      modifies repository, sequenceGenerator
      ensures repository.Valid()
      ensures registered.id == Incremented(old(sequenceGenerator.counters), SEQUENCE_NAME)
      ensures sequenceGenerator.counters == old(sequenceGenerator.counters)[SEQUENCE_NAME := registered.id]
      ensures registered == member.(id := registered.id)
      ensures outcome.Fail? <==> EmailHeldByOther(old(repository.members), member.email, registered.id)
      ensures outcome.Pass? ==> repository.members == old(repository.members)[registered.id := registered]
      ensures outcome.Fail? ==> outcome.error.DuplicateKey? && repository.members == old(repository.members)
    {
      var id := sequenceGenerator.GenerateSequence(SEQUENCE_NAME);
      registered := member.(id := id);
      outcome := repository.Save(registered);
    }

    /**
     * Updates member `id` as `UpdateOutcome` says; on success the updated member replaces the stored
     * one and no other entry changes, on failure nothing is saved.
     */
    method UpdateMember(id: int, update: MemberUpdateDto) returns (r: Result<Member, Exception>)
      requires repository.Valid()
      modifies repository
      ensures repository.Valid()
      ensures r == UpdateOutcome(old(repository.members), id, update)
      ensures r.Ok? ==> repository.members == old(repository.members)[id := r.value]
      ensures r.Err? ==> repository.members == old(repository.members)
    {
      if id !in repository.members {
        return Err(MEMBER_NOT_FOUND);
      }
      var existing := repository.members[id];
      if update.email.Some? && update.email.value != existing.email {
        var holder := FindByEmail(repository.members, update.email.value);
        if holder.Some? && holder.value.id != id {
          return Err(EMAIL_IN_USE);
        }
      }
      var updated := ApplyUpdate(existing, update);
      assert !EmailHeldByOther(repository.members, updated.email, id);
      var saved := repository.Save(updated);
      r := Ok(updated);
    }

    /** Deletes member `id`; an absent id fails with not found and deletes nothing. */
    method DeleteMember(id: int) returns (outcome: Outcome<Exception>)
      requires repository.Valid()
      modifies repository
      ensures repository.Valid()
      ensures id !in old(repository.members) ==> outcome == Fail(MEMBER_NOT_FOUND) && repository.members == old(repository.members)
      ensures id in old(repository.members) ==> outcome == Pass && repository.members == old(repository.members) - {id}
    {
      if id !in repository.members {
        return Fail(MEMBER_NOT_FOUND);
      }
      repository.DeleteById(id);
      outcome := Pass;
    }
  }
}
