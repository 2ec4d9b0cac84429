/**
 * The member collection, modelled as a map from id to member. Saving enforces the unique index on
 * the email field; a lookup by email finds the one member holding it.
 */
module Repository {
  import opened Wrappers
  import opened Http
  import opened Members

  /** Every member is stored under its own id, and no two members share an email. */
  predicate WellFormed(members: map<int, Member>) {
    && (forall k | k in members :: members[k].id == k)
    && (forall k1, k2 | k1 in members && k2 in members && members[k1].email == members[k2].email :: k1 == k2)
  }

  /** Some member other than the one with id `id` holds `email`. */
  predicate EmailHeldByOther(members: map<int, Member>, email: string, id: int) {
    exists k | k in members :: members[k].email == email && k != id
  }

  /** The member holding `email`, if any. */
  function FindByEmail(members: map<int, Member>, email: string): (r: Option<Member>)
    requires WellFormed(members)
    ensures r.None? <==> forall k | k in members :: members[k].email != email
    ensures r.Some? ==> r.value.id in members && members[r.value.id] == r.value && r.value.email == email
  {
    if exists k | k in members :: members[k].email == email then
      var k :| k in members && members[k].email == email;
      Some(members[k])
    else
      None
  }

  /** The repository; `duplicateKeyMessage` is the store's text for a unique-index violation. */
  class MemberRepository {
    var members: map<int, Member>
    const duplicateKeyMessage: string

    ghost predicate Valid()
      reads this
    {
      WellFormed(members)
    }

    constructor (duplicateKeyMessage: string)
      ensures Valid() && members == map[] && this.duplicateKeyMessage == duplicateKeyMessage
    {
      members := map[];
      this.duplicateKeyMessage := duplicateKeyMessage;
    }

    /**
     * Inserts or replaces the member stored under `member.id`; fails with a duplicate-key error, and
     * stores nothing, when another member already holds its email.
     */
    method Save(member: Member) returns (outcome: Outcome<Exception>)
      requires Valid()
      modifies this
      ensures Valid()
      ensures outcome.Fail? <==> EmailHeldByOther(old(members), member.email, member.id)
      ensures outcome.Fail? ==> outcome.error == DuplicateKey(duplicateKeyMessage) && members == old(members)
      ensures outcome.Pass? ==> members == old(members)[member.id := member]
    {
      if exists k | k in members :: members[k].email == member.email && k != member.id {
        return Fail(DuplicateKey(duplicateKeyMessage));
      }
      members := members[member.id := member];
      outcome := Pass;
    }

    /** Removes the member stored under `id`, if any. */
    method DeleteById(id: int)
      requires Valid()
      modifies this
      ensures Valid()
      ensures members == old(members) - {id}
    {
      members := members - {id};
    }
  }
}
