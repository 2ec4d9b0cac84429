/**
 * The protected operations of the member controller and what each one declares: the roles it
 * requires of the caller and whether it is rate limited.
 */
module Operations {
  import opened Members

  datatype Operation = ListAllMembers | LookupMemberById | CreateMember | UpdateMember | DeleteMember

  /** The roles an operation declares, in declaration order. */
  function RequiredRoles(op: Operation): (roles: seq<string>)
    ensures |roles| == 1
    ensures roles[0] == ROLE_MEMBERS_READ <==> op == ListAllMembers || op == LookupMemberById
    ensures roles[0] == ROLE_MEMBERS_WRITE <==> op == CreateMember || op == UpdateMember
    ensures roles[0] == ROLE_MEMBERS_DELETE <==> op == DeleteMember
  {
    match op
    case ListAllMembers => [ROLE_MEMBERS_READ]
    case LookupMemberById => [ROLE_MEMBERS_READ]
    case CreateMember => [ROLE_MEMBERS_WRITE]
    case UpdateMember => [ROLE_MEMBERS_WRITE]
    case DeleteMember => [ROLE_MEMBERS_DELETE]
  }

  /** Whether an operation carries the rate-limit marker; only listing all members does. */
  predicate IsRateLimited(op: Operation) {
    op == ListAllMembers
  }
}
