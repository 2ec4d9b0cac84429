/** The member record, the partial-update request and the constants shared by the core. */
module Members {
  import opened Wrappers

  const ROLE_MEMBERS_READ := "MEMBERS:READ"
  const ROLE_MEMBERS_WRITE := "MEMBERS:WRITE"
  const ROLE_MEMBERS_DELETE := "MEMBERS:DELETE"

  /** The name of the counter that issues member ids. */
  const SEQUENCE_NAME := "MEMBER_ID_SEQUENCE"

  /** A registered member; `id` is the key it is stored under. */
  datatype Member = Member(id: int, name: string, email: string, phoneNumber: string)

  /** A partial update: an absent field means "keep the current value". */
  datatype MemberUpdateDto = MemberUpdateDto(name: Option<string>, email: Option<string>, phoneNumber: Option<string>)

  /** The payload sent to the auth service: the bearer token and the roles the operation requires. */
  datatype AuthValidationRequest = AuthValidationRequest(accessToken: string, roles: seq<string>)

  /** The auth service's answer; its user id may be null. */
  datatype AuthResponse = AuthResponse(userId: Option<string>)
}
