/** The per-request identity slot written by authorization and read and cleared by rate limiting. */
module Helper {
  import opened Wrappers

  /** One request's identity slot: the user id resolved by the auth service, if any. */
  class UserContext {
    var userId: Option<string>

    /** A request starts with an empty slot. */
    constructor ()
      ensures userId == None
    {
      userId := None;
    }
  }
}
