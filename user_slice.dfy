/** The `user` slice of the Redux store: who is signed in. */
module UserSlice {
  import opened Common

  /** The payload of `setUser`; `None` is a property missing or `null`. */
  datatype UserPayload = UserPayload(fullName: Option<string>, userId: Option<string>, companyId: Option<string>)

  class UserStore {
    var fullName: Option<string>
    var userId: Option<string>
    var companyId: Option<string>

    constructor ()
      ensures fullName == Some("") && userId == Some("") && companyId == Some("")
    {
      fullName, userId, companyId := Some(""), Some(""), Some("");
    }

    /** All three fields are overwritten, a property the payload lacks included. */
    method SetUser(payload: UserPayload)
      modifies this
      ensures fullName == payload.fullName && userId == payload.userId && companyId == payload.companyId
    {
      fullName, userId, companyId := payload.fullName, payload.userId, payload.companyId;
    }

    method ClearUser()
      modifies this
      ensures fullName == Some("") && userId == Some("") && companyId == Some("")
    {
      fullName, userId, companyId := Some(""), Some(""), Some("");
    }
  }
}
