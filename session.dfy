/**
 * The root layout: restoring the signed-in user from device storage at
 * start-up, and the screens the navigation stack offers with and without
 * a signed-in user.
 */
module Session {
  import opened Common
  import opened UserSlice

  /** What decoding the stored access token gives: it throws, or its `exp` claim (if any), in seconds. */
  datatype DecodedToken = Malformed | Claims(exp: Option<int>)

  /** `decodedToken.exp > Date.now() / 1000`; a missing `exp` compares false. */
  predicate Unexpired(token: DecodedToken, nowMs: int)
    requires token.Claims?
  {
    token.exp.Some? && (token.exp.value as real) > (nowMs as real) / 1000.0
  }

  /** The token is live exactly while its expiry, in milliseconds, is after now. */
  lemma UnexpiredIffBeforeExpiry(exp: int, nowMs: int)
    ensures Unexpired(Claims(Some(exp)), nowMs) <==> nowMs < exp * 1000
  {
    if nowMs < exp * 1000 {
      assert (nowMs as real) / 1000.0 < (exp * 1000) as real / 1000.0 == exp as real;
    } else {
      assert (nowMs as real) / 1000.0 >= (exp * 1000) as real / 1000.0 == exp as real;
    }
  }

  /** The `full_name` and `user_id` of `users/me`. */
  datatype Me = Me(fullName: string, userId: string)

  function Lookup(storage: map<string, string>, key: string): (v: Option<string>)
    ensures v.Some? <==> key in storage
    ensures v.Some? ==> v.value == storage[key]
  {
    if key in storage then Some(storage[key]) else None
  }

  /** The screens of the stack: the app's pages when signed in, else the sign-in page; "+not-found" always. */
  function Routes(isAuthenticated: bool): (routes: seq<string>)
    ensures routes != [] && routes[|routes| - 1] == "+not-found"
    ensures "signin" in routes <==> !isAuthenticated
    ensures "index" in routes <==> isAuthenticated
    ensures isAuthenticated ==> |routes| == 8
    ensures !isAuthenticated ==> routes == ["signin", "+not-found"]
  {
    if isAuthenticated then
      ["index", "quotation", "invoice", "materialPage", "progressPage", "projectPage", "materialSubPage", "+not-found"]
    else
      ["signin", "+not-found"]
  }

  /** The signed-in and signed-out stacks share only the not-found screen. */
  lemma StacksShareOnlyNotFound(r: string)
    requires r in Routes(true) && r in Routes(false)
    ensures r == "+not-found"
  {
  }

  /** The root layout's authentication flag and the device storage it reads and writes. */
  class Session {
    var isAuthenticated: bool
    var storage: map<string, string>

    /** The app starts signed out, whatever is stored. */
    constructor (stored: map<string, string>)
      ensures !isAuthenticated && storage == stored
    {
      isAuthenticated, storage := false, stored;
    }

    /**
     * `loadUserData`. No stored token: signed out, nothing else happens. A
     * token that does not decode: the loader stops with the flag unchanged.
     * An expired token: storage is cleared and the user is signed out. A live
     * token with a stored name and user id: those go to the store and the
     * user is signed in, without a request. Otherwise `users/me` is asked
     * (`networkCall`): its answer goes to the store and to storage and signs
     * the user in; a failure signs the user out.
     */
    method LoadUserData(user: UserStore, decoded: DecodedToken, nowMs: int, me: Fetch<Me>)
      returns (networkCall: bool)
      modifies this, user
      ensures var token := Lookup(old(storage), "access_token");
        var name := Lookup(old(storage), "full_name");
        var id := Lookup(old(storage), "user_id");
        && (networkCall <==>
              Truthy(token) && decoded.Claims? && Unexpired(decoded, nowMs) && !(Truthy(name) && Truthy(id)))
        && (!Truthy(token) ==> !isAuthenticated && storage == old(storage) && unchanged(user))
        && (Truthy(token) && decoded.Malformed? ==>
              isAuthenticated == old(isAuthenticated) && storage == old(storage) && unchanged(user))
        && (Truthy(token) && decoded.Claims? && !Unexpired(decoded, nowMs) ==>
              !isAuthenticated && storage == map[] && unchanged(user))
        && (Truthy(token) && decoded.Claims? && Unexpired(decoded, nowMs) && Truthy(name) && Truthy(id) ==>
              && isAuthenticated && storage == old(storage)
              && user.fullName == name && user.userId == id && user.companyId == None)
        && (networkCall && me.Received? ==>
              && isAuthenticated
              && storage == old(storage)["full_name" := me.data.fullName]["user_id" := me.data.userId]
              && user.fullName == Some(me.data.fullName) && user.userId == Some(me.data.userId)
              && user.companyId == None)
        && (networkCall && me.Failed? ==> !isAuthenticated && storage == old(storage) && unchanged(user))
    {
      networkCall := false;
      var token := Lookup(storage, "access_token");
      if !Truthy(token) {
        isAuthenticated := false;
        return;
      }
      if decoded.Malformed? {
        return;
      }
      if !Unexpired(decoded, nowMs) {
        storage := map[];
        isAuthenticated := false;
        return;
      }
      var name := Lookup(storage, "full_name");
      var id := Lookup(storage, "user_id");
      if Truthy(name) && Truthy(id) {
        user.SetUser(UserPayload(name, id, None));
        isAuthenticated := true;
        return;
      }
      networkCall := true;
      if me.Received? {
        user.SetUser(UserPayload(Some(me.data.fullName), Some(me.data.userId), None));
        storage := storage["full_name" := me.data.fullName]["user_id" := me.data.userId];
        isAuthenticated := true;
      } else {
        isAuthenticated := false;
      }
    }
  }
}
