/**
 * The client session manager of frontend/Auth-Project/src/context/AuthContext.jsx: the React
 * state `{user, loading}` becomes the fields of AuthProvider, and every call it makes goes
 * through the transport `API` (module Transport), whose `localStorage` holds the two tokens.
 */
module AuthContext {
  import opened Wrappers
  import opened Js
  import opened Transport

  const RegisterPath := "/register"
  const LoginPath := "/login"
  const ProfilePath := "/profile"

  /** The three states a page guarded by the session sees. */
  datatype Phase = Loading | Unauthenticated | Authenticated(user: Json)

  /**
   * A login refused with 401 still goes through the transport's renewal (RenewalOn401 applied
   * to POST /login): for every script whose first reply is a 401, whose second (the refresh) is
   * a 2xx and whose third (the resent login) fails, the refusal triggers one refresh, the new
   * access token is stored and the login is posted a second time with it. The call as a whole
   * still fails with the second refusal, and Login itself writes nothing.
   */
  lemma FailedLoginRenewsToken(stored: Stored, replies: seq<HttpResult>)
    requires Truthy(stored.refreshToken)
    requires IsUnauthorized(Head(replies))
    requires IsSuccess(Head(Drop(replies, 1)))
    requires !IsSuccess(Head(Drop(replies, 2)))
    ensures var newToken := Stringify(Field(Head(Drop(replies, 1)).data, "accessToken"));
      var c := Dispatch(Req(Post, LoginPath, None, false), stored, replies);
      && c.result == Err(Head(Drop(replies, 2)))
      && |c.calls| == 3
      && c.calls[0] == ApiCall(Post, LoginPath, Attach(Req(Post, LoginPath, None, false), stored).authorization)
      && c.calls[1] == RefreshCall(stored.refreshToken.value)
      && c.calls[2] == ApiCall(Post, LoginPath, Some(Bearer(newToken)))
      && c.stored == Stored(Some(newToken), stored.refreshToken)
  {
    RenewalOn401(Req(Post, LoginPath, None, false), stored, replies);
  }

  class AuthProvider {
    var user: Option<Json>
    var loading: bool
    const api: Api

    /** `useState(null)` and `useState(true)`. */
    constructor (api: Api)
      ensures this.api == api && user == None && loading
      ensures Phase() == Loading
    {
      this.api := api;
      user := None;
      loading := true;
    }

    function Phase(): Phase
      reads this
    {
      if loading then Loading
      else if user.Some? then Authenticated(user.value)
      else Unauthenticated
    }

    /** The startup probe: with a stored access token, fetch the profile; any failure logs out. */
    method CheckAuth()
      modifies this, api.storage, api.net
      ensures !loading
      ensures !Truthy(old(api.storage.token)) ==>
        && user == old(user)
        && api.storage.Snapshot() == old(api.storage.Snapshot())
        && api.net.log == old(api.net.log) && api.net.replies == old(api.net.replies)
      ensures Truthy(old(api.storage.token)) ==>
        var c := Dispatch(Req(Get, ProfilePath, None, false), old(api.storage.Snapshot()), old(api.net.replies));
        && api.net.log == old(api.net.log) + c.calls
        && api.net.replies == c.replies
        && (c.result.Ok? ==> user == Some(c.result.value.data) && api.storage.Snapshot() == c.stored)
        && (c.result.Err? ==> user == None && api.storage.Snapshot() == Stored(None, None))
    {
      var token := api.storage.token;
      if Truthy(token) {
        var config := new RequestConfig(Get, ProfilePath);
        var response := api.Send(config);
        if response.Ok? {
          user := Some(response.value.data);
        } else {
          Logout();
        }
      }
      loading := false;
    }

    /** Register; the tokens and the user are written only once the call has resolved. */
    method Register() returns (r: Result<HttpResult, HttpResult>)
      modifies this, api.storage, api.net
      ensures loading == old(loading)
      ensures var c := Dispatch(Req(Post, RegisterPath, None, false), old(api.storage.Snapshot()), old(api.net.replies));
        && r == c.result
        && api.net.log == old(api.net.log) + c.calls
        && api.net.replies == c.replies
        && (r.Ok? ==>
              && user == Some(r.value.data)
              && api.storage.Snapshot() == Stored(Some(Stringify(Field(r.value.data, "accessToken"))), Some(Stringify(Field(r.value.data, "refreshToken")))))
        && (r.Err? ==> user == old(user) && api.storage.Snapshot() == c.stored)
    {
      var config := new RequestConfig(Post, RegisterPath);
      r := api.Send(config);
      if r.Err? {
        return;
      }
      var data := r.value.data;
      api.storage.token := Some(Stringify(Field(data, "accessToken")));
      api.storage.refreshToken := Some(Stringify(Field(data, "refreshToken")));
      user := Some(data);
    }

    /** Log in; the tokens and the user are written only once the call has resolved. */
    method Login() returns (r: Result<HttpResult, HttpResult>)
      modifies this, api.storage, api.net
      ensures loading == old(loading)
      ensures var c := Dispatch(Req(Post, LoginPath, None, false), old(api.storage.Snapshot()), old(api.net.replies));
        && r == c.result
        && api.net.log == old(api.net.log) + c.calls
        && api.net.replies == c.replies
        && (r.Ok? ==>
              && user == Some(r.value.data)
              && api.storage.Snapshot() == Stored(Some(Stringify(Field(r.value.data, "accessToken"))), Some(Stringify(Field(r.value.data, "refreshToken")))))
        && (r.Err? ==> user == old(user) && api.storage.Snapshot() == c.stored)
    {
      var config := new RequestConfig(Post, LoginPath);
      r := api.Send(config);
      if r.Err? {
        return;
      }
      var data := r.value.data;
      api.storage.token := Some(Stringify(Field(data, "accessToken")));
      api.storage.refreshToken := Some(Stringify(Field(data, "refreshToken")));
      user := Some(data);
    }

    /** Remove both keys and forget the user; the result does not depend on the state before, so a second logout changes nothing. */
    method Logout()
      modifies this, api.storage
      ensures user == None && loading == old(loading)
      ensures api.storage.Snapshot() == Stored(None, None)
    {
      api.storage.token := None;
      api.storage.refreshToken := None;
      user := None;
    }

    /** Update the profile: the user becomes the response data; this method itself never writes a token. */
    method UpdateProfile() returns (r: Result<HttpResult, HttpResult>)
      modifies this, api.storage, api.net
      ensures loading == old(loading)
      ensures var c := Dispatch(Req(Put, ProfilePath, None, false), old(api.storage.Snapshot()), old(api.net.replies));
        && r == c.result
        && api.net.log == old(api.net.log) + c.calls
        && api.net.replies == c.replies
        && api.storage.Snapshot() == c.stored
        && user == (if r.Ok? then Some(r.value.data) else old(user))
    {
      var config := new RequestConfig(Put, ProfilePath);
      r := api.Send(config);
      if r.Ok? {
        user := Some(r.value.data);
      }
    }

    /**
     * Logging out and then probing again never reaches the network: with no token stored the
     * profile is not even requested, and the session ends unauthenticated.
     */
    method LogoutThenCheck()
      modifies this, api.storage, api.net
      ensures Phase() == Unauthenticated
      ensures api.storage.Snapshot() == Stored(None, None)
      ensures api.net.log == old(api.net.log) && api.net.replies == old(api.net.replies)
    {
      Logout();
      CheckAuth();
    }
  }

  /**
   * Mounting the provider: the state starts as loading and the probe runs once. Without a stored
   * access token the session comes up unauthenticated and nothing is sent.
   */
  method Mount(api: Api) returns (p: AuthProvider)
    modifies api.storage, api.net
    ensures fresh(p) && p.api == api && !p.loading
    ensures !Truthy(old(api.storage.token)) ==>
      p.Phase() == Unauthenticated && api.net.log == old(api.net.log) && api.storage.Snapshot() == old(api.storage.Snapshot())
    ensures Truthy(old(api.storage.token)) ==>
      var c := Dispatch(Req(Get, ProfilePath, None, false), old(api.storage.Snapshot()), old(api.net.replies));
      && api.net.log == old(api.net.log) + c.calls
      && (c.result.Ok? ==> p.Phase() == Authenticated(c.result.value.data))
      && (c.result.Err? ==> p.Phase() == Unauthenticated && api.storage.Snapshot() == Stored(None, None))
  {
    p := new AuthProvider(api);
    p.CheckAuth();
  }
}
