/** The session store (src/stores/user.ts): the access token, the current user
    and the copy of the token kept in the browser's persistent storage under the
    key `access_token`. The outcomes of the authentication requests are parameters
    of the operations; `requests` records what was sent, in order. */
module Users {
  import opened Wrappers
  import opened Api

  /** JavaScript truthiness of a `string | null`: `!!token`. The empty string is falsy. */
  predicate Truthy(token: Option<string>) {
    match token
    case None => false
    case Some(t) => |t| > 0
  }

  class UserStore {
    var user: Option<User>
    var token: Option<string>
    /** The persisted `access_token` entry, absent when removed or never set. */
    var storedToken: Option<string>
    /** The authentication requests sent so far, oldest first. */
    ghost var requests: seq<AuthCall>

    /** The persisted copy never differs from the token in memory. */
    ghost predicate Valid()
      reads this
    {
      storedToken == token
    }

    /** The store starts with no user and with the token read back from storage. */
    constructor (persisted: Option<string>)
      ensures Valid() && token == persisted && user == None && requests == []
    {
      user := None;
      token := persisted;
      storedToken := persisted;
      requests := [];
    }

    /** isLoggedIn: holds exactly when a non-empty token is held, whatever `user` is. */
    function IsLoggedIn(): (loggedIn: bool)
      reads this
      ensures loggedIn <==> token.Some? && token.value != ""
    {
      Truthy(token)
    }

    /** logout: user and token cleared, persisted entry removed. */
    method Logout()
      modifies this
      ensures Valid() && user == None && token == None && !IsLoggedIn()
      ensures requests == old(requests)
    {
      user := None;
      token := None;
      storedToken := None;
    }

    /** fetchUserInfo: without a token nothing happens; otherwise /auth/me is asked
        with the held token, and any failure ends the session instead of propagating. */
    method FetchUserInfo(me: Result<User>)
      requires Valid()
      modifies this
      ensures Valid()
      ensures !old(IsLoggedIn()) ==>
        user == old(user) && token == old(token) && requests == old(requests)
      ensures old(IsLoggedIn()) ==> requests == old(requests) + [GetCurrentUser(old(token).value)]
      ensures old(IsLoggedIn()) && me.Success? ==> user == Some(me.value) && token == old(token)
      ensures old(IsLoggedIn()) && me.Failure? ==> user == None && token == None && !IsLoggedIn()
    {
      if !IsLoggedIn() {
        return;
      }
      requests := requests + [GetCurrentUser(token.value)];
      match me {
        case Success(u) =>
          user := Some(u);
        case Failure(_) =>
          Logout();
      }
    }

    /** login: the returned token is committed and persisted, and only then is the
        profile fetched with it. A rejected login propagates and changes nothing. */
    method Login(username: string, password: string, response: Result<TokenResponse>, me: Result<User>)
      returns (outcome: Result<()>)
      requires Valid()
      modifies this
      ensures Valid()
      ensures response.Failure? ==>
        outcome == Failure(response.error) && user == old(user) && token == old(token)
        && requests == old(requests) + [PostLogin(username, password)]
      ensures response.Success? ==> outcome == Success(())
      ensures response.Success? && response.value.accessToken == "" ==>
        token == Some("") && user == old(user) && requests == old(requests) + [PostLogin(username, password)]
      ensures response.Success? && response.value.accessToken != "" ==>
        requests == old(requests) + [PostLogin(username, password), GetCurrentUser(response.value.accessToken)]
      ensures response.Success? && response.value.accessToken != "" && me.Success? ==>
        token == Some(response.value.accessToken) && user == Some(me.value) && IsLoggedIn()
      ensures response.Success? && response.value.accessToken != "" && me.Failure? ==>
        token == None && user == None && !IsLoggedIn()
    {
      requests := requests + [PostLogin(username, password)];
      match response {
        case Failure(e) =>
          outcome := Failure(e);
        case Success(res) =>
          token := Some(res.accessToken);
          storedToken := Some(res.accessToken);
          FetchUserInfo(me);
          outcome := Success(());
      }
    }

    /** register: on success the new profile becomes `user` and then `login` runs with
        the same credentials; a rejected registration propagates and never logs in. */
    method Register(
      email: string, username: string, password: string, fullName: Option<string>,
      response: Result<User>, loginResponse: Result<TokenResponse>, me: Result<User>)
      returns (outcome: Result<()>)
      requires Valid()
      modifies this
      ensures Valid()
      ensures response.Failure? ==>
        outcome == Failure(response.error) && user == old(user) && token == old(token)
        && requests == old(requests) + [PostRegister(email, username, password, fullName)]
      ensures response.Success? && loginResponse.Failure? ==>
        outcome == Failure(loginResponse.error) && user == Some(response.value) && token == old(token)
        && requests == old(requests) + [PostRegister(email, username, password, fullName), PostLogin(username, password)]
      ensures response.Success? && loginResponse.Success? ==> outcome == Success(())
      ensures response.Success? && loginResponse.Success? && loginResponse.value.accessToken == "" ==>
        token == Some("") && user == Some(response.value)
        && requests == old(requests) + [PostRegister(email, username, password, fullName), PostLogin(username, password)]
      ensures response.Success? && loginResponse.Success? && loginResponse.value.accessToken != "" ==>
        requests == old(requests) + [PostRegister(email, username, password, fullName), PostLogin(username, password),
                                     GetCurrentUser(loginResponse.value.accessToken)]
      ensures response.Success? && loginResponse.Success? && loginResponse.value.accessToken != "" && me.Success? ==>
        token == Some(loginResponse.value.accessToken) && user == Some(me.value) && IsLoggedIn()
      ensures response.Success? && loginResponse.Success? && loginResponse.value.accessToken != "" && me.Failure? ==>
        token == None && user == None && !IsLoggedIn()
    {
      requests := requests + [PostRegister(email, username, password, fullName)];
      match response {
        case Failure(e) =>
          outcome := Failure(e);
        case Success(u) =>
          user := Some(u);
          outcome := Login(username, password, loginResponse, me);
      }
    }
  }

  /** The session fails closed: from any state, a failed /auth/me leaves the store
      logged out, and it holds no user unless no profile was asked for. A user
      with no token is left by a registration whose login was rejected. */
  method FailClosed(store: UserStore, error: ApiError) returns (loggedIn: bool, hasUser: bool)
    requires store.Valid()
    modifies store
    ensures store.Valid() && !loggedIn
    ensures old(store.IsLoggedIn()) ==> !hasUser
    ensures !old(store.IsLoggedIn()) ==> hasUser == old(store.user).Some?
  {
    store.FetchUserInfo(Failure(error));
    loggedIn := store.IsLoggedIn();
    hasUser := store.user.Some?;
  }

  /** From any state, logging out a second time changes nothing. */
  method LogoutIdempotent(store: UserStore) returns (same: bool)
    requires store.Valid()
    modifies store
    ensures same
  {
    store.Logout();
    var u, t, s := store.user, store.token, store.storedToken;
    store.Logout();
    same := u == store.user && t == store.token && s == store.storedToken;
  }
}
