/**
 * The authentication context (src/contexts/AuthContext.js): whether a user
 * is signed in, the user record, whether it is still loading, and the two
 * tokens in local storage.
 */
module AuthContext {
  import opened Common
  import opened Storage

  /** How one `GET /user/data` ends: the user record, a 401 followed by the
      token refresh's result (None when the refresh failed), or any other
      error. A refresh that answers the empty string has stored it under
      `accessToken` (src/utils/auth.js:23-24), but the context treats it as
      falsy, like a failed refresh. */
  datatype FetchAnswer = UserData(data: User) | Unauthorized(newAccessToken: Option<string>) | OtherError

  /** The context's observable state, with the `accessToken` storage key. */
  datatype AuthState = AuthState(isAuthenticated: bool, user: Option<User>, userLoading: bool,
                                 accessToken: Option<string>)

  /** The state after `fetchUserData(token)` and the tokens its requests
      carried. `answers` are the answers to the successive requests; when
      they run out, the last request is still pending and changes nothing
      more. A 401 with a non-empty renewed token stores it and starts a retry
      that is not awaited, so `finally` clears `userLoading` before the retry
      ends; a 401 without one (none, or the empty string) signs the user out. */
  function Fetch(s: AuthState, token: string, answers: seq<FetchAnswer>): (r: (AuthState, seq<string>))
    decreases |answers|
    ensures |r.1| >= 1 && r.1[0] == token
    ensures answers == [] ==> r.0 == s
    ensures answers != [] ==> !r.0.userLoading
  {
    if answers == [] then (s, [token])
    else match answers[0]
      case UserData(u) => (s.(user := Some(u), userLoading := false), [token])
      case OtherError => (s.(userLoading := false), [token])
      case Unauthorized(None) => (s.(isAuthenticated := false, user := None, userLoading := false), [token])
      case Unauthorized(Some(renewed)) =>
        if renewed == "" then
          (s.(accessToken := Some(""), isAuthenticated := false, user := None, userLoading := false), [token])
        else
          var retry := Fetch(s.(accessToken := Some(renewed), isAuthenticated := true, userLoading := false),
                             renewed, answers[1..]);
          (retry.0, [token] + retry.1)
  }

  /** A successful fetch sets the user to the answer and touches nothing else but the flag. */
  lemma FetchSuccess(s: AuthState, token: string, u: User, rest: seq<FetchAnswer>)
    ensures Fetch(s, token, [UserData(u)] + rest).0 == s.(user := Some(u), userLoading := false)
  {
  }

  /** A 401 whose refresh fails signs the user out of the context. */
  lemma FetchRefreshFails(s: AuthState, token: string, rest: seq<FetchAnswer>)
    ensures var r := Fetch(s, token, [Unauthorized(None)] + rest).0;
            !r.isAuthenticated && r.user.None? && !r.userLoading && r.accessToken == s.accessToken
  {
  }

  /** Any other error leaves the user and the flag as they were. */
  lemma FetchOtherError(s: AuthState, token: string, rest: seq<FetchAnswer>)
    ensures var r := Fetch(s, token, [OtherError] + rest).0;
            r.user == s.user && r.isAuthenticated == s.isAuthenticated && r.accessToken == s.accessToken
  {
  }

  /** A refresh that answers the empty string is falsy: the user is signed
      out as after a failed refresh, and no retry is sent. */
  lemma EmptyRenewedTokenSignsOut(s: AuthState, token: string, rest: seq<FetchAnswer>)
    ensures var r := Fetch(s, token, [Unauthorized(Some(""))] + rest);
            !r.0.isAuthenticated && r.0.user.None? && !r.0.userLoading && r.1 == [token]
  {
  }

  /** A 401 with a non-empty renewed token stores it and retries with it: the
      second request carries the renewed token, and a successful retry loads
      the user. */
  lemma FetchRetriesWithFreshToken(s: AuthState, token: string, renewed: string, u: User)
    requires renewed != ""
    ensures var r := Fetch(s, token, [Unauthorized(Some(renewed)), UserData(u)]);
            r.1 == [token, renewed]
            && r.0 == s.(accessToken := Some(renewed), isAuthenticated := true, user := Some(u), userLoading := false)
  {
    assert [Unauthorized(Some(renewed)), UserData(u)][1..] == [UserData(u)];
  }

  /** While the retry is still pending the context already reports that
      loading is over, with no user when none had been loaded. */
  lemma PendingRetryLooksSignedOut(s: AuthState, token: string, renewed: string)
    requires s.user.None? && renewed != ""
    ensures var r := Fetch(s, token, [Unauthorized(Some(renewed))]).0;
            !r.userLoading && r.user.None? && r.isAuthenticated
  {
  }

  /** Every request after the first carries the non-empty token the previous
      answer refreshed. */
  lemma {:induction false} RequestsCarryRefreshedTokens(s: AuthState, token: string, answers: seq<FetchAnswer>, k: nat)
    requires k + 1 < |Fetch(s, token, answers).1|
    ensures k < |answers| && answers[k].Unauthorized? && answers[k].newAccessToken == Some(Fetch(s, token, answers).1[k + 1])
    ensures Fetch(s, token, answers).1[k + 1] != ""
    decreases |answers|
  {
    match answers[0]
    case Unauthorized(Some(renewed)) =>
      if k > 0 && renewed != "" {
        RequestsCarryRefreshedTokens(s.(accessToken := Some(renewed), isAuthenticated := true, userLoading := false),
                                     renewed, answers[1..], k - 1);
      }
  }

  /** The provider: its three pieces of state and the storage holding the tokens. */
  class AuthProvider {
    const storage: LocalStorage
    var isAuthenticated: bool
    var user: Option<User>
    var userLoading: bool

    function State(): (s: AuthState)
      reads this, storage
      ensures s.isAuthenticated == isAuthenticated && s.user == user && s.userLoading == userLoading
      ensures s.accessToken == storage.accessToken
    {
      AuthState(isAuthenticated, user, userLoading, storage.accessToken)
    }

    /** The provider once mounted: with a non-empty stored access token it is
        authenticated and fetches the user with `answers`; without one, or
        with the empty string, it stops loading. */
    constructor (storage: LocalStorage, answers: seq<FetchAnswer>)
      modifies storage`accessToken
      ensures this.storage == storage
      ensures old(storage.accessToken).None? || old(storage.accessToken) == Some("") ==>
                State() == AuthState(false, None, false, old(storage.accessToken))
      ensures old(storage.accessToken).Some? && old(storage.accessToken) != Some("") ==>
                State() == Fetch(AuthState(true, None, true, old(storage.accessToken)),
                                 old(storage.accessToken).value, answers).0
      ensures storage.refreshToken == old(storage.refreshToken)
    {
      this.storage := storage;
      isAuthenticated := false;
      user := None;
      userLoading := true;
      new;
      var token := storage.accessToken;
      if token.Some? && token.value != "" {
        isAuthenticated := true;
        var _ := FetchUserData(token.value, answers);
      } else {
        userLoading := false;
      }
    }

    /** `fetchUserData`: the state and the tokens sent follow `Fetch`. */
    method FetchUserData(token: string, answers: seq<FetchAnswer>) returns (sent: seq<string>)
      modifies this, storage`accessToken
      decreases |answers|
      ensures State() == Fetch(old(State()), token, answers).0
      ensures sent == Fetch(old(State()), token, answers).1
      ensures storage.refreshToken == old(storage.refreshToken)
    {
      if answers == [] {
        sent := [token];
        return;
      }
      match answers[0]
      case UserData(u) =>
        user := Some(u);
        userLoading := false;
        sent := [token];
      case OtherError =>
        userLoading := false;
        sent := [token];
      case Unauthorized(None) =>
        isAuthenticated := false;
        user := None;
        userLoading := false;
        sent := [token];
      case Unauthorized(Some(renewed)) =>
        storage.accessToken := Some(renewed);
        if renewed == "" {
          isAuthenticated := false;
          user := None;
          userLoading := false;
          sent := [token];
        } else {
          isAuthenticated := true;
          userLoading := false;
          var retried := FetchUserData(renewed, answers[1..]);
          sent := [token] + retried;
        }
    }

    /** `login`: both tokens stored, authenticated and loading, then the fetch. */
    method Login(accessToken: string, refreshToken: string, answers: seq<FetchAnswer>) returns (sent: seq<string>)
      modifies this, storage`accessToken, storage`refreshToken
      ensures storage.refreshToken == Some(refreshToken)
      ensures State() == Fetch(old(State()).(isAuthenticated := true, userLoading := true, accessToken := Some(accessToken)),
                               accessToken, answers).0
      ensures sent == Fetch(old(State()).(isAuthenticated := true, userLoading := true, accessToken := Some(accessToken)),
                            accessToken, answers).1
    {
      storage.accessToken := Some(accessToken);
      storage.refreshToken := Some(refreshToken);
      isAuthenticated := true;
      userLoading := true;
      sent := FetchUserData(accessToken, answers);
    }

    /** `logout`: both tokens removed, no user, not loading. */
    method Logout()
      modifies this, storage`accessToken, storage`refreshToken
      ensures State() == AuthState(false, None, false, None)
      ensures storage.refreshToken.None?
    {
      storage.accessToken := None;
      storage.refreshToken := None;
      isAuthenticated := false;
      user := None;
      userLoading := false;
    }
  }
}
