/**
 * The login and signup pages (src/Pages/AuthPages.js): the guest cart
 * merged into the account after a login, the stored tokens, and the
 * signup form's password check.
 */
module AuthPages {
  import opened Common
  import opened Storage
  import opened CartUtils
  import opened AuthContext
  import ProtectedRoute

  /** The `/cart/merge` request: the guest cart and the token it is sent with. */
  datatype MergeRequest = MergeRequest(items: seq<CartLine>, token: string)

  /** `mergeCartOnLogin`. An absent or empty guest cart returns at once.
      Otherwise the cart is sent, and the `cart` key is removed only when
      the backend accepts it. */
  method MergeCartOnLogin(storage: LocalStorage, token: string, mergeAccepted: bool) returns (request: Option<MergeRequest>)
    modifies storage`cart
    ensures old(GetCartFromLocalStorage(storage)) == [] ==> request.None? && storage.cart == old(storage.cart)
    ensures old(GetCartFromLocalStorage(storage)) != [] ==>
              request == Some(MergeRequest(old(storage.cart).value, token))
              && (mergeAccepted ==> storage.cart.None?)
              && (!mergeAccepted ==> storage.cart == old(storage.cart))
  {
    var localCart := GetCartFromLocalStorage(storage);
    if |localCart| == 0 {
      return None;
    }
    request := Some(MergeRequest(localCart, token));
    if mergeAccepted {
      storage.cart := None;
    }
  }

  /** The tokens `/login` answers with. */
  datatype Tokens = Tokens(access_token: string, refresh_token: string)

  const LoginFailed := "Login failed"
  const PasswordsDiffer := "Passwords do not match"
  const SignupFailed := "Signup failed"
  const Registered := "Registration successful! Redirecting to login..."

  class LoginPage {
    const auth: AuthProvider
    var error: string

    constructor (auth: AuthProvider)
      ensures this.auth == auth && error == ""
    {
      this.auth := auth;
      error := "";
    }

    /** `handleLogin`. On success both tokens are stored, `login` runs its
        fetch with `answers`, the guest cart is merged with the new access
        token and the page navigates home. On failure the backend's message
        or "Login failed" is shown and nothing else changes. `login`'s fetch
        is not awaited; it touches no storage key the merge reads, so the
        model runs it first. */
    method HandleLogin(response: Response<Tokens>, answers: seq<FetchAnswer>, mergeAccepted: bool)
      returns (mergeRequest: Option<MergeRequest>, navigateHome: bool)
      modifies this`error, auth, auth.storage
      ensures response.Err? ==>
                error == ErrorText(response.msg, LoginFailed) && !navigateHome && mergeRequest.None?
                && auth.State() == old(auth.State()) && auth.storage.cart == old(auth.storage.cart)
                && auth.storage.refreshToken == old(auth.storage.refreshToken)
      ensures response.Ok? ==>
                var tokens := response.value;
                navigateHome && error == old(error)
                && auth.storage.refreshToken == Some(tokens.refresh_token)
                && auth.State() == Fetch(old(auth.State()).(isAuthenticated := true, userLoading := true,
                                                             accessToken := Some(tokens.access_token)),
                                         tokens.access_token, answers).0
                && (old(GetCartFromLocalStorage(auth.storage)) == [] ==>
                      mergeRequest.None? && auth.storage.cart == old(auth.storage.cart))
                && (old(GetCartFromLocalStorage(auth.storage)) != [] ==>
                      mergeRequest == Some(MergeRequest(old(auth.storage.cart).value, tokens.access_token))
                      && auth.storage.cart == (if mergeAccepted then None else old(auth.storage.cart)))
    {
      mergeRequest := None;
      navigateHome := false;
      match response
      case Err(msg) =>
        error := ErrorText(msg, LoginFailed);
      case Ok(tokens) =>
        auth.storage.accessToken := Some(tokens.access_token);
        auth.storage.refreshToken := Some(tokens.refresh_token);
        var _ := auth.Login(tokens.access_token, tokens.refresh_token, answers);
        mergeRequest := MergeCartOnLogin(auth.storage, tokens.access_token, mergeAccepted);
        navigateHome := true;
    }
  }

  /** A login whose user fetch succeeds at once lets the user through every
      guard without a role list. */
  lemma LoginThenFetchOpensProtectedRoutes(before: AuthState, tokens: Tokens, u: User)
    ensures var after := Fetch(before.(isAuthenticated := true, userLoading := true,
                                       accessToken := Some(tokens.access_token)),
                               tokens.access_token, [UserData(u)]).0;
            ProtectedRoute.Guard(after.userLoading, after.user, None) == ProtectedRoute.RenderChildren
            && after.accessToken == Some(tokens.access_token)
  {
  }

  /** The `/register` request. */
  datatype RegisterRequest = RegisterRequest(username: string, email: string, password: string,
                                             taxId: string, homeAddress: string)

  /** The form's fields. `agreed` is the terms checkbox. */
  datatype SignupForm = SignupForm(username: string, email: string, password: string,
                                   confirmPassword: string, taxId: string, homeAddress: string, agreed: bool)

  /** What `handleSignup` leaves: the request sent, if any, and the two messages. */
  datatype SignupResult = SignupResult(request: Option<RegisterRequest>, error: string, success: string,
                                       navigateToLogin: bool)

  /** `handleSignup`, from the messages shown before. A password mismatch
      sets the error and sends nothing; otherwise the form is sent and the
      answer sets the success message or the error. */
  function HandleSignup(form: SignupForm, error: string, success: string, response: Response<()>): (r: SignupResult)
    ensures form.password != form.confirmPassword ==>
              r == SignupResult(None, PasswordsDiffer, success, false)
    ensures form.password == form.confirmPassword ==>
              r.request == Some(RegisterRequest(form.username, form.email, form.password, form.taxId, form.homeAddress))
    ensures form.password == form.confirmPassword && response.Ok? ==>
              r.success == Registered && r.error == error && r.navigateToLogin
    ensures form.password == form.confirmPassword && response.Err? ==>
              r.error == ErrorText(response.msg, SignupFailed) && r.success == success && !r.navigateToLogin
  {
    if form.password != form.confirmPassword then SignupResult(None, PasswordsDiffer, success, false)
    else
      var request := RegisterRequest(form.username, form.email, form.password, form.taxId, form.homeAddress);
      match response
      case Ok(_) => SignupResult(Some(request), error, Registered, true)
      case Err(msg) => SignupResult(Some(request), ErrorText(msg, SignupFailed), success, false)
  }

  /** The terms checkbox does not take part: ticking it or not gives the same result. */
  lemma SignupIgnoresAgreement(form: SignupForm, error: string, success: string, response: Response<()>)
    ensures HandleSignup(form.(agreed := true), error, success, response) ==
            HandleSignup(form.(agreed := false), error, success, response)
  {
  }

  /** Whatever the form, a registration request is sent only with a
      confirmed password, and then it carries that password. */
  lemma RegistrationNeedsConfirmedPassword(form: SignupForm, error: string, success: string, response: Response<()>)
    ensures HandleSignup(form, error, success, response).request.Some? <==> form.password == form.confirmPassword
    ensures HandleSignup(form, error, success, response).request.Some? ==>
              HandleSignup(form, error, success, response).request.value.password == form.confirmPassword
  {
  }

  /** An earlier error stays on screen after a later successful signup. */
  lemma SuccessKeepsEarlierError(form: SignupForm)
    requires form.password == form.confirmPassword
    ensures var r := HandleSignup(form, PasswordsDiffer, "", Ok(()));
            r.error == PasswordsDiffer && r.success == Registered
  {
  }
}
