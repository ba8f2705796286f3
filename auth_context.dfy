/**
 * The frontend's authentication session (src/context/AuthContext.tsx): the
 * signed-in user, the loading flag of the start-up check, and the
 * `auth-token` cookie that carries the session between visits.
 *
 * Each call to the backend is split at its `await` as in the dashboard
 * model: the outcome of the call is a parameter (a `Result` whose failure
 * stands for the rejected promise). The cookie jar holds only the
 * `auth-token` cookie; a cookie set on an earlier visit has an expiry the
 * model does not know, and the browser's expiry of cookies is not modelled.
 */
module AuthContext {
  import opened Wrappers
  import opened Schemas

  /** The `auth-token` cookie: its value and, when this session set it, its lifetime in days. */
  datatype Cookie = Cookie(value: string, expiresInDays: Option<nat>)

  /** Lifetime of the cookie set at login and signup. */
  const SessionDays: nat := 7

  const OutsideProviderMessage := "useAuth must be used within an AuthProvider"

  class AuthProvider {
    var user: Option<User>
    var isLoading: bool
    var authCookie: Option<Cookie>

    /** A fresh provider: no user, loading, and whatever cookie the browser holds. */
    constructor (stored: Option<Cookie>)
      ensures user == None && isLoading && authCookie == stored
    {
      user := None;
      isLoading := true;
      authCookie := stored;
    }

    /** The token the start-up check sends: the cookie's value unless absent or empty (falsy). */
    function StoredToken(): (token: Option<string>)
      reads this
      ensures token.Some? <==> authCookie.Some? && authCookie.value.value != ""
      ensures token.Some? ==> token.value == authCookie.value.value
    {
      if authCookie.Some? && authCookie.value.value != "" then Some(authCookie.value.value) else None
    }

    /**
     * The start-up effect up to the verification call: with no token the
     * loading ends and nothing else happens; with a token the call is made
     * (its argument returned) and the state is left for the answer.
     */
    method BeginStartup() returns (token: Option<string>)
      modifies this`isLoading
      ensures token == old(StoredToken())
      ensures token.None? ==> !isLoading
      ensures token.Some? ==> isLoading == old(isLoading)
    {
      token := StoredToken();
      if token.None? {
        isLoading := false;
      }
    }

    /**
     * The start-up effect after the verification call: a verified token sets
     * the user; a rejected one removes the cookie and leaves the user. The
     * loading ends either way.
     */
    method FinishStartup(verified: Result<User, string>)
      modifies this
      ensures !isLoading
      ensures verified.Success? ==> user == Some(verified.value) && authCookie == old(authCookie)
      ensures verified.Failure? ==> user == old(user) && authCookie == None
    {
      match verified {
        case Success(u) =>
          user := Some(u);
        case Failure(_) =>
          authCookie := None;
      }
      isLoading := false;
    }

    /** The start-up effect with no other event between the call and its answer. */
    method Startup(verify: string -> Result<User, string>)
      modifies this
      ensures !isLoading
      ensures old(StoredToken()).None? ==> user == old(user) && authCookie == old(authCookie)
      ensures old(StoredToken()).Some? && verify(old(StoredToken()).value).Success? ==>
        user == Some(verify(old(StoredToken()).value).value) && authCookie == old(authCookie)
      ensures old(StoredToken()).Some? && verify(old(StoredToken()).value).Failure? ==>
        user == old(user) && authCookie == None
    {
      var token := BeginStartup();
      if token.Some? {
        FinishStartup(verify(token.value));
      }
    }

    /**
     * `login` and `signup` after the backend call: success stores the token in
     * the cookie for seven days, then the user; failure rethrows before either
     * is touched.
     */
    method FinishSignIn(response: Result<AuthResponse, string>) returns (r: Result<(), string>)
      modifies this
      ensures r.Success? <==> response.Success?
      ensures response.Failure? ==> r.error == response.error
      ensures response.Success? ==>
        authCookie == Some(Cookie(response.value.token, Some(SessionDays))) && user == Some(response.value.user)
      ensures response.Failure? ==> authCookie == old(authCookie) && user == old(user)
      ensures isLoading == old(isLoading)
    {
      match response {
        case Success(resp) =>
          authCookie := Some(Cookie(resp.token, Some(SessionDays)));
          user := Some(resp.user);
          r := Success(());
        case Failure(e) =>
          r := Failure(e);
      }
    }

    /** `login`, `login(email, password)` standing for the backend's answer. */
    method Login(email: string, password: string, login: (string, string) -> Result<AuthResponse, string>)
      returns (r: Result<(), string>)
      modifies this
      ensures r.Success? <==> login(email, password).Success?
      ensures login(email, password).Success? ==>
        authCookie == Some(Cookie(login(email, password).value.token, Some(SessionDays)))
        && user == Some(login(email, password).value.user)
      ensures login(email, password).Failure? ==> authCookie == old(authCookie) && user == old(user)
      ensures isLoading == old(isLoading)
    {
      r := FinishSignIn(login(email, password));
    }

    /** `signup`: the same effect as `login`, for the backend's signup answer. */
    method Signup(email: string, password: string, name: string,
                  signup: (string, string, string) -> Result<AuthResponse, string>)
      returns (r: Result<(), string>)
      modifies this
      ensures r.Success? <==> signup(email, password, name).Success?
      ensures signup(email, password, name).Success? ==>
        authCookie == Some(Cookie(signup(email, password, name).value.token, Some(SessionDays)))
        && user == Some(signup(email, password, name).value.user)
      ensures signup(email, password, name).Failure? ==> authCookie == old(authCookie) && user == old(user)
      ensures isLoading == old(isLoading)
    {
      r := FinishSignIn(signup(email, password, name));
    }

    /** `logout`: the cookie is removed and the user cleared. */
    method Logout()
      modifies this`authCookie, this`user
      ensures authCookie == None && user == None
    {
      authCookie := None;
      user := None;
    }
  }

  /** `useAuth`: the context value, or the error thrown outside a provider. */
  function UseAuth<T>(context: Option<T>): (r: Result<T, string>)
    ensures r.Success? <==> context.Some?
    ensures r.Success? ==> r.value == context.value
    ensures r.Failure? ==> r.error == OutsideProviderMessage
  {
    match context
    case Some(c) => Success(c)
    case None => Failure(OutsideProviderMessage)
  }

  /**
   * Nothing orders a login against the start-up check: when the stored token
   * is rejected after a login has completed, the cookie just set is removed
   * while the user stays signed in.
   */
  method LoginDuringStartup(stale: string, answer: AuthResponse) returns (p: AuthProvider)
    requires stale != ""
    ensures p.user == Some(answer.user) && p.authCookie == None && !p.isLoading
  {
    p := new AuthProvider(Some(Cookie(stale, None)));
    var token := p.BeginStartup();
    var _ := p.FinishSignIn(Success(answer));
    p.FinishStartup(Failure("invalid token"));
  }
}
