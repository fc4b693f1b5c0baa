/** src/pages/login.tsx: the login handler. A successful login makes the
    server's user the session user; a failure leaves the session alone and
    shows the error. */
module LoginPage {
  import opened Js
  import opened Types
  import Api
  import AuthStorage
  import AuthContext

  const LoginFallback := "Credenciales inválidas"

  /** The session user, the error text, the loading flag, and the request. */
  datatype Step = Step(user: Option<User>, error: string, loading: bool, request: Api.Call)

  /** `handleSubmit` once the login call has settled. The error is cleared at
      the start, so it is empty after a success. */
  function HandleSubmit(user: Option<User>, username: string, password: string, outcome: Outcome<User>): (s: Step)
    ensures s.request == Api.Login(Api.LoginData(username, password))
    ensures !s.loading
    ensures outcome.Ok? ==> s.user == Some(outcome.value) && s.error == ""
    ensures outcome.Err? ==> s.user == user && s.error == MessageOr(outcome.thrown, LoginFallback)
  {
    var request := Api.Login(Api.LoginData(username, password));
    match outcome
    case Ok(u) => Step(Some(u), "", false, request)
    case Err(t) => Step(user, MessageOr(t, LoginFallback), false, request)
  }

  /** A login refused by the server holds the HTTP error, which names the
      status. */
  lemma RefusedLoginShowsStatus(user: Option<User>, username: string, password: string, res: Api.HttpResponse<User>)
    requires !Api.IsOk(res.status)
    ensures var s := HandleSubmit(user, username, password, Api.ApiFetch(Ok(res)));
      && s.user == user
      && s.error == Api.HttpErrorMessage(res.status, res.statusText, Api.BodyText(res.text))
      && Api.StatusOfMessage(s.error) == Some(res.status)
  {
    Api.ErrorStatusNeverSucceeds(res);
  }

  /** The logged-in user survives a reload: `setUser` persists it and the
      provider restores it on mount. */
  lemma LoginSurvivesReload(c: AuthStorage.Codec, session: AuthContext.Session,
                            username: string, password: string, u: User)
    requires AuthStorage.RoundTrips(c, u)
    ensures var s := HandleSubmit(session.user, username, password, Ok(u));
      AuthContext.Mount(c, AuthContext.SetUser(c, session, s.user).storage).user == Some(u)
  {
    AuthContext.ReloadRestoresUser(c, session, Some(u));
  }
}
