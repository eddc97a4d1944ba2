/**
  The login page's two callbacks. `handleGoogleSuccess` awaits the backend
  sign-in (its outcome is the `reply` parameter) and then either logs the
  user into the session store and navigates to the dashboard, or alerts.
  `handleGoogleError` only alerts.
*/
module LoginPage {

  import opened Wrappers
  import opened Js
  import opened AuthContext
  import opened Browser
  import Routing
  import Services

  const InvalidResponseAlert := "Login failed: Invalid response from server."
  const FailurePrefix := "Login failed: "
  const NoServerText := "Could not connect to server."
  const GoogleErrorAlert := "Google Sign-In Failed. Please try again."

  /** The ways the awaited sign-in can end. */
  datatype Decision =
    | SignIn(user: Value)      // `backendResponse && backendResponse.user` holds
    | InvalidResponse          // the reply has no truthy `user`
    | Failed(reason: Value)    // the call threw: `error.message || 'Could not connect to server.'`
    | Crashed                  // it threw null or undefined: `error.message` throws inside the `catch`

  function Decide(reply: Result<Value, Value>): (d: Decision)
    ensures d.SignIn? <==>
      reply.Success? && Truthy(reply.value) && Truthy(Get(reply.value, "user"))
    ensures d.SignIn? ==> d.user == Get(reply.value, "user") && Truthy(d.user)
    ensures d.InvalidResponse? <==> reply.Success? && !d.SignIn?
    ensures d.Failed? <==> reply.Failure? && !Nullish(reply.error)
    ensures d.Crashed? <==> reply.Failure? && Nullish(reply.error)
    ensures d.Failed? ==> Truthy(d.reason)
    ensures d.Failed? && Truthy(Get(reply.error, "message")) ==> d.reason == Get(reply.error, "message")
    ensures d.Failed? && !Truthy(Get(reply.error, "message")) ==> d.reason == Str(NoServerText)
  {
    match reply
    case Success(body) =>
      if Truthy(body) && Truthy(Get(body, "user")) then SignIn(Get(body, "user"))
      else InvalidResponse
    case Failure(err) =>
      match Member(err, "message")
      case None => Crashed
      case Some(message) => Failed(Or(message, Str(NoServerText)))
  }

  /**
    The page only ever hands the store a present user, so the session
    invariant of the store survives every sign-in attempt.
  */
  lemma SignInKeepsSessionConsistent(s: AuthState, reply: Result<Value, Value>)
    requires Consistent(s)
    requires Decide(reply).SignIn?
    ensures Consistent(AfterLogin(s, Decide(reply).user))
    ensures AfterLogin(s, Decide(reply).user).isLoggedIn
  {
  }

  /** The wrapper never rejects with null or undefined, so a sign-in through it never crashes. */
  lemma WrappedSignInNeverCrashes(t: Services.Transport)
    ensures !Decide(Services.LoginWithGoogleToken(t)).Crashed?
    ensures Decide(Services.LoginWithGoogleToken(t)).Failed? <==> !t.Delivered?
  {
  }

  /** After a successful sign-in the route table lets the dashboard render. */
  lemma SignInOpensDashboard(s: AuthState, reply: Result<Value, Value>)
    requires Decide(reply).SignIn?
    ensures Routing.Resolve(Routing.DashboardPath, AfterLogin(s, Decide(reply).user))
      == Routing.DashboardView
  {
  }

  method HandleGoogleSuccess(auth: AuthStore, window: Window, reply: Result<Value, Value>)
    modifies auth, window
    ensures Decide(reply).SignIn? ==>
      && auth.Context() == AfterLogin(old(auth.Context()), Decide(reply).user)
      && window.location == Routing.DashboardPath
      && window.alerts == old(window.alerts)
    ensures Decide(reply).InvalidResponse? ==>
      && auth.Context() == old(auth.Context())
      && window.location == old(window.location)
      && window.alerts == old(window.alerts) + [Plain(InvalidResponseAlert)]
    ensures Decide(reply).Failed? ==>
      && auth.Context() == old(auth.Context())
      && window.location == old(window.location)
      && window.alerts == old(window.alerts) + [Detailed(FailurePrefix, Decide(reply).reason)]
    ensures Decide(reply).Crashed? ==>
      && auth.Context() == old(auth.Context())
      && window.location == old(window.location)
      && window.alerts == old(window.alerts)
  {
    match reply
    case Success(backendResponse) =>
      if Truthy(backendResponse) && Truthy(Get(backendResponse, "user")) {
        auth.Login(Get(backendResponse, "user"));
        window.Navigate(Routing.DashboardPath);
      } else {
        window.ShowAlert(Plain(InvalidResponseAlert));
      }
    case Failure(error) =>
      // A TypeError from `error.message` leaves the handler before the alert.
      match Member(error, "message") {
        case None =>
        case Some(message) => window.ShowAlert(Detailed(FailurePrefix, Or(message, Str(NoServerText))));
      }
  }

  /** A Google-side error raises an alert and leaves the session and the location alone. */
  method HandleGoogleError(window: Window)
    modifies window
    ensures window.alerts == old(window.alerts) + [Plain(GoogleErrorAlert)]
    ensures window.location == old(window.location)
  {
    window.ShowAlert(Plain(GoogleErrorAlert));
  }
}
