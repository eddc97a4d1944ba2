/**
  The frontend and the backend together: a backend reply travels through
  axios (2xx resolves, anything else rejects with the decoded body) into
  the service wrappers, and from there into the sign-in page, the route
  table and the dashboard's state.
*/
module Integration {

  import opened Wrappers
  import opened Js
  import Services
  import AuthContext
  import Routing
  import LoginPage
  import Dashboard
  import Models
  import AccountNumbers
  import Recent
  import Backend

  /** axios's default `validateStatus`: a 2xx status resolves, every other one rejects. */
  function Transmit(resp: Backend.Response): (t: Services.Transport)
    ensures t.Delivered? <==> 200 <= resp.status < 300
    ensures t.Delivered? ==> t.data == resp.body
    ensures !t.Delivered? ==> t == Services.Rejected(resp.body)
  {
    if 200 <= resp.status < 300 then Services.Delivered(resp.body) else Services.Rejected(resp.body)
  }

  /**
    A sign-in the backend refuses (missing or invalid token, inactive user,
    server error) reaches the page as a failure carrying the backend's own
    message, never the wrapper's fallback.
  */
  lemma RefusedSignInReachesPage(st: Backend.Store, session: Backend.Session, body: Backend.SignInBody,
                                 v: Backend.Verification, id: string, draws: seq<AccountNumbers.Uuid>,
                                 now: Models.Timestamp)
    requires AccountNumbers.SomeDrawFree(Backend.NumbersOf(st.accounts), draws)
    requires Backend.SignIn(st, session, body, v, id, draws, now).response.status != 200
    ensures var r := Backend.SignIn(st, session, body, v, id, draws, now).response;
      && Truthy(Get(r.body, "message"))
      && LoginPage.Decide(Services.LoginWithGoogleToken(Transmit(r))) == LoginPage.Failed(Get(r.body, "message"))
  {
    Backend.SignInReplyShapes(st, session, body, v, id, draws, now);
  }

  /**
    A sign-in the backend accepts signs the client in with the user object
    the backend echoed; the store stays consistent and the route table then
    opens the dashboard.
  */
  lemma AcceptedSignInOpensDashboard(st: Backend.Store, session: Backend.Session, body: Backend.SignInBody,
                                     v: Backend.Verification, id: string, draws: seq<AccountNumbers.Uuid>,
                                     now: Models.Timestamp, client: AuthContext.AuthState)
    requires AccountNumbers.SomeDrawFree(Backend.NumbersOf(st.accounts), draws)
    requires Backend.SignIn(st, session, body, v, id, draws, now).response.status == 200
    ensures var r := Backend.SignIn(st, session, body, v, id, draws, now).response;
      var d := LoginPage.Decide(Services.LoginWithGoogleToken(Transmit(r)));
      && d == LoginPage.SignIn(Get(r.body, "user"))
      && AuthContext.Consistent(AuthContext.AfterLogin(client, d.user))
      && Routing.Resolve(Routing.DashboardPath, AuthContext.AfterLogin(client, d.user)) == Routing.DashboardView
  {
    Backend.SignInReplyShapes(st, session, body, v, id, draws, now);
    var r := Backend.SignIn(st, session, body, v, id, draws, now).response;
    var u :| r == Backend.LoginSuccess(u);
    assert Truthy(Get(r.body, "user"));
  }

  /**
    What the dashboard keeps of `/api/account`: nothing to list for a user
    without accounts, otherwise the first account, whose card lists the
    account's recent transactions in the server's order, each row keyed by
    its transaction number and styled by the sign of its balance change.
  */
  lemma AccountReachesDashboard(st: Backend.Store, session: Backend.Session)
    requires Backend.SignedIn(st, session)
    ensures var reply := Services.GetAccountData(Transmit(Backend.AccountRoute(st, session).response));
      var mine := Backend.AccountsOf(st.accounts, session[Backend.UserIdKey]);
      && reply.Success?
      && (mine == [] ==>
            && Dashboard.NormaliseAccount(reply.value) == Arr([])
            && Dashboard.PanelBodyOf(Dashboard.NormaliseAccount(reply.value)) == Dashboard.NoTransactions)
      && (mine != [] ==>
            Dashboard.NormaliseAccount(reply.value) == Backend.AccountJson(mine[0], Recent.RecentOf(st.transactions, mine[0].accountNumber)))
  {
    Backend.AccountRouteShape(st, session);
  }

  /**
    The card of one serialised account: a row per recent transaction, in
    the order the backend chose (newest first), with the transaction's
    number as key and the positive style exactly when the balance did not
    go down.
  */
  lemma PanelOfAccount(a: Models.Account, txs: seq<Models.Transaction>)
    ensures var recent := Recent.RecentOf(txs, a.accountNumber);
      var body := Dashboard.PanelBodyOf(Backend.AccountJson(a, Recent.RecentOf(txs, a.accountNumber)));
      && (recent == [] <==> body == Dashboard.NoTransactions)
      && (body.Table? ==>
            && |body.rows| == |recent|
            && forall i :: 0 <= i < |recent| ==>
                 && body.rows[i].key == Str(recent[i].transactionNumber)
                 && (body.rows[i].style == Dashboard.PositiveAmount <==>
                       recent[i].amountAfter - recent[i].amountBefore >= 0.0))
  {
    var recent := Recent.RecentOf(txs, a.accountNumber);
    var items := Backend.TransactionsJson(recent);
    assert Get(Backend.AccountJson(a, Recent.RecentOf(txs, a.accountNumber)), "transactions") == Arr(items);
    forall i | 0 <= i < |recent|
      ensures Dashboard.RowOf(items[i]).key == Str(recent[i].transactionNumber)
      ensures Dashboard.RowOf(items[i]).style == Dashboard.PositiveAmount <==>
        recent[i].amountAfter - recent[i].amountBefore >= 0.0
    {
      var t := recent[i];
      assert items[i] == Backend.TransactionJson(t);
      assert Get(items[i], "amount_after") == Num(t.amountAfter);
      assert Get(items[i], "amount_before") == Num(t.amountBefore);
      assert Dashboard.AmountChange(items[i]) == Some(t.amountAfter - t.amountBefore);
    }
  }

  /**
    A signed-in user's dashboard: once both calls come back it shows its
    content with the transactions card closed, holding the user's profile.
  */
  lemma SignedInDashboardLoads(st: Backend.Store, session: Backend.Session, user: Value,
                               s: Dashboard.DashState, profileRejectsFirst: bool)
    requires Backend.SignedIn(st, session) && Truthy(user)
    ensures var profile := Services.GetProfile(Transmit(Backend.ProfileRoute(st, session).response));
      var account := Services.GetAccountData(Transmit(Backend.AccountRoute(st, session).response));
      var next := Dashboard.Effect(s, user, Dashboard.AwaitBoth(profile, account, profileRejectsFirst));
      && Dashboard.PhaseOf(next) == Dashboard.Content
      && !next.showTransactions
      && next.profileData == Backend.ProfileJson(Backend.FindUser(st.users, session[Backend.UserIdKey]).value)
  {
    Backend.ProfileNever404(st, session);
    Backend.AccountRouteShape(st, session);
  }

  /**
    A client whose session no longer names an active user (signed out on
    the server, deleted or deactivated) gets the backend's 401 text on the
    dashboard instead of the data.
  */
  lemma LostSessionShowsError(st: Backend.Store, session: Backend.Session, user: Value,
                              s: Dashboard.DashState, profileRejectsFirst: bool)
    requires !Backend.SignedIn(st, session) && Truthy(user)
    ensures var profile := Services.GetProfile(Transmit(Backend.ProfileRoute(st, session).response));
      var account := Services.GetAccountData(Transmit(Backend.AccountRoute(st, session).response));
      var next := Dashboard.Effect(s, user, Dashboard.AwaitBoth(profile, account, profileRejectsFirst));
      && Dashboard.PhaseOf(next) == Dashboard.ErrorShown
      && next.error in {Str(Backend.AuthRequired), Str(Backend.AuthFailed)}
  {
    Backend.AuthorizeCases(st, session);
  }
}
