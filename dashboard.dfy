/**
  The dashboard controller (DashboardPage). The pure part: the state value,
  the transitions of the fetch cycle, the account-response normalisation,
  the render-phase choice, the transactions panel and its rows, the welcome
  name and the format guards. The class DashboardPage holds the five state
  cells and its methods are specified by those transitions.
*/
module Dashboard {

  import opened Wrappers
  import opened Js
  import AuthContext
  import opened Browser
  import Routing
  import Services

  const LoadFailure := "Failed to load dashboard data"

  /** The five `useState` cells of the page. */
  datatype DashState = DashState(
    profileData: Value,
    accountData: Value,
    isLoading: bool,
    error: Value,
    showTransactions: bool)

  /** The initial values: null, null, true, null, false. */
  const Initial := DashState(Null, Null, true, Null, false)

  // ---------------------------------------------------------------- fetch cycle

  /** How the awaited `Promise.all` of the two service calls ended. */
  datatype FetchOutcome = Loaded(profile: Value, account: Value) | Threw(err: Value)

  /**
    `Promise.all([getProfile(), getAccountData()])`: both values when both
    calls return, otherwise the rejection that came first. Which of two
    rejections comes first is a matter of timing, given by `profileRejectsFirst`.
  */
  function AwaitBoth(profile: Result<Value, Value>, account: Result<Value, Value>,
                     profileRejectsFirst: bool): (o: FetchOutcome)
    ensures o.Loaded? <==> profile.Success? && account.Success?
    ensures o.Loaded? ==> o.profile == profile.value && o.account == account.value
    ensures profile.Failure? && account.Success? ==> o == Threw(profile.error)
    ensures profile.Success? && account.Failure? ==> o == Threw(account.error)
    ensures profile.Failure? && account.Failure? ==>
      o == Threw(if profileRejectsFirst then profile.error else account.error)
  {
    match (profile, account)
    case (Success(p), Success(a)) => Loaded(p, a)
    case (Failure(e), Success(_)) => Threw(e)
    case (Success(_), Failure(e)) => Threw(e)
    case (Failure(e1), Failure(e2)) => Threw(if profileRejectsFirst then e1 else e2)
  }

  /**
    The account reply, normalised: the first element of a non-empty array;
    any other array or object (an empty array included) as it is; anything
    else becomes null.
  */
  function NormaliseAccount(response: Value): (r: Value)
    ensures response.Arr? && |response.items| > 0 ==> r == response.items[0]
    ensures response == Arr([]) ==> r == Arr([])
    ensures response.Obj? ==> r == response
    ensures !IsObject(response) ==> r == Null
  {
    if response.Arr? && |response.items| > 0 then response.items[0]
    else if IsObject(response) then response
    else Null
  }

  /**
    The text recorded for a failed cycle: `err.message || "Failed to load
    dashboard data"`. On a null or undefined `err` the `.message` itself
    throws (None), and nothing is recorded.
  */
  function ErrorMessage(err: Value): (m: Option<Value>)
    ensures m.None? <==> Nullish(err)
    ensures m.Some? ==> Truthy(m.value)
    ensures m.Some? && Truthy(Get(err, "message")) ==> m.value == Get(err, "message")
    ensures m.Some? && !Truthy(Get(err, "message")) ==> m.value == Str(LoadFailure)
  {
    match Member(err, "message")
    case None => None
    case Some(message) => Some(Or(message, Str(LoadFailure)))
  }

  /** Start of `fetchData`: loading, no error, transactions hidden; the data is kept. */
  function BeginFetch(s: DashState): DashState {
    s.(isLoading := true, error := Null, showTransactions := false)
  }

  /**
    The rest of `fetchData`: the `try` body or the `catch`, then the
    `finally`, which runs even when the `catch` itself throws.
  */
  function SettleFetch(s: DashState, o: FetchOutcome): DashState {
    match o
    case Loaded(profile, account) =>
      s.(profileData := profile, accountData := NormaliseAccount(account), isLoading := false)
    case Threw(err) =>
      match ErrorMessage(err)
      case None => s.(isLoading := false)
      case Some(m) => s.(error := m, isLoading := false)
  }

  /** The effect run when `user` changes: no user means no fetch, only `isLoading = false`. */
  function Effect(s: DashState, user: Value, o: FetchOutcome): DashState {
    if !Truthy(user) then s.(isLoading := false) else SettleFetch(BeginFetch(s), o)
  }

  /** The error cell is null or a truthy value, so `if (error)` means `error !== null`. */
  predicate ErrorWellFormed(s: DashState) {
    s.error == Null || Truthy(s.error)
  }

  // ---------------------------------------------------------------- rendering

  datatype Phase = Loading | ErrorShown | Content

  /** The render choice, in order: loading, then error, then content. */
  function PhaseOf(s: DashState): Phase {
    if s.isLoading then Loading
    else if Truthy(s.error) then ErrorShown
    else Content
  }

  /**
    The transactions card is part of the content view only, and there it
    shows when `showTransactions && accountData`.
  */
  predicate PanelVisible(s: DashState) {
    PhaseOf(s) == Content && s.showTransactions && Truthy(s.accountData)
  }

  /** The view-transactions button. */
  function Toggled(s: DashState): DashState {
    s.(showTransactions := !s.showTransactions)
  }

  /** The close button of the transactions card. */
  function Closed(s: DashState): DashState {
    s.(showTransactions := false)
  }

  datatype AmountStyle = PositiveAmount | NegativeAmount

  /**
    JavaScript's `ToNumber` for the operands of `-`: numbers, null (0) and
    booleans (0 or 1); None stands for NaN, which undefined and plain
    objects give. Strings and arrays are taken as NaN as well.
  */
  function ToNumber(v: Value): (r: Option<real>)
    ensures v.Num? ==> r == Some(v.n)
    ensures v.Null? ==> r == Some(0.0)
    ensures v.Bool? ==> r == Some(if v.b then 1.0 else 0.0)
    ensures v.Undefined? || v.Obj? ==> r.None?
  {
    match v
    case Num(n) => Some(n)
    case Null => Some(0.0)
    case Bool(b) => Some(if b then 1.0 else 0.0)
    case _ => None
  }

  /** `t.amount_after - t.amount_before`; None stands for NaN. */
  function AmountChange(t: Value): Option<real> {
    match (ToNumber(Get(t, "amount_after")), ToNumber(Get(t, "amount_before")))
    case (Some(after), Some(before)) => Some(after - before)
    case _ => None
  }

  /** `amountChange >= 0 ? 'positive-amount' : 'negative-amount'` (NaN >= 0 is false). */
  function StyleOf(t: Value): AmountStyle {
    match AmountChange(t)
    case Some(c) => if c >= 0.0 then PositiveAmount else NegativeAmount
    case None => NegativeAmount
  }

  /** One table row: its React key, its amount cell and that cell's style. */
  datatype Row = Row(key: Value, amount: Cell, style: AmountStyle)

  datatype PanelBody = NoTransactions | Table(rows: seq<Row>)

  function RowOf(t: Value): Row {
    Row(Get(t, "transaction_number"),
        match AmountChange(t) case Some(c) => FormatCurrency(Num(c)) case None => LocalizedNaN,
        StyleOf(t))
  }

  /**
    The card's body: a table with one row per transaction, in the order the
    server sent them, when `accountData.transactions` is a non-empty array.
  */
  function PanelBodyOf(accountData: Value): (b: PanelBody)
    ensures b.Table? <==>
      Get(accountData, "transactions").Arr? && |Get(accountData, "transactions").items| > 0
    ensures b.Table? ==>
      && |b.rows| == |Get(accountData, "transactions").items|
      && forall i :: 0 <= i < |b.rows| ==> b.rows[i] == RowOf(Get(accountData, "transactions").items[i])
  {
    var ts := Get(accountData, "transactions");
    if ts.Arr? && |ts.items| > 0 then
      Table(seq(|ts.items|, i requires 0 <= i < |ts.items| => RowOf(ts.items[i])))
    else NoTransactions
  }

  /** `profileData?.full_name || user?.email || 'User'`. */
  function WelcomeName(profileData: Value, user: Value): (r: Value)
    ensures Truthy(r)
    ensures Truthy(Get(profileData, "full_name")) ==> r == Get(profileData, "full_name")
    ensures !Truthy(Get(profileData, "full_name")) && Truthy(Get(user, "email")) ==> r == Get(user, "email")
    ensures !Truthy(Get(profileData, "full_name")) && !Truthy(Get(user, "email")) ==> r == Str("User")
  {
    Or(Or(Get(profileData, "full_name"), Get(user, "email")), Str("User"))
  }

  /** A formatted cell: 'N/A', or the value handed to the locale formatter. */
  datatype Cell =
    | NotAvailable         // 'N/A'
    | Localized(v: Value)  // the value handed to the locale formatter
    | LocalizedNaN         // NaN is a number, so it too goes to the formatter

  /** formatCurrency's guard: anything but a number shows 'N/A'. */
  function FormatCurrency(amount: Value): (c: Cell)
    ensures c.NotAvailable? <==> !amount.Num?
    ensures c.Localized? ==> c.v == amount
  {
    if !amount.Num? then NotAvailable else Localized(amount)
  }

  /** formatDate's guard: a falsy date shows 'N/A'. */
  function FormatDate(date: Value): (c: Cell)
    ensures c.NotAvailable? <==> !Truthy(date)
    ensures c.Localized? ==> c.v == date
  {
    if !Truthy(date) then NotAvailable else Localized(date)
  }

  // ---------------------------------------------------------------- properties

  /** Each fetch starts by setting the three flags and leaves the data cells alone. */
  lemma BeginFetchResetsFlags(s: DashState)
    ensures BeginFetch(s).isLoading && BeginFetch(s).error == Null && !BeginFetch(s).showTransactions
    ensures BeginFetch(s).profileData == s.profileData && BeginFetch(s).accountData == s.accountData
    ensures PhaseOf(BeginFetch(s)) == Loading && !PanelVisible(BeginFetch(s))
  {
  }

  /** With no user there is no fetch: only `isLoading` changes, to false. */
  lemma NoUserNoFetch(s: DashState, user: Value, o1: FetchOutcome, o2: FetchOutcome)
    requires !Truthy(user)
    ensures Effect(s, user, o1) == Effect(s, user, o2) == s.(isLoading := false)
  {
  }

  /** Every run of the effect ends with `isLoading == false`. */
  lemma EffectEndsLoading(s: DashState, user: Value, o: FetchOutcome)
    ensures !Effect(s, user, o).isLoading
    ensures PhaseOf(Effect(s, user, o)) != Loading
  {
  }

  /**
    A successful cycle stores the profile and the normalised account, clears
    the error and reaches the content view with the transactions hidden.
  */
  lemma FetchSucceeds(s: DashState, profile: Value, account: Value)
    ensures var t := SettleFetch(BeginFetch(s), Loaded(profile, account));
      && t.profileData == profile
      && t.accountData == NormaliseAccount(account)
      && !t.isLoading && t.error == Null && !t.showTransactions
      && PhaseOf(t) == Content
  {
  }

  /**
    A failed cycle writes neither data cell. A thrown value records a truthy
    error and shows the error view, so the data of an earlier cycle is not
    shown. A thrown null or undefined makes the `catch` throw before it
    records anything: the error stays null and the earlier data is shown.
  */
  lemma FetchFails(s: DashState, err: Value)
    ensures var t := SettleFetch(BeginFetch(s), Threw(err));
      && t.profileData == s.profileData
      && t.accountData == s.accountData
      && !t.isLoading && !t.showTransactions
      && (!Nullish(err) ==> t.error == ErrorMessage(err).value && PhaseOf(t) == ErrorShown)
      && (Nullish(err) ==> t.error == Null && PhaseOf(t) == Content)
  {
    match ErrorMessage(err)
    case Some(m) => assert Truthy(m);
    case None =>
  }

  /**
    Whichever service call fails, both data cells are untouched, and the
    cycle ends in the error view exactly when the rejection that won is not
    null or undefined.
  */
  lemma EitherFailureShowsError(s: DashState, user: Value, profile: Result<Value, Value>,
                                account: Result<Value, Value>, first: bool)
    requires Truthy(user)
    requires profile.Failure? || account.Failure?
    ensures var t := Effect(s, user, AwaitBoth(profile, account, first));
      && (PhaseOf(t) == ErrorShown <==> !Nullish(AwaitBoth(profile, account, first).err))
      && t.profileData == s.profileData && t.accountData == s.accountData
  {
    FetchFails(s, AwaitBoth(profile, account, first).err);
  }

  /** The wrappers never reject with null or undefined, so a failed call through them shows the error view. */
  lemma WrappedFailureShowsError(s: DashState, user: Value, profile: Services.Transport,
                                 account: Services.Transport, first: bool)
    requires Truthy(user)
    requires !profile.Delivered? || !account.Delivered?
    ensures var t := Effect(s, user, AwaitBoth(Services.GetProfile(profile),
                                               Services.GetAccountData(account), first));
      && PhaseOf(t) == ErrorShown
      && t.profileData == s.profileData && t.accountData == s.accountData
  {
    EitherFailureShowsError(s, user, Services.GetProfile(profile), Services.GetAccountData(account), first);
  }

  /** Every transition keeps the error cell null or truthy. */
  lemma TransitionsKeepErrorWellFormed(s: DashState, user: Value, o: FetchOutcome)
    requires ErrorWellFormed(s)
    ensures ErrorWellFormed(Initial)
    ensures ErrorWellFormed(Effect(s, user, o))
    ensures ErrorWellFormed(Toggled(s)) && ErrorWellFormed(Closed(s))
  {
    match o
    case Threw(err) =>
      match ErrorMessage(err) {
        case Some(m) => assert Truthy(m);
        case None =>
      }
    case Loaded(_, _) =>
  }

  /** Under that invariant the render choice is: loading, else error iff `error !== null`, else content. */
  lemma PhaseByNullness(s: DashState)
    requires ErrorWellFormed(s)
    ensures PhaseOf(s) == Loading <==> s.isLoading
    ensures PhaseOf(s) == ErrorShown <==> !s.isLoading && s.error != Null
    ensures PhaseOf(s) == Content <==> !s.isLoading && s.error == Null
  {
  }

  /** The toggle flips the flag (twice is no change); the close button clears it. */
  lemma PanelControls(s: DashState)
    ensures Toggled(s).showTransactions == !s.showTransactions
    ensures Toggled(Toggled(s)) == s
    ensures !Closed(s).showTransactions && !PanelVisible(Closed(s))
    ensures PanelVisible(Toggled(s)) <==>
      PhaseOf(s) == Content && !s.showTransactions && Truthy(s.accountData)
  {
  }

  /**
    A normalised empty account list is itself truthy, so the account card and
    the transactions card are shown for it (with 'N/A' fields and no rows).
  */
  lemma EmptyAccountListIsShown(s: DashState)
    requires s.accountData == NormaliseAccount(Arr([]))
    requires s.showTransactions
    ensures PhaseOf(s) == Content ==> PanelVisible(s)
    ensures PanelBodyOf(s.accountData) == NoTransactions
  {
  }

  /** A numeric row is a credit exactly when `amount_after - amount_before >= 0`. */
  lemma StyleRule(t: Value, before: real, after: real)
    requires Get(t, "amount_before") == Num(before) && Get(t, "amount_after") == Num(after)
    ensures AmountChange(t) == Some(after - before)
    ensures StyleOf(t) == PositiveAmount <==> after - before >= 0.0
    ensures RowOf(t).amount == Localized(Num(after - before))
  {
  }

  /**
    `-` converts its operands: null counts as 0, so a row of nulls is a
    credit of 0; a missing amount gives NaN, a debit whose NaN still goes
    to the formatter (it is a number).
  */
  lemma ConvertedOperands(t: Value)
    ensures Get(t, "amount_after") == Null && Get(t, "amount_before") == Null ==>
      StyleOf(t) == PositiveAmount && RowOf(t).amount == Localized(Num(0.0))
    ensures Get(t, "amount_after") == Undefined ==>
      StyleOf(t) == NegativeAmount && RowOf(t).amount == LocalizedNaN
  {
  }

  /** 1000 -> 1500 is a credit, 1500 -> 1000 a debit. */
  lemma StyleExamples()
    ensures StyleOf(Obj(map["amount_before" := Num(1000.0), "amount_after" := Num(1500.0)])) == PositiveAmount
    ensures StyleOf(Obj(map["amount_before" := Num(1500.0), "amount_after" := Num(1000.0)])) == NegativeAmount
  {
    StyleRule(Obj(map["amount_before" := Num(1000.0), "amount_after" := Num(1500.0)]), 1000.0, 1500.0);
    StyleRule(Obj(map["amount_before" := Num(1500.0), "amount_after" := Num(1000.0)]), 1500.0, 1000.0);
  }

  // ---------------------------------------------------------------- the page

  class DashboardPage {
    var profileData: Value
    var accountData: Value
    var isLoading: bool
    var error: Value
    var showTransactions: bool

    function State(): DashState
      reads this
    {
      DashState(profileData, accountData, isLoading, error, showTransactions)
    }

    constructor ()
      ensures State() == Initial
    {
      profileData, accountData := Null, Null;
      isLoading, error, showTransactions := true, Null, false;
    }

    /**
      The `[user]` effect: with no user only `isLoading` is cleared; otherwise
      `fetchData` resets the flags, awaits both service calls, stores the
      data or the error, and clears `isLoading` in its `finally`.
    */
    method RunEffect(user: Value, profile: Result<Value, Value>, account: Result<Value, Value>,
                     profileRejectsFirst: bool)
      modifies this
      ensures State() == Effect(old(State()), user, AwaitBoth(profile, account, profileRejectsFirst))
      ensures !isLoading
      ensures ErrorWellFormed(old(State())) ==> ErrorWellFormed(State())
    {
      if !Truthy(user) {
        isLoading := false;
        return;
      }
      isLoading := true;
      error := Null;
      showTransactions := false;
      var outcome := AwaitBoth(profile, account, profileRejectsFirst);
      match outcome {
        case Loaded(p, accountResponse) =>
          profileData := p;
          accountData := NormaliseAccount(accountResponse);
        case Threw(err) =>
          // A TypeError from `err.message` skips `setError`; the `finally` still runs.
          match ErrorMessage(err) {
            case None =>
            case Some(m) => error := m;
          }
      }
      isLoading := false;
    }

    method ToggleTransactions()
      modifies this
      ensures State() == Toggled(old(State()))
    {
      showTransactions := !showTransactions;
    }

    method CloseTransactions()
      modifies this
      ensures State() == Closed(old(State()))
      ensures !PanelVisible(State())
    {
      showTransactions := false;
    }

    /**
      `handleLogout`: the backend logout is awaited and its failure only
      logged; the `finally` always clears the session store and navigates to
      the login page, whatever the transport delivered.
    */
    method HandleLogout(auth: AuthContext.AuthStore, window: Window, logout: Services.Transport)
      modifies auth, window
      ensures auth.Context() == AuthContext.Initial
      ensures window.location == Routing.LoginPath
      ensures window.alerts == old(window.alerts)
    {
      var backendLogout := Services.Logout(logout);
      auth.Logout();
      window.Navigate(Routing.LoginPath);
    }
  }
}
