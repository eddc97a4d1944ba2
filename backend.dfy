/**
  The backend's access control and sign-in provisioning (app.py), over an
  in-memory store of users, accounts and transactions and one client's
  session dictionary. Token verification, the UUID source and the clock are
  inputs. The pure part gives each route's reply and new state; the class
  Server holds the store and the session and is specified by it.
*/
module Backend {

  import opened Wrappers
  import opened Js
  import opened Models
  import opened AccountNumbers
  import opened Recent

  const UserIdKey := "user_id"

  /** The client's signed session dictionary. */
  type Session = map<string, string>

  datatype Store = Store(users: seq<User>, accounts: seq<Account>, transactions: seq<Transaction>)

  /** An HTTP status and its JSON body. */
  datatype Response = Response(status: int, body: Value)

  /** `jsonify({"message": text}), status`. */
  function Message(status: int, text: string): Response {
    Response(status, Obj(map["message" := Str(text)]))
  }

  const AuthRequired := "Authentication required"
  const AuthFailed := "Authentication failed or user inactive"
  const SignInError := "An error occurred during sign-in."

  // ---------------------------------------------------------------- store queries

  /** `UserProfile.query.get(customer_id)`. */
  function FindUser(users: seq<User>, customerId: string): (r: Option<User>)
    ensures r.Some? ==> r.value in users && r.value.customerId == customerId
    ensures r.None? <==> forall u :: u in users ==> u.customerId != customerId
  {
    if users == [] then None
    else if users[0].customerId == customerId then Some(users[0])
    else FindUser(users[1..], customerId)
  }

  /** `UserProfile.query.filter_by(google_id=…).first()`. */
  function FindByGoogleId(users: seq<User>, googleId: string): (r: Option<User>)
    ensures r.Some? ==> r.value in users && r.value.googleId == Some(googleId)
    ensures r.None? <==> forall u :: u in users ==> u.googleId != Some(googleId)
  {
    if users == [] then None
    else if users[0].googleId == Some(googleId) then Some(users[0])
    else FindByGoogleId(users[1..], googleId)
  }

  /** The account numbers in use (what `AccountDetails.query.get` finds). */
  function NumbersOf(accounts: seq<Account>): set<string> {
    set a | a in accounts :: a.accountNumber
  }

  /** `AccountDetails.query.filter_by(customer_id=…).all()`, in stored order. */
  function AccountsOf(accounts: seq<Account>, customerId: string): (r: seq<Account>)
    ensures forall a :: a in r <==> a in accounts && a.customerId == customerId
  {
    if accounts == [] then []
    else
      var rest := AccountsOf(accounts[1..], customerId);
      assert accounts == [accounts[0]] + accounts[1..];
      if accounts[0].customerId == customerId then [accounts[0]] + rest else rest
  }

  /** The schema's keys and unique columns, and its foreign keys. */
  predicate Valid(st: Store) {
    && (forall i, j :: 0 <= i < j < |st.users| ==> st.users[i].customerId != st.users[j].customerId)
    && (forall i, j :: 0 <= i < j < |st.users| ==> st.users[i].email != st.users[j].email)
    && (forall i, j :: 0 <= i < j < |st.users| && st.users[i].googleId.Some? ==>
          st.users[i].googleId != st.users[j].googleId)
    && (forall i, j :: 0 <= i < j < |st.accounts| ==>
          st.accounts[i].accountNumber != st.accounts[j].accountNumber)
    && (forall i, j :: 0 <= i < j < |st.transactions| ==>
          st.transactions[i].transactionNumber != st.transactions[j].transactionNumber)
    && (forall a :: a in st.accounts ==> FindUser(st.users, a.customerId).Some?)
    && (forall t :: t in st.transactions ==> t.accountNumber in NumbersOf(st.accounts))
  }

  // ---------------------------------------------------------------- login_required

  /** What the decorator leaves: the session, and a 401 reply when the handler must not run. */
  datatype Gate = Gate(session: Session, denial: Option<Response>)

  /** The session names an existing, active user. */
  predicate SignedIn(st: Store, session: Session) {
    UserIdKey in session && FindUser(st.users, session[UserIdKey]).Some?
      && FindUser(st.users, session[UserIdKey]).value.isActive
  }

  function Authorize(st: Store, session: Session): Gate {
    if UserIdKey !in session then Gate(session, Some(Message(401, AuthRequired)))
    else
      var user := FindUser(st.users, session[UserIdKey]);
      if user.None? || !user.value.isActive then
        Gate(session - {UserIdKey}, Some(Message(401, AuthFailed)))
      else Gate(session, None)
  }

  /**
    The decorator lets the handler run exactly for an existing active user,
    and then with the session unchanged; with no `user_id` it answers 401
    "Authentication required"; for a missing or inactive user it also
    drops `user_id` from the session.
  */
  lemma AuthorizeCases(st: Store, session: Session)
    ensures Authorize(st, session).denial.None? <==> SignedIn(st, session)
    ensures SignedIn(st, session) ==> Authorize(st, session).session == session
    ensures UserIdKey !in session ==>
      Authorize(st, session) == Gate(session, Some(Message(401, AuthRequired)))
    ensures UserIdKey in session && !SignedIn(st, session) ==>
      Authorize(st, session) == Gate(session - {UserIdKey}, Some(Message(401, AuthFailed)))
    ensures Authorize(st, session).denial.Some? ==>
      Authorize(st, session).denial.value.status == 401 && UserIdKey !in Authorize(st, session).session
  {
  }

  // ---------------------------------------------------------------- JSON shapes

  function ProfileJson(u: User): Value {
    Obj(map[
      "customer_id" := Str(u.customerId),
      "full_name" := StrOrNull(u.fullName),
      "address" := StrOrNull(u.address),
      "phone_number" := StrOrNull(u.phoneNumber),
      "email_address" := Str(u.email),
      "is_active" := Bool(u.isActive),
      "created_at" := Str(u.createdAt.iso),
      "updated_at" := Str(u.updatedAt.iso)])
  }

  function TransactionJson(t: Transaction): Value {
    Obj(map[
      "transaction_number" := Str(t.transactionNumber),
      "type" := Str(t.kind.Name()),
      "amount_before" := Num(t.amountBefore),
      "amount_after" := Num(t.amountAfter),
      "timestamp" := Str(t.timestamp.iso),
      "description" := StrOrNull(t.description)])
  }

  function TransactionsJson(ts: seq<Transaction>): (r: seq<Value>)
    ensures |r| == |ts| && forall i :: 0 <= i < |ts| ==> r[i] == TransactionJson(ts[i])
  {
    seq(|ts|, i requires 0 <= i < |ts| => TransactionJson(ts[i]))
  }

  /** One entry of `accounts_data`, given the account's recent transactions. */
  function AccountJson(a: Account, recent: seq<Transaction>): Value {
    Obj(map[
      "account_number" := Str(a.accountNumber),
      "customer_id" := Str(a.customerId),
      "account_balance" := Num(a.balance),
      "created_at" := Str(a.createdAt.iso),
      "updated_at" := Str(a.updatedAt.iso),
      "transactions" := Arr(TransactionsJson(recent))])
  }

  function AccountsJson(accounts: seq<Account>, txs: seq<Transaction>): (r: seq<Value>)
    ensures |r| == |accounts|
    ensures forall i :: 0 <= i < |accounts| ==>
      r[i] == AccountJson(accounts[i], RecentOf(txs, accounts[i].accountNumber))
  {
    seq(|accounts|, i requires 0 <= i < |accounts| =>
      AccountJson(accounts[i], RecentOf(txs, accounts[i].accountNumber)))
  }

  /** The `for account in accounts` loop that builds `accounts_data`. */
  method SerialiseAccounts(accounts: seq<Account>, txs: seq<Transaction>) returns (data: seq<Value>)
    ensures data == AccountsJson(accounts, txs)
  {
    data := [];
    for k := 0 to |accounts|
      invariant |data| == k
      invariant forall i :: 0 <= i < k ==> data[i] == AccountsJson(accounts, txs)[i]
    {
      var recent := RecentOf(txs, accounts[k].accountNumber);
      data := data + [AccountJson(accounts[k], recent)];
    }
    assert |data| == |AccountsJson(accounts, txs)|;
  }

  /**
    Each serialised account lists at most ten transactions, all its own,
    newest first, and none it leaves out is newer than one it lists.
  */
  lemma AccountJsonTransactions(a: Account, txs: seq<Transaction>)
    ensures Get(AccountJson(a, RecentOf(txs, a.accountNumber)), "transactions") == Arr(TransactionsJson(RecentOf(txs, a.accountNumber)))
    ensures |Get(AccountJson(a, RecentOf(txs, a.accountNumber)), "transactions").items| <= Limit
    ensures NewestFirst(RecentOf(txs, a.accountNumber))
    ensures forall t :: t in RecentOf(txs, a.accountNumber) ==> t in txs && t.accountNumber == a.accountNumber
    ensures multiset(RecentOf(txs, a.accountNumber)) <= multiset(OfAccount(txs, a.accountNumber))
    ensures forall t, r ::
      (t in txs && t.accountNumber == a.accountNumber && t !in RecentOf(txs, a.accountNumber)
        && r in RecentOf(txs, a.accountNumber))
        ==> r.timestamp.instant >= t.timestamp.instant
  {
    RecentCorrect(txs, a.accountNumber);
  }

  // ---------------------------------------------------------------- routes behind the gate

  /** A route's new session and its reply. */
  datatype Reply = Reply(session: Session, response: Response)

  /** `POST /auth/logout`. */
  function LogoutRoute(st: Store, session: Session): Reply {
    var g := Authorize(st, session);
    if g.denial.Some? then Reply(g.session, g.denial.value)
    else Reply(g.session - {UserIdKey}, Message(200, "Logout successful"))
  }

  /** `GET /api/profile`. */
  function ProfileRoute(st: Store, session: Session): Reply {
    var g := Authorize(st, session);
    if g.denial.Some? then Reply(g.session, g.denial.value)
    else
      var user := FindUser(st.users, g.session[UserIdKey]);
      if user.None? then Reply(g.session, Message(404, "User not found"))
      else Reply(g.session, Response(200, ProfileJson(user.value)))
  }

  /** `GET /api/account`. */
  function AccountRoute(st: Store, session: Session): Reply {
    var g := Authorize(st, session);
    if g.denial.Some? then Reply(g.session, g.denial.value)
    else
      var mine := AccountsOf(st.accounts, g.session[UserIdKey]);
      if mine == [] then Reply(g.session, Response(200, Arr([])))
      else Reply(g.session, Response(200, Arr(AccountsJson(mine, st.transactions))))
  }

  /** Python's `f"{x}"` of an optional string: `None` prints as "None". */
  function PyText(s: Option<string>): string {
    match s
    case None => "None"
    case Some(t) => t
  }

  /** `GET /`. */
  function IndexRoute(st: Store, session: Session): Response {
    if UserIdKey in session then
      var user := FindUser(st.users, session[UserIdKey]);
      var name := if user.Some? then PyText(user.value.fullName) else "User";
      Response(200, Obj(map["message" := Str("Welcome " + name + "!"), "logged_in" := Bool(true)]))
    else
      Response(200, Obj(map["message" := Str("Welcome! Please log in."), "logged_in" := Bool(false)]))
  }

  /** Logout ends with no `user_id` in the session, and answers 200 exactly for a signed-in user. */
  lemma LogoutClearsSession(st: Store, session: Session)
    ensures UserIdKey !in LogoutRoute(st, session).session
    ensures LogoutRoute(st, session).response.status == 200 <==> SignedIn(st, session)
    ensures SignedIn(st, session) ==> LogoutRoute(st, session).session == session - {UserIdKey}
    ensures Authorize(st, LogoutRoute(st, session).session).denial == Some(Message(401, AuthRequired))
  {
  }

  /**
    Behind the gate the user always exists, so the profile route never
    answers 404: it is 200 with the user's profile, or the gate's 401.
  */
  lemma ProfileNever404(st: Store, session: Session)
    ensures ProfileRoute(st, session).response.status != 404
    ensures ProfileRoute(st, session).response.status == 200 <==> SignedIn(st, session)
    ensures SignedIn(st, session) ==>
      ProfileRoute(st, session) ==
        Reply(session, Response(200, ProfileJson(FindUser(st.users, session[UserIdKey]).value)))
  {
  }

  /**
    The account route answers `[]` for a signed-in user with no accounts,
    and otherwise one serialised entry per account of that user.
  */
  lemma AccountRouteShape(st: Store, session: Session)
    requires SignedIn(st, session)
    ensures AccountRoute(st, session).session == session
    ensures AccountRoute(st, session).response.status == 200
    ensures AccountsOf(st.accounts, session[UserIdKey]) == [] ==>
      AccountRoute(st, session).response.body == Arr([])
    ensures AccountsOf(st.accounts, session[UserIdKey]) != [] ==>
      var body := AccountRoute(st, session).response.body;
      && body.Arr?
      && |body.items| == |AccountsOf(st.accounts, session[UserIdKey])|
      && forall i :: 0 <= i < |body.items| ==>
           var a := AccountsOf(st.accounts, session[UserIdKey])[i];
           body.items[i] == AccountJson(a, RecentOf(st.transactions, a.accountNumber))
  {
  }

  /** `index` reports `logged_in` exactly when `user_id` is in the session. */
  lemma IndexReportsSession(st: Store, session: Session)
    ensures Get(IndexRoute(st, session).body, "logged_in") == Bool(UserIdKey in session)
    ensures IndexRoute(st, session).status == 200
  {
  }

  // ---------------------------------------------------------------- google_signin

  /** The claims of a verified Google ID token that the handler reads. */
  datatype Claims = Claims(sub: Option<string>, email: Option<string>, name: Option<string>)

  /** What `id_token.verify_oauth2_token` did with the token. */
  datatype Verification =
    | Verified(claims: Claims)
    | InvalidToken(reason: string)   // a ValueError
    | VerifierFailed                 // any other exception

  /**
    The decoded request body: not a JSON object (so `data.get` raises), or
    an object and its `token` field.
  */
  datatype SignInBody = NotAnObject | Fields(token: Option<string>)

  datatype SignInResult = SignInResult(store: Store, session: Session, response: Response)

  /** The row a first sign-in inserts. */
  function NewUser(sub: string, email: string, name: Option<string>, customerId: string,
                   now: Timestamp): User {
    User(customerId, Some(sub), email, name, None, None, true, now, now)
  }

  /** The insert violates the primary key or the unique email column. */
  predicate InsertConflicts(users: seq<User>, u: User) {
    exists v :: v in users && (v.customerId == u.customerId || v.email == u.email)
  }

  function LoginSuccess(u: User): Response {
    Response(200, Obj(map[
      "message" := Str("Login successful"),
      "user" := Obj(map[
        "customer_id" := Str(u.customerId),
        "email" := Str(u.email),
        "full_name" := StrOrNull(u.fullName)])]))
  }

  /**
    `POST /auth/google_signin`. `body` is the decoded request body, `v` the
    verifier's verdict on it, `newCustomerId` the key the database would give
    a new user, `draws` the UUIDs `generate_account_number` would draw and
    `now` the insert time.
  */
  function SignIn(st: Store, session: Session, body: SignInBody, v: Verification,
                  newCustomerId: string, draws: seq<Uuid>, now: Timestamp): SignInResult
    requires SomeDrawFree(NumbersOf(st.accounts), draws)
  {
    if body.NotAnObject? then SignInResult(st, session, Message(500, SignInError))
    else if body.token.None? || body.token.value == "" then
      SignInResult(st, session, Message(400, "Missing ID token"))
    else
      match v
      case InvalidToken(e) => SignInResult(st, session, Message(401, "Invalid Google ID token: " + e))
      case VerifierFailed => SignInResult(st, session, Message(500, SignInError))
      case Verified(c) =>
        if c.sub.None? || c.email.None? then SignInResult(st, session, Message(500, SignInError))
        else
          match FindByGoogleId(st.users, c.sub.value)
          case Some(u) =>
            if !u.isActive then SignInResult(st, session, Message(403, "User account is inactive"))
            else SignInResult(st, session[UserIdKey := u.customerId], LoginSuccess(u))
          case None =>
            var u := NewUser(c.sub.value, c.email.value, c.name, newCustomerId, now);
            if InsertConflicts(st.users, u) then SignInResult(st, session, Message(500, SignInError))
            else
              var number := GenerateAccountNumber(draws[FirstFree(NumbersOf(st.accounts), draws)]);
              var account := Account(number, newCustomerId, 0.0, now, now);
              SignInResult(Store(st.users + [u], st.accounts + [account], st.transactions),
                           session[UserIdKey := newCustomerId], LoginSuccess(u))
  }

  /** Every answer but 200 leaves the store and the session as they were. */
  lemma SignInFailureChangesNothing(st: Store, session: Session, body: SignInBody, v: Verification,
                                    id: string, draws: seq<Uuid>, now: Timestamp)
    requires SomeDrawFree(NumbersOf(st.accounts), draws)
    ensures var r := SignIn(st, session, body, v, id, draws, now);
      r.response.status != 200 ==> r.store == st && r.session == session
    ensures var r := SignIn(st, session, body, v, id, draws, now);
      r.response.status in {200, 400, 401, 403, 500}
  {
  }

  /**
    Every refusal is a `{"message": text}` reply with a non-empty text, and
    every acceptance is the success reply for some user.
  */
  lemma SignInReplyShapes(st: Store, session: Session, body: SignInBody, v: Verification,
                          id: string, draws: seq<Uuid>, now: Timestamp)
    requires SomeDrawFree(NumbersOf(st.accounts), draws)
    ensures var r := SignIn(st, session, body, v, id, draws, now).response;
      r.status != 200 ==>
        && Get(r.body, "message").Str? && Get(r.body, "message").s != ""
        && r == Message(r.status, Get(r.body, "message").s)
    ensures var r := SignIn(st, session, body, v, id, draws, now).response;
      r.status == 200 ==>
        exists u :: r == LoginSuccess(u)
  {
    var r := SignIn(st, session, body, v, id, draws, now).response;
    if r.status != 200 {
      if body.Fields? && v.InvalidToken? {
        var text := "Invalid Google ID token: " + v.reason;
        assert text[0] == 'I';
      }
    }
  }

  /** A missing or empty token is answered 400, with nothing changed. */
  lemma SignInMissingToken(st: Store, session: Session, body: SignInBody, v: Verification,
                           id: string, draws: seq<Uuid>, now: Timestamp)
    requires SomeDrawFree(NumbersOf(st.accounts), draws)
    requires body == Fields(None) || body == Fields(Some(""))
    ensures SignIn(st, session, body, v, id, draws, now) ==
      SignInResult(st, session, Message(400, "Missing ID token"))
  {
  }

  /** A known but inactive user is answered 403 and `user_id` is not (re)set. */
  lemma SignInInactiveUser(st: Store, session: Session, token: string, c: Claims,
                           id: string, draws: seq<Uuid>, now: Timestamp)
    requires SomeDrawFree(NumbersOf(st.accounts), draws)
    requires token != "" && c.sub.Some? && c.email.Some?
    requires FindByGoogleId(st.users, c.sub.value).Some? && !FindByGoogleId(st.users, c.sub.value).value.isActive
    ensures SignIn(st, session, Fields(Some(token)), Verified(c), id, draws, now) ==
      SignInResult(st, session, Message(403, "User account is inactive"))
  {
  }

  /**
    A known active user is signed in as it is: the store is unchanged and
    the session names that user.
  */
  lemma SignInReturningUser(st: Store, session: Session, token: string, c: Claims,
                            id: string, draws: seq<Uuid>, now: Timestamp)
    requires SomeDrawFree(NumbersOf(st.accounts), draws)
    requires token != "" && c.sub.Some? && c.email.Some?
    requires FindByGoogleId(st.users, c.sub.value).Some? && FindByGoogleId(st.users, c.sub.value).value.isActive
    ensures var u := FindByGoogleId(st.users, c.sub.value).value;
      SignIn(st, session, Fields(Some(token)), Verified(c), id, draws, now) ==
        SignInResult(st, session[UserIdKey := u.customerId], LoginSuccess(u))
  {
  }

  /**
    A first sign-in adds one active user and one account for it: balance
    0, a number no account had, and the generator's shape; the session
    then names the new user and the reply echoes its id, email and name.
  */
  lemma SignInNewUser(st: Store, session: Session, token: string, c: Claims,
                      id: string, draws: seq<Uuid>, now: Timestamp)
    requires SomeDrawFree(NumbersOf(st.accounts), draws)
    requires token != "" && c.sub.Some? && c.email.Some?
    requires FindByGoogleId(st.users, c.sub.value).None?
    requires !InsertConflicts(st.users, NewUser(c.sub.value, c.email.value, c.name, id, now))
    ensures var r := SignIn(st, session, Fields(Some(token)), Verified(c), id, draws, now);
      && |r.store.users| == |st.users| + 1 && r.store.users[..|st.users|] == st.users
      && |r.store.accounts| == |st.accounts| + 1 && r.store.accounts[..|st.accounts|] == st.accounts
      && r.store.transactions == st.transactions
      && var u := r.store.users[|st.users|];
         var a := r.store.accounts[|st.accounts|];
         && u.customerId == id && u.googleId == c.sub && u.email == c.email.value
         && u.fullName == c.name && u.isActive
         && a.customerId == id && a.balance == 0.0
         && a.accountNumber == GenerateAccountNumber(draws[FirstFree(NumbersOf(st.accounts), draws)])
         && a.accountNumber !in NumbersOf(st.accounts)
         && |a.accountNumber| == 15 && a.accountNumber[..3] == "ACC"
         && r.session == session[UserIdKey := id]
         && r.response.status == 200
         && Get(Get(r.response.body, "user"), "customer_id") == Str(id)
         && Get(Get(r.response.body, "user"), "email") == Str(c.email.value)
         && Get(Get(r.response.body, "user"), "full_name") == StrOrNull(c.name)
  {
    var k := FirstFree(NumbersOf(st.accounts), draws);
    AccountNumberShape(draws[k]);
    var r := SignIn(st, session, Fields(Some(token)), Verified(c), id, draws, now);
    assert r.store.users == st.users + [NewUser(c.sub.value, c.email.value, c.name, id, now)];
  }

  lemma {:induction false} FindUserInValid(users: seq<User>, i: nat)
    requires i < |users|
    requires forall a, b :: 0 <= a < b < |users| ==> users[a].customerId != users[b].customerId
    ensures FindUser(users, users[i].customerId) == Some(users[i])
    decreases i
  {
    if i > 0 {
      assert users[1..][i - 1] == users[i];
      FindUserInValid(users[1..], i - 1);
    }
  }

  lemma {:induction false} FindByGoogleIdIndex(users: seq<User>, g: string) returns (i: nat)
    requires FindByGoogleId(users, g).Some?
    ensures i < |users| && users[i] == FindByGoogleId(users, g).value
    decreases |users|
  {
    if users[0].googleId == Some(g) {
      i := 0;
    } else {
      var j := FindByGoogleIdIndex(users[1..], g);
      i := j + 1;
    }
  }

  lemma FindUserAppend(users: seq<User>, u: User, id: string)
    requires FindUser(users, id).Some?
    ensures FindUser(users + [u], id) == FindUser(users, id)
  {
    if users != [] && users[0].customerId != id {
      assert (users + [u])[1..] == users[1..] + [u];
      FindUserAppend(users[1..], u, id);
    }
  }

  lemma FindUserAppendNew(users: seq<User>, u: User)
    requires forall v :: v in users ==> v.customerId != u.customerId
    ensures FindUser(users + [u], u.customerId) == Some(u)
  {
    if users != [] {
      assert (users + [u])[1..] == users[1..] + [u];
      FindUserAppendNew(users[1..], u);
    }
  }

  /** Sign-in keeps the schema's keys, unique columns and foreign keys. */
  lemma SignInKeepsValid(st: Store, session: Session, body: SignInBody, v: Verification,
                         id: string, draws: seq<Uuid>, now: Timestamp)
    requires SomeDrawFree(NumbersOf(st.accounts), draws)
    requires Valid(st)
    ensures Valid(SignIn(st, session, body, v, id, draws, now).store)
  {
    var r := SignIn(st, session, body, v, id, draws, now);
    if r.store != st {
      var c := v.claims;
      var u := NewUser(c.sub.value, c.email.value, c.name, id, now);
      var k := FirstFree(NumbersOf(st.accounts), draws);
      var a := Account(GenerateAccountNumber(draws[k]), id, 0.0, now, now);
      assert r.store == Store(st.users + [u], st.accounts + [a], st.transactions);
      var us := st.users + [u];
      var accs := st.accounts + [a];
      forall i, j | 0 <= i < j < |us| ensures us[i].customerId != us[j].customerId && us[i].email != us[j].email {
        if j == |st.users| { assert us[i] in st.users; }
      }
      forall i, j | 0 <= i < j < |us| && us[i].googleId.Some? ensures us[i].googleId != us[j].googleId {
        if j == |st.users| { assert us[i] in st.users; }
      }
      forall i, j | 0 <= i < j < |accs| ensures accs[i].accountNumber != accs[j].accountNumber {
        if j == |st.accounts| { assert accs[i] in st.accounts; }
      }
      forall b | b in accs ensures FindUser(us, b.customerId).Some? {
        if b in st.accounts {
          FindUserAppend(st.users, u, b.customerId);
        } else {
          FindUserAppendNew(st.users, u);
        }
      }
      assert NumbersOf(st.accounts) <= NumbersOf(accs);
    }
  }

  /**
    Exactly one account belongs to a newly provisioned user: the one the
    sign-in created.
  */
  lemma SignInNewUserHasOneAccount(st: Store, session: Session, token: string, c: Claims,
                                   id: string, draws: seq<Uuid>, now: Timestamp)
    requires SomeDrawFree(NumbersOf(st.accounts), draws)
    requires Valid(st)
    requires token != "" && c.sub.Some? && c.email.Some?
    requires FindByGoogleId(st.users, c.sub.value).None?
    requires !InsertConflicts(st.users, NewUser(c.sub.value, c.email.value, c.name, id, now))
    ensures var r := SignIn(st, session, Fields(Some(token)), Verified(c), id, draws, now);
      AccountsOf(r.store.accounts, id) == [r.store.accounts[|st.accounts|]]
  {
    var u := NewUser(c.sub.value, c.email.value, c.name, id, now);
    var a := Account(GenerateAccountNumber(draws[FirstFree(NumbersOf(st.accounts), draws)]), id, 0.0, now, now);
    assert SignIn(st, session, Fields(Some(token)), Verified(c), id, draws, now).store.accounts == st.accounts + [a];
    assert FindUser(st.users, id).None? by {
      forall v | v in st.users ensures v.customerId != id {
        assert !(v in st.users && (v.customerId == u.customerId || v.email == u.email));
      }
    }
    NoAccountsOfUnknown(st.accounts, st.users, id);
    AccountsOfAppend(st.accounts, a, id);
  }

  /** With every account owned by a stored user, an unknown id owns no account. */
  lemma NoAccountsOfUnknown(accounts: seq<Account>, users: seq<User>, id: string)
    requires forall a :: a in accounts ==> FindUser(users, a.customerId).Some?
    requires FindUser(users, id).None?
    ensures AccountsOf(accounts, id) == []
  {
  }

  lemma {:induction false} AccountsOfAppend(accounts: seq<Account>, a: Account, id: string)
    ensures AccountsOf(accounts + [a], id) ==
      AccountsOf(accounts, id) + (if a.customerId == id then [a] else [])
    decreases |accounts|
  {
    if accounts == [] {
      assert [a][1..] == [];
    } else {
      assert (accounts + [a])[1..] == accounts[1..] + [a];
      AccountsOfAppend(accounts[1..], a, id);
    }
  }

  /**
    After a 200 sign-in the session names an existing active user whose
    Google id is the token's subject, so the protected routes let it in.
  */
  lemma SignInThenSignedIn(st: Store, session: Session, body: SignInBody, v: Verification,
                           id: string, draws: seq<Uuid>, now: Timestamp)
    requires SomeDrawFree(NumbersOf(st.accounts), draws)
    requires Valid(st)
    ensures var r := SignIn(st, session, body, v, id, draws, now);
      r.response.status == 200 ==>
        && SignedIn(r.store, r.session)
        && FindUser(r.store.users, r.session[UserIdKey]).value.googleId == v.claims.sub
        && Authorize(r.store, r.session) == Gate(r.session, None)
  {
    var r := SignIn(st, session, body, v, id, draws, now);
    if r.response.status == 200 {
      var c := v.claims;
      match FindByGoogleId(st.users, c.sub.value)
      case Some(u) =>
        var i := FindByGoogleIdIndex(st.users, c.sub.value);
        FindUserInValid(st.users, i);
      case None =>
        var u := NewUser(c.sub.value, c.email.value, c.name, id, now);
        FindUserAppendNew(st.users, u);
    }
  }

  // ---------------------------------------------------------------- the server

  /** The database rows and the current client's session, updated by the handlers. */
  class Server {
    var users: seq<User>
    var accounts: seq<Account>
    var transactions: seq<Transaction>
    var session: Session

    function Db(): Store
      reads this
    {
      Store(users, accounts, transactions)
    }

    constructor (st: Store)
      ensures Db() == st && session == map[]
    {
      users, accounts, transactions := st.users, st.accounts, st.transactions;
      session := map[];
    }

    /** The `login_required` wrapper, before the handler runs. */
    method LoginRequired() returns (denial: Option<Response>)
      modifies this`session
      ensures Gate(session, denial) == Authorize(Db(), old(session))
    {
      var g := Authorize(Db(), session);
      session := g.session;
      denial := g.denial;
    }

    method Logout() returns (response: Response)
      modifies this`session
      ensures Reply(session, response) == LogoutRoute(Db(), old(session))
    {
      var denial := LoginRequired();
      if denial.Some? {
        return denial.value;
      }
      session := session - {UserIdKey};
      response := Message(200, "Logout successful");
    }

    method GetProfile() returns (response: Response)
      modifies this`session
      ensures Reply(session, response) == ProfileRoute(Db(), old(session))
    {
      var denial := LoginRequired();
      if denial.Some? {
        return denial.value;
      }
      var user := FindUser(users, session[UserIdKey]);
      if user.None? {
        return Message(404, "User not found");
      }
      response := Response(200, ProfileJson(user.value));
    }

    method GetAccount() returns (response: Response)
      modifies this`session
      ensures Reply(session, response) == AccountRoute(Db(), old(session))
    {
      var denial := LoginRequired();
      if denial.Some? {
        return denial.value;
      }
      var mine := AccountsOf(accounts, session[UserIdKey]);
      if mine == [] {
        return Response(200, Arr([]));
      }
      var data := SerialiseAccounts(mine, transactions);
      response := Response(200, Arr(data));
    }

    method Index() returns (response: Response)
      ensures response == IndexRoute(Db(), session)
      ensures Get(response.body, "logged_in") == Bool(UserIdKey in session)
    {
      response := IndexRoute(Db(), session);
      IndexReportsSession(Db(), session);
    }

    method GoogleSignin(body: SignInBody, v: Verification, newCustomerId: string,
                        draws: seq<Uuid>, now: Timestamp) returns (response: Response)
      requires SomeDrawFree(NumbersOf(accounts), draws)
      modifies this
      ensures SignInResult(Db(), session, response) ==
        SignIn(old(Db()), old(session), body, v, newCustomerId, draws, now)
      ensures Valid(old(Db())) ==> Valid(Db())
    {
      ghost var st := Db();
      if Valid(st) {
        SignInKeepsValid(st, session, body, v, newCustomerId, draws, now);
      }
      if body.NotAnObject? {
        return Message(500, SignInError);   // `data.get` on a non-object raises
      }
      if body.token.None? || body.token.value == "" {
        return Message(400, "Missing ID token");
      }
      match v {
        case InvalidToken(e) =>
          return Message(401, "Invalid Google ID token: " + e);
        case VerifierFailed =>
          return Message(500, SignInError);
        case Verified(c) =>
          if c.sub.None? || c.email.None? {
            return Message(500, SignInError);   // KeyError on a missing claim
          }
          var user: User;
          var found := FindByGoogleId(users, c.sub.value);
          if found.Some? {
            user := found.value;
            if !user.isActive {
              return Message(403, "User account is inactive");
            }
          } else {
            user := NewUser(c.sub.value, c.email.value, c.name, newCustomerId, now);
            if InsertConflicts(users, user) {
              return Message(500, SignInError);   // the commit fails and is rolled back
            }
            users := users + [user];
            var number, _ := FreshAccountNumber(NumbersOf(accounts), draws);
            accounts := accounts + [Account(number, user.customerId, 0.0, now, now)];
          }
          session := session[UserIdKey := user.customerId];
          response := LoginSuccess(user);
      }
    }
  }
}
