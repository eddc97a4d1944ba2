/**
  The frontend session store (AuthProvider): two state cells, `isLoggedIn`
  and `user`, overwritten by `login(userData)` and `logout()`. The pure part
  gives the store's value and its transitions; the class AuthStore holds
  the two cells and is specified by them.
*/
module AuthContext {

  import opened Js

  /** The state the provider exposes: the current `isLoggedIn` and `user`. */
  datatype AuthState = AuthState(isLoggedIn: bool, user: Value)

  /** `useState(false)` and `useState(null)`. */
  const Initial := AuthState(false, Null)

  function AfterLogin(s: AuthState, userData: Value): AuthState {
    AuthState(true, userData)
  }

  function AfterLogout(s: AuthState): AuthState {
    AuthState(false, Null)
  }

  /** One call made on the store. */
  datatype AuthCall = CallLogin(userData: Value) | CallLogout

  function Step(s: AuthState, c: AuthCall): AuthState {
    match c
    case CallLogin(u) => AfterLogin(s, u)
    case CallLogout => AfterLogout(s)
  }

  /** The state after a sequence of calls, first call first. */
  function Run(s: AuthState, calls: seq<AuthCall>): AuthState
    decreases |calls|
  {
    if calls == [] then s else Run(Step(s, calls[0]), calls[1..])
  }

  /** The session invariant: a user is present exactly when logged in. */
  predicate Consistent(s: AuthState) {
    s.isLoggedIn <==> !Nullish(s.user)
  }

  /** Every `login` in the sequence is given a non-null user. */
  predicate PresentArguments(calls: seq<AuthCall>) {
    forall i :: 0 <= i < |calls| && calls[i].CallLogin? ==> !Nullish(calls[i].userData)
  }

  lemma LoginSetsUser(s: AuthState, u: Value)
    ensures AfterLogin(s, u).isLoggedIn && AfterLogin(s, u).user == u
    ensures !Nullish(u) ==> Consistent(AfterLogin(s, u))
  {
  }

  /** The second of two logins decides the user: last write wins. */
  lemma LastLoginWins(s: AuthState, u: Value, v: Value)
    ensures AfterLogin(AfterLogin(s, u), v) == AfterLogin(s, v)
    ensures AfterLogin(AfterLogin(s, u), v).user == v
  {
  }

  /** Logging out clears both cells; logging out again changes nothing. */
  lemma LogoutIdempotent(s: AuthState)
    ensures AfterLogout(s) == Initial
    ensures AfterLogout(AfterLogout(s)) == AfterLogout(s)
    ensures Consistent(AfterLogout(s))
  {
  }

  lemma InitialIsConsistent()
    ensures Consistent(Initial) && !Initial.isLoggedIn && Initial.user == Null
  {
  }

  /**
    Across any sequence of login/logout calls whose logins all receive a
    present user, `user` is non-null exactly when `isLoggedIn` holds.
  */
  lemma {:induction false} RunKeepsConsistent(s: AuthState, calls: seq<AuthCall>)
    requires Consistent(s)
    requires PresentArguments(calls)
    ensures Consistent(Run(s, calls))
    decreases |calls|
  {
    if calls != [] {
      assert calls[0].CallLogin? ==> !Nullish(calls[0].userData);
      var next := Step(s, calls[0]);
      assert PresentArguments(calls[1..]) by {
        forall i | 0 <= i < |calls[1..]| && calls[1..][i].CallLogin?
          ensures !Nullish(calls[1..][i].userData)
        {
          assert calls[1..][i] == calls[i + 1];
        }
      }
      RunKeepsConsistent(next, calls[1..]);
    }
  }

  /**
    The state after a non-empty sequence of calls depends only on the last
    call: logged in with the last login's user, or logged out.
  */
  lemma {:induction false} RunIsLastCall(s: AuthState, calls: seq<AuthCall>)
    requires calls != []
    ensures Run(s, calls) == Step(s, calls[|calls| - 1])
    decreases |calls|
  {
    if |calls| > 1 {
      RunIsLastCall(Step(s, calls[0]), calls[1..]);
      assert calls[1..][|calls[1..]| - 1] == calls[|calls| - 1];
    }
  }

  /** The provider's two state cells, updated in place by `login` and `logout`. */
  class AuthStore {
    var isLoggedIn: bool
    var user: Value

    /** The memoised context value (its data part; `login`/`logout` are the methods below). */
    function Context(): AuthState
      reads this
    {
      AuthState(isLoggedIn, user)
    }

    constructor ()
      ensures Context() == Initial
    {
      isLoggedIn := false;
      user := Null;
    }

    /** `login(userData)`: `setIsLoggedIn(true)`, then `setUser(userData)`. */
    method Login(userData: Value)
      modifies this
      ensures Context() == AfterLogin(old(Context()), userData)
      ensures Consistent(old(Context())) && !Nullish(userData) ==> Consistent(Context())
    {
      isLoggedIn := true;
      user := userData;
    }

    /** `logout()`: `setIsLoggedIn(false)`, then `setUser(null)`. */
    method Logout()
      modifies this
      ensures Context() == AfterLogout(old(Context()))
      ensures Context() == Initial && Consistent(Context())
    {
      isLoggedIn := false;
      user := Null;
    }
  }
}
