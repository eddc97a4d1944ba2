# banking_app — a Dafny model of the session gate, sign-in and dashboard

This project models the stateful core of a small banking web application:

- a React front end: the session store (`AuthContext`), the route gate (`ProtectedRoute` and the app's route table), the Google sign-in page and the dashboard controller;
- a Flask back end: the `login_required` decorator, Google sign-in with provisioning of a user and its first account, logout, the index route, and the profile and account endpoints.

Both halves are modelled and proved in Dafny. The integration module joins them: a backend reply travels through axios and the service wrappers into the page that consumes it.

Modules, in dependency order:

| module | models |
|---|---|
| `Wrappers` | `Option` and `Result` |
| `Js` | JavaScript values: truthiness, `?.`, `||`, `typeof … === 'object'`, `new Error` |
| `Services` | the axios wrappers: resolve with `response.data`, or throw `error.response?.data \|\| new Error(fixed text)` |
| `AuthContext` | the session store: a pure state with its transitions, and the class `AuthStore` with the two state cells |
| `Routing` | `ProtectedRoute` and the route table |
| `Browser` | the browser window: its location, and the alerts shown so far |
| `LoginPage` | `handleGoogleSuccess` and `handleGoogleError` |
| `Dashboard` | the fetch cycle, normalisation of the account reply, render phase, transactions card and logout; the class `DashboardPage` with the five state cells |
| `Models` | backend rows: user profile, account, transaction |
| `AccountNumbers` | `generate_account_number` and the loop that draws until the number is unused |
| `Recent` | the query for the ten newest transactions of an account |
| `Backend` | store, session, `login_required`, every route and sign-in; the class `Server` holding the rows and the session |
| `Integration` | front end and back end together |

Each imperative piece of the source is a class or method, and each one is specified by a pure function of the old state: `AuthStore`, `DashboardPage`, `Server`, the account-number loop and the serialisation loop. The properties are proved about those functions.

The application has no deposit or withdraw route, handler, amount validation or pending-action state, so none is modelled.

## Model

| member | source | states |
|---|---|---|
| `Services.Call` | frontend/src/services/apiService.js:4-15 | A wrapper call resolves exactly when the transport delivered a 2xx response, with its body. A rejection is always truthy: the backend's body when it is truthy, otherwise an `Error` with the wrapper's fixed message. |
| `Services.FallbackMessage` | frontend/src/services/authService.js:15-18 | Without an error body from the backend, the rejection's `message` is the wrapper's fixed text. |
| `Js.Or` | frontend/src/pages/DashboardPage.jsx:54 | `a \|\| b` is truthy iff either operand is, and it is `a` when `a` is truthy. |
| `Js.Get` | frontend/src/pages/DashboardPage.jsx:78 | `v?.key` is not undefined only for an object that has the key, and then it is that property's value. |
| `Js.ErrorObject` | frontend/src/services/apiService.js:13 | `new Error(text)` is truthy and its `message` is the text. |
| `Js.StrOrNull` | backend/app.py:200 | An optional string column serialises to null iff it is `None`, and otherwise to the string. |
| `Browser.Window.Navigate` | frontend/src/pages/LoginPage.jsx:23 | `navigate(path)` sets the location and shows no alert. |
| `Browser.Window.ShowAlert` | frontend/src/pages/LoginPage.jsx:27 | `alert(text)` appends one alert and leaves the location unchanged. |
| `AuthContext.AuthStore.constructor` | frontend/src/contexts/AuthContext.jsx:8-9 | The store starts not logged in, with a null user. |
| `AuthContext.AuthStore.Login` | frontend/src/contexts/AuthContext.jsx:12-17 | `login(u)` sets the flag and stores `u`. The store stays consistent when `u` is present. |
| `AuthContext.AuthStore.Logout` | frontend/src/contexts/AuthContext.jsx:20-26 | `logout()` returns the store to its initial, consistent state. |
| `AuthContext.LoginSetsUser` | frontend/src/contexts/AuthContext.jsx:12-15 | After `login(u)` the store is logged in with user `u`. It is consistent when `u` is not null or undefined. |
| `AuthContext.LastLoginWins` | frontend/src/contexts/AuthContext.jsx:12-15 | A second `login(v)` replaces the user: the last write wins. |
| `AuthContext.LogoutIdempotent` | frontend/src/contexts/AuthContext.jsx:20-23 | `logout()` gives the initial state whatever came before, so a second logout changes nothing. |
| `AuthContext.InitialIsConsistent` | frontend/src/contexts/AuthContext.jsx:8-9 | The initial state is not logged in, has a null user, and is consistent. |
| `AuthContext.RunKeepsConsistent` | frontend/src/contexts/AuthContext.jsx:12-23 | If every `login` argument is present, `user` is present iff `isLoggedIn`, across any sequence of calls. |
| `AuthContext.RunIsLastCall` | frontend/src/contexts/AuthContext.jsx:29-37 | The value the context exposes after a sequence of calls depends only on the last call. |
| `Routing.ProtectedRoute` | frontend/src/components/ProtectedRoute.jsx:5-18 | The gate renders the child outlet iff `isLoggedIn`. Otherwise it is a replacing redirect to `/login`. |
| `Routing.DashboardOnlyWhenLoggedIn` | frontend/src/App.jsx:21-28 | The dashboard renders iff the path is `/dashboard` and the user is logged in. |
| `Routing.PublicPathsShowLogin` | frontend/src/App.jsx:21-22 | `/login` and `/` always render the login page. |
| `Routing.GateReadsOnlyFlag` | frontend/src/components/ProtectedRoute.jsx:6 | Two states with the same `isLoggedIn` get the same decision, whatever their users. |
| `Routing.RedirectDropsRequestedPath` | frontend/src/components/ProtectedRoute.jsx:10-13 | A rejected request for `/dashboard` redirects to `/login`, with no trace of the requested path, and that target then renders the login page. |
| `LoginPage.Decide` | frontend/src/pages/LoginPage.jsx:19-33 | The sign-in outcome is one of four, each in both directions. (1) A reply with a truthy `user` signs in with that user. (2) A reply without one is an invalid response. (3) A call rejected with any value but null or undefined fails with `error.message`, or with 'Could not connect to server.' when that is falsy. (4) A call rejected with null or undefined crashes, because `error.message` throws inside the `catch`. |
| `LoginPage.WrappedSignInNeverCrashes` | frontend/src/pages/LoginPage.jsx:19-32 | Through the auth service the sign-in never crashes: it fails exactly when the transport did not deliver a 2xx response. |
| `LoginPage.SignInKeepsSessionConsistent` | frontend/src/pages/LoginPage.jsx:21-22 | The page only hands `login` a present user, so the store's invariant survives a sign-in. |
| `LoginPage.SignInOpensDashboard` | frontend/src/pages/LoginPage.jsx:21-23 | After a successful sign-in, the route table lets `/dashboard` render. |
| `LoginPage.HandleGoogleSuccess` | frontend/src/pages/LoginPage.jsx:12-35 | On sign-in it logs in and navigates to `/dashboard`, with no alert. On an invalid response or a failure the store and location are unchanged and exactly one alert is added: the invalid-response text, or "Login failed: " with the reason. On a crash nothing changes and no alert is shown. |
| `LoginPage.HandleGoogleError` | frontend/src/pages/LoginPage.jsx:37-40 | A Google-side error adds one fixed alert and changes nothing else. |
| `Dashboard.AwaitBoth` | frontend/src/pages/DashboardPage.jsx:43-46 | `Promise.all` yields both values iff both calls succeed. Otherwise it yields the failing call's rejection, and when both fail, the one that came first. |
| `Dashboard.NormaliseAccount` | frontend/src/pages/DashboardPage.jsx:48-52 | A non-empty array gives its first element. An empty array or an object is kept as it is. Anything else gives null. |
| `Dashboard.ErrorMessage` | frontend/src/pages/DashboardPage.jsx:54 | Nothing is recorded iff the thrown value is null or undefined, because `err.message` throws. Otherwise the recorded error is truthy: the thrown value's `message`, or "Failed to load dashboard data". |
| `Dashboard.PanelBodyOf` | frontend/src/pages/DashboardPage.jsx:143-177 | There is a table iff `transactions` is a non-empty array. It has one row per transaction, in the server's order. |
| `Dashboard.WelcomeName` | frontend/src/pages/DashboardPage.jsx:78 | The greeting is the profile's full name, else the user's email, else 'User'. It is never falsy. |
| `Dashboard.FormatCurrency` | frontend/src/pages/DashboardPage.jsx:17-20 | 'N/A' iff the amount is not a number. Otherwise the amount goes to the locale formatter. |
| `Dashboard.FormatDate` | frontend/src/pages/DashboardPage.jsx:9-16 | 'N/A' iff the date is falsy. Otherwise the date goes to the locale formatter. |
| `Dashboard.BeginFetchResetsFlags` | frontend/src/pages/DashboardPage.jsx:38-41 | A fetch starts loading, with the error cleared and the card hidden. The profile and account cells are not cleared. |
| `Dashboard.NoUserNoFetch` | frontend/src/pages/DashboardPage.jsx:36 | With no user, the outcome of the calls is irrelevant and only `isLoading` becomes false. |
| `Dashboard.EffectEndsLoading` | frontend/src/pages/DashboardPage.jsx:55-57 | Every run of the effect ends with `isLoading` false. |
| `Dashboard.FetchSucceeds` | frontend/src/pages/DashboardPage.jsx:47-52 | A successful cycle stores the profile and the normalised account, clears the error, and reaches the content view with the card hidden. |
| `Dashboard.FetchFails` | frontend/src/pages/DashboardPage.jsx:53-56 | A failed cycle writes neither data cell and always ends loading. A thrown value other than null or undefined records the error message and shows the error view. A thrown null or undefined makes `err.message` throw before `setError`, so the error stays null, the `finally` still runs, and the content view shows the earlier data. |
| `Dashboard.EitherFailureShowsError` | frontend/src/pages/DashboardPage.jsx:43-54 | If either service call fails, both data cells are untouched. The cycle ends in the error view iff the winning rejection is not null or undefined. |
| `Dashboard.WrappedFailureShowsError` | frontend/src/pages/DashboardPage.jsx:43-54 | If either call through the API service fails, the cycle ends in the error view with both data cells untouched. |
| `Dashboard.TransitionsKeepErrorWellFormed` | frontend/src/pages/DashboardPage.jsx:30 | The error cell is always null or truthy: initially and after every transition. |
| `Dashboard.PhaseByNullness` | frontend/src/pages/DashboardPage.jsx:68-75 | The phase is Loading iff `isLoading`. Otherwise it is Error iff the error is not null, and otherwise Content. |
| `Dashboard.PanelControls` | frontend/src/pages/DashboardPage.jsx:116-134 | The toggle flips `showTransactions`, so toggling twice changes nothing. The close button clears it. The card shows iff the page is in the content view and `showTransactions && accountData`. |
| `Dashboard.EmptyAccountListIsShown` | frontend/src/pages/DashboardPage.jsx:101-128 | An empty account list is stored as it is and is truthy. In the content view the transactions card therefore opens for it, with no rows. |
| `Dashboard.ToNumber` | frontend/src/pages/DashboardPage.jsx:159 | The operands of `-` convert as JavaScript converts them: a number to itself, null to 0, a boolean to 0 or 1, and undefined or an object to NaN. |
| `Dashboard.StyleRule` | frontend/src/pages/DashboardPage.jsx:159-168 | A numeric row's change is `amount_after - amount_before`. It is styled positive iff the change is at least 0, and the change is the amount shown. |
| `Dashboard.ConvertedOperands` | frontend/src/pages/DashboardPage.jsx:159-168 | A row whose amounts are both null is a credit of 0. A row without `amount_after` is a debit whose NaN still goes to the currency formatter. |
| `Dashboard.StyleExamples` | frontend/src/pages/DashboardPage.jsx:159-161 | A balance going from 1000 to 1500 is a credit. From 1500 to 1000 it is a debit. |
| `Dashboard.DashboardPage.constructor` | frontend/src/pages/DashboardPage.jsx:27-32 | The page starts loading, with all cells null and the card hidden. |
| `Dashboard.DashboardPage.RunEffect` | frontend/src/pages/DashboardPage.jsx:34-60 | The `[user]` effect brings the five cells to the state the pure transition gives. It always ends not loading, with a well-formed error cell. |
| `Dashboard.DashboardPage.ToggleTransactions` | frontend/src/pages/DashboardPage.jsx:116 | Only `showTransactions` changes, and it flips. |
| `Dashboard.DashboardPage.CloseTransactions` | frontend/src/pages/DashboardPage.jsx:134 | Only `showTransactions` changes, to false, and the card is hidden. |
| `Dashboard.DashboardPage.HandleLogout` | frontend/src/pages/DashboardPage.jsx:62-64 | The backend logout goes through the auth service. Whatever the transport delivered, the store is cleared, the location is `/login`, and no alert is added. |
| `AccountNumbers.Hex` | backend/app.py:79 | The lower-case hex text of a UUID has one digit per nibble. |
| `AccountNumbers.DashesRemoved` | backend/app.py:79 | Removing the dashes from a UUID's 8-4-4-4-12 text gives its 32 hex digits. |
| `AccountNumbers.AccountNumberShape` | backend/app.py:77-79 | The account number is "ACC" followed by the first 12 hex digits of the UUID, upper-cased. It has 15 characters, and characters 3 to 14 are 0-9 or A-F. |
| `AccountNumbers.SameNumberIffSamePrefix` | backend/app.py:79 | Two UUIDs give the same account number iff their first 12 digits agree. |
| `AccountNumbers.FirstFree` | backend/app.py:135-137 | The index of the first draw whose number is unused. Every earlier draw is taken. |
| `AccountNumbers.FreshAccountNumber` | backend/app.py:135-137 | The regeneration loop stops at the first draw whose number is unused. It returns that number, which is not taken. |
| `Recent.OfAccount` | backend/app.py:231 | The filter keeps exactly the transactions of the given account, and no more copies than there were. |
| `Recent.SortCorrect` | backend/app.py:232 | The descending sort by timestamp is ordered newest first and is a permutation of its input. |
| `Recent.RecentCorrect` | backend/app.py:231-233 | At most 10 transactions, all of the account's and each no more often than it is stored, newest first, and exactly `min(10, count)` of them. No omitted transaction of the account is newer than a returned one. |
| `Backend.FindUser` | backend/app.py:67 | `query.get` finds a user with the key iff one exists. |
| `Backend.FindByGoogleId` | backend/app.py:110 | `filter_by(google_id).first()` finds a user with that Google id iff one exists. |
| `Backend.AccountsOf` | backend/app.py:222 | `filter_by(customer_id)` keeps exactly the user's accounts. |
| `Backend.AuthorizeCases` | backend/app.py:61-74 | The handler runs iff the session names an existing active user, and then the session is unchanged. Without `user_id` the reply is 401 "Authentication required". For a missing or inactive user, `user_id` is removed and the reply is 401 "Authentication failed or user inactive". |
| `Backend.TransactionsJson` | backend/app.py:234-241 | One JSON entry per transaction, in order. |
| `Backend.AccountsJson` | backend/app.py:243-250 | One JSON entry per account, in order. |
| `Backend.SerialiseAccounts` | backend/app.py:228-250 | The `for` loop that appends to `accounts_data` builds exactly one entry per account, in order. |
| `Backend.AccountJsonTransactions` | backend/app.py:231-249 | Each serialised account lists at most 10 transactions, all its own and each no more often than it is stored, newest first. None it leaves out is newer than one it lists. |
| `Backend.LogoutClearsSession` | backend/app.py:175-183 | After logout the session never holds `user_id`. The reply is 200 iff the user was signed in, and a following protected request gets "Authentication required". |
| `Backend.ProfileNever404` | backend/app.py:186-209 | Behind the gate the user exists, so the profile route never answers 404. It is 200 with that user's profile iff signed in. |
| `Backend.AccountRouteShape` | backend/app.py:219-252 | Signed in, the reply is 200. It is `[]` when the user has no accounts, otherwise one serialised entry per account of the user. |
| `Backend.IndexReportsSession` | backend/app.py:83-88 | `index` reports `logged_in` iff `user_id` is in the session. |
| `Backend.SignInFailureChangesNothing` | backend/app.py:93-172 | Every sign-in answer other than 200 leaves the store and the session unchanged. Every answer is one of 200, 400, 401, 403 and 500. |
| `Backend.SignInReplyShapes` | backend/app.py:97-172 | Every refusal is a `{"message": text}` reply with a non-empty text. Every acceptance is the success reply for a user. |
| `Backend.SignInMissingToken` | backend/app.py:97-98 | A missing or empty token gives 400 "Missing ID token", with nothing changed. |
| `Backend.SignInInactiveUser` | backend/app.py:113-116 | A known inactive user gives 403, and `user_id` is not set. |
| `Backend.SignInReturningUser` | backend/app.py:113-117 | A known active user leaves the store unchanged. The session names that user and the reply echoes it. |
| `Backend.SignInNewUser` | backend/app.py:118-162 | An unknown Google id appends one active user with the token's claims and one account. The account has balance 0 and the number `GenerateAccountNumber` gives for the first draw that is unused, so the number is unused, has 15 characters and starts with "ACC" (`AccountNumberShape` gives the rest of its shape). The session names the new user, and the reply echoes `customer_id`, `email` and `full_name`. |
| `Backend.SignInNewUserHasOneAccount` | backend/app.py:118-146 | A newly provisioned user owns exactly one account, the one just created. |
| `Backend.SignInKeepsValid` | backend/app.py:118-149 | Sign-in keeps the schema's invariants: the primary keys of users, accounts and transactions, the unique email and Google id columns, and the foreign keys from accounts to users and from transactions to accounts. |
| `Backend.SignInThenSignedIn` | backend/app.py:152 | After a 200 sign-in, the session names an existing active user whose Google id is the token's subject, so the gate lets it through. |
| `Backend.Server.LoginRequired` | backend/app.py:61-74 | The decorator changes only the session, as the gate decides. |
| `Backend.Server.Logout` | backend/app.py:175-183 | The logout handler behind the decorator, as the route function gives it. |
| `Backend.Server.GetProfile` | backend/app.py:186-209 | The profile handler behind the decorator, including its 404 branch. |
| `Backend.Server.GetAccount` | backend/app.py:215-252 | The account handler behind the decorator, with the serialisation loop. |
| `Backend.Server.Index` | backend/app.py:83-88 | The index reply, with `logged_in` true iff `user_id` is in the session. |
| `Backend.Server.GoogleSignin` | backend/app.py:91-172 | Sign-in updates the rows and the session as the sign-in function gives them, calling the regeneration loop for the account number. It keeps the schema invariants. |
| `Integration.Transmit` | frontend/src/axiosInstance.js:6-9 | axios resolves a 2xx response with its body and rejects any other status with the decoded body. |
| `Integration.RefusedSignInReachesPage` | frontend/src/pages/LoginPage.jsx:29-33 | A sign-in the backend refuses reaches the page as a failure carrying the backend's own message, not the wrapper's fallback. |
| `Integration.AcceptedSignInOpensDashboard` | frontend/src/pages/LoginPage.jsx:19-23 | An accepted sign-in signs the client in with the backend's user object, keeps the store consistent, and opens `/dashboard`. |
| `Integration.AccountReachesDashboard` | frontend/src/pages/DashboardPage.jsx:47-52 | For a signed-in user, the dashboard keeps `[]` when there are no accounts, with nothing to list. Otherwise it keeps the first account's JSON. |
| `Integration.PanelOfAccount` | frontend/src/pages/DashboardPage.jsx:143-168 | A served account's card has one row per recent transaction, in the server's order. Each row is keyed by its transaction number and is positive iff the balance did not go down. |
| `Integration.SignedInDashboardLoads` | frontend/src/pages/DashboardPage.jsx:42-57 | For a signed-in user, the fetch cycle reaches the content view with the card hidden, holding the user's profile. |
| `Integration.LostSessionShowsError` | frontend/src/pages/DashboardPage.jsx:53-73 | A session the backend no longer accepts makes the dashboard show the backend's 401 text. |

## Left out

- I/O is a parameter or is not modelled: the network, the browser, `console.log`, Flask's `print`, and the database's own storage. The service replies, the Google verifier's verdict, the UUID stream, the new customer id and the clock are inputs.
- Google token verification is a foreign library. Its outcome is an input: verified claims, a `ValueError` (401 with the error's text), or any other exception (500).
- Flask, SQLAlchemy and CORS configuration, cookie attributes, environment checks, `exit()` and the database and enumeration initialisation are deployment plumbing.
- The generic `except Exception` path of the profile and account routes (500) is not modelled. In the model, reading the in-memory store cannot fail.
- Backend.SignIn: a failure of the second commit, after the user row was committed, is not modelled. The model treats that commit as always succeeding, so the user row is never left without its account.
- Backend.SignIn: a `token` field that is not a string is not modelled. The body is either not an object (500) or an object whose token is absent or a string.
- Backend.SignIn: a new user's `created_at` and `updated_at` come from one `now` input. The database would take two `utcnow()` readings.
- `isoformat()` is not modelled: a timestamp carries its instant and its ISO text together. Timestamps are never null, because the schema declares them not nullable.
- `float(...)` and `Numeric(19,4)` are modelled as exact reals, with no rounding.
- Recent.RecentOf: the order of transactions with equal timestamps is the model's own choice (stable). SQL leaves it unspecified, so the contract for ties is weaker than any particular database's behaviour.
- Backend.AccountsOf: the accounts are in stored order, the model's own choice. `filter_by(customer_id=…).all()` has no ORDER BY, so which account the dashboard keeps as the first one is up to the database.
- AccountNumbers.FreshAccountNumber: requires that some draw of the UUID stream yields an unused number. With an exhausted stream the source would loop for ever.
- Backend.SignIn: requires the same of its UUID stream on every sign-in, including the paths that draw none (missing or invalid token, known user); so does Backend.Server.GoogleSignin.
- `toLocaleString` in `formatDate` and `formatCurrency` is a locale library. Only the 'N/A' guards are modelled, plus the value handed to the formatter.
- In the alert text, the template literal's conversion of a non-string `error.message` is not modelled. The alert carries the prefix and the value.
- Dashboard.ToNumber: only number, null, boolean, undefined and plain-object operands of `-` are converted as JavaScript does. Strings and arrays are taken as NaN, though JavaScript converts a numeric string (or an array holding one) to that number. The backend always sends numbers here.
- Dashboard.RowOf: plain `t.amount_after` on a null or undefined row throws while rendering in the source. The model reads such a row as having no fields, because the backend never sends a null row.
- Dashboard.PanelBodyOf: only an array `transactions` is treated as a list. A non-empty string in that field would make the source's `.map` throw, and that case is not modelled.
- The JSX markup is presentation: the profile and account card fields with their 'N/A'/'N/P' fallbacks, the "Last Updated" condition, the headers and footers, and the CSS classes.
- React scheduling, StrictMode's double effects and re-render timing are not modelled. `Promise.all` is two results combined in sequence. When both calls fail, a boolean input says which rejection came first.
- The `useAuth` outside-provider throw can never fire: the context's default is `null` and the guard tests `undefined`. It is not modelled.
- Routing: react-router's case-insensitive and trailing-slash matching is not modelled. Paths are compared exactly.
