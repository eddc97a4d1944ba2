/**
  The thin HTTP wrappers of the frontend (apiService, authService). Each one
  awaits one backend call and either returns the decoded body or throws:
  the backend's error body when there is a truthy one, otherwise an `Error`
  with the wrapper's own fixed message.
*/
module Services {

  import opened Wrappers
  import opened Js

  /** What the transport delivered for one request. */
  datatype Transport =
    | Delivered(data: Value)   // a 2xx response and its decoded body
    | Rejected(body: Value)    // a non-2xx response and its decoded body
    | Unreachable              // no response at all (network failure)

  const ProfileFailure := "Failed to fetch profile"
  const AccountFailure := "Failed to fetch account data"
  const LoginFailure := "Backend login failed"
  const LogoutFailure := "Backend logout failed"

  /**
    One wrapper call: `return response.data`, or
    `throw error.response?.data || new Error(fallback)`.
  */
  function Call(t: Transport, fallback: string): (r: Result<Value, Value>)
    ensures r.Success? <==> t.Delivered?
    ensures r.Success? ==> r.value == t.data
    // a rejection is never null, undefined or another falsy value
    ensures r.Failure? ==> Truthy(r.error)
    ensures r.Failure? ==>
      r.error == (if t.Rejected? && Truthy(t.body) then t.body else ErrorObject(fallback))
  {
    match t
    case Delivered(data) => Success(data)
    case Rejected(body) => Failure(Or(body, ErrorObject(fallback)))
    case Unreachable => Failure(ErrorObject(fallback))
  }

  function GetProfile(t: Transport): Result<Value, Value> { Call(t, ProfileFailure) }
  function GetAccountData(t: Transport): Result<Value, Value> { Call(t, AccountFailure) }
  function LoginWithGoogleToken(t: Transport): Result<Value, Value> { Call(t, LoginFailure) }
  function Logout(t: Transport): Result<Value, Value> { Call(t, LogoutFailure) }

  /**
    A rejection carries a readable `message` whenever the backend did not
    send an error body of its own: the wrapper's fixed text.
  */
  lemma FallbackMessage(t: Transport, fallback: string)
    requires !(t.Rejected? && Truthy(t.body))
    requires !t.Delivered?
    ensures Call(t, fallback).Failure?
    ensures Get(Call(t, fallback).error, "message") == Str(fallback)
  {
  }
}
