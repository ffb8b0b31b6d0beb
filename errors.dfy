/** The error normalizer (`normalizeError` with its inner `getError`): every failure of a
    remote call becomes one error carrying a code from a closed table, a message, the
    original failure and the server's own error list when it sent one. */
module Errors {
  import opened Js

  /** The failure record the HTTP client rejects with: `response` when the server
      answered, `request` when a request went out, and the client's own `code` and
      `message`. Absent parts are `Undefined`. */
  datatype ErrorIn = ErrorIn(response: Json, request: Json, code: Json, message: Json)

  /** The message table `Hive.ACCOUNT_LOCKED` ... `Hive.UNKNOWN_ERROR`. */
  const Messages: map<string, string> := map[
    "ACCOUNT_LOCKED" := "Account locked",
    "NOT_PERMITTED" := "Not permitted",
    "INVALID_LOGIN" := "Invalid login",
    "METHOD_NOT_ALLOWED" := "Method not allowed",
    "NETWORK_ERROR" := "Network error",
    "NOT_AUTHENTICATED" := "Not authenticated",
    "REQUEST_NOT_SENT" := "Request not sent",
    "TIMEOUT" := "Timeout",
    "UNKNOWN_ERROR" := "Unknown error"
  ]

  /** The error `normalizeError` throws: `code` and `message` as set on the new `Error`
      (`message` is the value handed to `Error(...)`), `cause` is the original failure
      (`newError.error`) and `errors` the server's error list or `Null`. */
  datatype HiveError = HiveError(code: string, message: Json, cause: ErrorIn, errors: Json)

  /** `Hive[code]` is a message of the table. */
  predicate Known(code: Json) {
    code.Str? && code.s in Messages
  }

  /** `error.response && error.response.data && error.response.data.errors`, or `null`
      when that is falsy. */
  function RemoteErrors(error: ErrorIn): (r: Json)
    ensures r != Null ==> Truthy(r)
    ensures !Truthy(error.response) || !Truthy(Field(error.response, "data"))
            || !Truthy(Field(Field(error.response, "data"), "errors"))
            ==> r == Null
    ensures Truthy(error.response) && Truthy(Field(error.response, "data"))
            && Truthy(Field(Field(error.response, "data"), "errors"))
            <==> r == Field(Field(error.response, "data"), "errors") && r != Null
  {
    if Truthy(error.response) && Truthy(Field(error.response, "data"))
       && Truthy(Field(Field(error.response, "data"), "errors"))
    then Field(Field(error.response, "data"), "errors")
    else Null
  }

  /** `getError(code)`: a code of the table keeps its message; any other value becomes
      the message of an `UNKNOWN_ERROR`. */
  function GetError(error: ErrorIn, code: Json): (r: HiveError)
    ensures r.code in Messages
    ensures Known(code) ==> r.code == code.s && r.message == Str(Messages[code.s])
    ensures !Known(code) ==> r.code == "UNKNOWN_ERROR" && r.message == code
    ensures r.cause == error && r.errors == RemoteErrors(error)
  {
    if Known(code) then HiveError(code.s, Str(Messages[code.s]), error, RemoteErrors(error))
    else HiveError("UNKNOWN_ERROR", code, error, RemoteErrors(error))
  }

  /** `error.response.data.errors[0].code`, which throws when the body has no error list. */
  function RemoteCode(error: ErrorIn): (r: Result<Json, Thrown>)
    ensures r.Err? <==> Nullish(error.response) || Nullish(Field(error.response, "data"))
                        || Nullish(Field(Field(error.response, "data"), "errors"))
                        || Nullish(Elem(Field(Field(error.response, "data"), "errors"), 0))
    ensures r.Ok? ==> r.value == Field(Elem(Field(Field(error.response, "data"), "errors"), 0), "code")
  {
    var data :- Read(error.response, "data");
    var errors :- Read(data, "errors");
    var first :- ReadAt(errors, 0);
    Read(first, "code")
  }

  /** The code used when nothing better is known: the client's message, or `UNKNOWN_ERROR`. */
  function Fallback(error: ErrorIn): Json {
    if Truthy(error.message) then error.message else Str("UNKNOWN_ERROR")
  }

  /** `normalizeError(error)`: the error it throws. The `try`/`catch` around the
      classification becomes the `Err` case of `RemoteCode`. */
  function NormalizeError(error: ErrorIn): (r: HiveError)
    // The codes form a closed set, and only UNKNOWN_ERROR carries a message of its own.
    ensures r.code in Messages
    ensures r.code != "UNKNOWN_ERROR" ==> r.message == Str(Messages[r.code])
    ensures r.cause == error && r.errors == RemoteErrors(error)
    // A response was received.
    ensures Truthy(error.response) && Field(error.response, "status") == Num(401.0) ==>
              r.code == "NOT_AUTHENTICATED" && r.message == Str("Not authenticated")
    ensures Truthy(error.response) && Field(error.response, "status") == Num(405.0) ==>
              r.code == "METHOD_NOT_ALLOWED" && r.message == Str("Method not allowed")
    ensures Truthy(error.response) && Field(error.response, "status") !in {Num(401.0), Num(405.0)} ==>
              match RemoteCode(error)
              case Ok(c) =>
                if c == Str("USERNAME_PASSWORD_ERROR") then r.code == "INVALID_LOGIN" && r.message == Str("Invalid login")
                else if c == Str("ACCOUNT_LOCKED") then r.code == "ACCOUNT_LOCKED" && r.message == Str("Account locked")
                else if Known(c) then r.code == c.s && r.message == Str(Messages[c.s])
                else r.code == "UNKNOWN_ERROR" && r.message == c
              case Err(_) => r == GetError(error, Fallback(error))
    // A request went out but no response came back.
    ensures !Truthy(error.response) && Truthy(error.request) && error.code == Str("ECONNABORTED") ==>
              r.code == "TIMEOUT" && r.message == Str("Timeout")
    ensures !Truthy(error.response) && Truthy(error.request) && error.code != Str("ECONNABORTED")
            && error.message == Str("Network Error") ==>
              r.code == "NETWORK_ERROR" && r.message == Str("Network error")
    ensures !Truthy(error.response) && Truthy(error.request) && error.code != Str("ECONNABORTED")
            && error.message != Str("Network Error") ==>
              r == GetError(error, Fallback(error))
    // No request was sent.
    ensures !Truthy(error.response) && !Truthy(error.request) ==>
              r.code == "REQUEST_NOT_SENT" && r.message == Str("Request not sent")
  {
    if Truthy(error.response) then
      var status := Field(error.response, "status");
      if status == Num(401.0) then GetError(error, Str("NOT_AUTHENTICATED"))
      else if status == Num(405.0) then GetError(error, Str("METHOD_NOT_ALLOWED"))
      else
        match RemoteCode(error)
        case Err(_) => GetError(error, Fallback(error))
        case Ok(code) =>
          if code == Str("USERNAME_PASSWORD_ERROR") then GetError(error, Str("INVALID_LOGIN"))
          else if code == Str("ACCOUNT_LOCKED") then GetError(error, Str("ACCOUNT_LOCKED"))
          else GetError(error, code)
    else if Truthy(error.request) then
      if error.code == Str("ECONNABORTED") then GetError(error, Str("TIMEOUT"))
      else if error.message == Str("Network Error") then GetError(error, Str("NETWORK_ERROR"))
      else GetError(error, Fallback(error))
    else GetError(error, Str("REQUEST_NOT_SENT"))
  }

  /** A response whose body carries no usable error list (no `data`, no `errors`, or an
      empty list) is classified from the client's message instead of failing: the result
      is the message's own code when the table knows it, and UNKNOWN_ERROR otherwise. */
  lemma MalformedBodyIsDowngraded(error: ErrorIn)
    requires Truthy(error.response)
    requires Field(error.response, "status") !in {Num(401.0), Num(405.0)}
    requires var data := Field(error.response, "data");
             Nullish(data) || Nullish(Field(data, "errors")) || Field(data, "errors") == Arr([])
    ensures NormalizeError(error).code == if Known(Fallback(error)) then Fallback(error).s else "UNKNOWN_ERROR"
    ensures !Known(Fallback(error)) ==> NormalizeError(error).message == Fallback(error)
  {
    assert RemoteCode(error).Err?;
  }

  /** A code from the server that the table does not know is never passed through: the
      result is UNKNOWN_ERROR whose message is the server's code. */
  lemma UnknownRemoteCode(error: ErrorIn, c: Json)
    requires Truthy(error.response)
    requires Field(error.response, "status") !in {Num(401.0), Num(405.0)}
    requires RemoteCode(error) == Ok(c)
    requires c != Str("USERNAME_PASSWORD_ERROR") && !Known(c)
    ensures NormalizeError(error).code == "UNKNOWN_ERROR"
    ensures NormalizeError(error).message == c
  {
  }

  /** The server's error list is exposed exactly when the response body holds one. */
  lemma ErrorsExposed(error: ErrorIn)
    ensures var r := NormalizeError(error);
            r.errors != Null <==> (Truthy(error.response) && Truthy(Field(error.response, "data"))
                                   && Truthy(Field(Field(error.response, "data"), "errors")))
  {
  }
}
