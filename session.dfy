/** The session held by a `Hive` client: the access-token header of the HTTP client's
    default headers (`registerSession` / `unregisterSession`) and the user of the last
    login, driven by `login` and `logout`. */
module Session {
  import opened Js
  import opened Errors
  import opened Requests

  /** The header that carries the session token. */
  const AccessToken: string := "X-Omnia-Access-Token"

  const MediaType: string := "application/vnd.alertme.zoo-6.5+json"

  /** The client's default headers as the client is created. */
  function InitialHeaders(client: Json): (r: map<string, Json>)
    ensures AccessToken !in r
    ensures r.Keys == {"Content-Type", "Accept", "X-Omnia-Client"}
  {
    map["Content-Type" := Str(MediaType), "Accept" := Str(MediaType), "X-Omnia-Client" := client]
  }

  /** The body `login(username, password)` posts. */
  function Credentials(username: Json, password: Json): (r: Json)
    ensures Elem(Field(r, "sessions"), 0) == Obj(map["username" := username, "password" := password])
    ensures Field(r, "sessions") == Arr([Elem(Field(r, "sessions"), 0)])
  {
    Obj(map["sessions" := Arr([Obj(map["username" := username, "password" := password])])])
  }

  /** `response.data.sessions[0]`, which throws when the body has no session list. */
  function SessionOf(response: Json): (r: Result<Json, Thrown>)
    ensures r.Err? <==> Nullish(response) || Nullish(Field(response, "data"))
                        || Nullish(Field(Field(response, "data"), "sessions"))
    ensures r.Ok? ==> r.value == Elem(Field(Field(response, "data"), "sessions"), 0)
  {
    var data :- Read(response, "data");
    var sessions :- Read(data, "sessions");
    ReadAt(sessions, 0)
  }

  /** `logout`'s status validator: Unauthorized and the like count as logged out. */
  predicate LogoutAccepts(status: Json) {
    status == Num(200.0) || status == Num(400.0) || status == Num(401.0) || status == Num(403.0)
  }

  /** A client: its default request headers and the user of the last successful login
      (`undefined` before any). */
  class Hive {
    var headers: map<string, Json>
    var user: Json

    /** A new client whose `X-Omnia-Client` header is `client`. */
    constructor (client: Json)
      ensures headers == InitialHeaders(client) && user == Undefined
    {
      headers := InitialHeaders(client);
      user := Undefined;
    }

    /** The client sends a session token. */
    predicate LoggedIn()
      reads this
    {
      AccessToken in headers
    }

    /** `registerSession(user)`: reading `user.sessionId` throws on a null or undefined
        user, and then no header changes. */
    method RegisterSession(session: Json) returns (r: Result<(), Thrown>)
      modifies this
      ensures r.Err? <==> Nullish(session)
      ensures r.Ok? ==> headers == old(headers)[AccessToken := Field(session, "sessionId")]
      ensures r.Err? ==> headers == old(headers)
      ensures user == old(user)
    {
      if Nullish(session) {
        return Err(TypeError);
      }
      headers := headers[AccessToken := Field(session, "sessionId")];
      r := Ok(());
    }

    /** `unregisterSession()`. */
    method UnregisterSession()
      modifies this
      ensures headers == old(headers) - {AccessToken}
      ensures user == old(user)
    {
      headers := headers - {AccessToken};
    }

    /** `login(username, password, options)`: drops any session token, posts the
        credentials and, when the server returns a session, registers its token and
        remembers the session as the user. A failed login leaves no token behind.
        `sent` is the default headers the POST goes out with. */
    method Login(username: Json, password: Json, options: Json, reply: Delivery)
      returns (settings: map<string, Json>, sent: map<string, Json>, r: Result<Json, Failure>)
      modifies this
      ensures settings == RequestSettings("POST", Credentials(username, password))
      ensures sent == old(headers) - {AccessToken}
      ensures LoggedIn() <==> r.Ok?
      ensures var o := Outcome(reply, DefaultAccepts);
              && (o.Err? ==> r == Err(Rejected(o.error)))
              && (o.Ok? && !(SessionOf(o.value).Ok? && !Nullish(SessionOf(o.value).value)) ==>
                    r == Err(Crashed(TypeError)))
              && (r.Ok? <==> o.Ok? && SessionOf(o.value).Ok? && !Nullish(SessionOf(o.value).value))
              && (r.Ok? ==>
                    var session := SessionOf(o.value).value;
                    && headers == old(headers)[AccessToken := Field(session, "sessionId")]
                    && user == session
                    && r.value == NormalizeResponse(session, o.value, options))
      ensures r.Err? ==> headers == old(headers) - {AccessToken} && user == old(user)
    {
      var data := Credentials(username, password);
      UnregisterSession();
      sent := headers;
      var outcome;
      settings, outcome := Request("POST", data, None, DefaultAccepts, reply);
      if outcome.Err? {
        return settings, sent, Err(Rejected(outcome.error));
      }
      var response := outcome.value;
      var session := SessionOf(response);
      if session.Err? {
        return settings, sent, Err(Crashed(session.error));
      }
      var registered := RegisterSession(session.value);
      if registered.Err? {
        return settings, sent, Err(Crashed(TypeError));
      }
      user := session.value;
      r := Ok(NormalizeResponse(session.value, response, options));
    }

    /** `logout()`: sends the DELETE, treating 200, 400, 401 and 403 as success, and
        drops the session token whatever the outcome, once the call has settled. The
        remembered user stays. `sent` is the default headers the DELETE goes out with. */
    method Logout(reply: Delivery)
      returns (settings: map<string, Json>, sent: map<string, Json>, r: Result<(), HiveError>)
      modifies this
      ensures settings == RequestSettings("DELETE", Null)
      ensures sent == old(headers)
      ensures !LoggedIn()
      ensures headers == old(headers) - {AccessToken}
      ensures user == old(user)
      ensures r.Ok? <==> reply.Answered? && LogoutAccepts(Field(reply.response, "status"))
      ensures r.Err? ==> Err(r.error) == Outcome(reply, LogoutAccepts)
    {
      sent := headers;
      var outcome;
      settings, outcome := Request("DELETE", Null, None, LogoutAccepts, reply);
      UnregisterSession();
      if outcome.Err? {
        return settings, sent, Err(outcome.error);
      }
      r := Ok(());
    }
  }

  /** A logout answered with 401 (the token had already expired) still counts as a
      success, and a 500 does not. */
  lemma LogoutStatuses(response: Json, reason: Json)
    ensures Field(response, "status") == Num(401.0) ==> Outcome(Answered(response, reason), LogoutAccepts).Ok?
    ensures Field(response, "status") == Num(500.0) ==> Outcome(Answered(response, reason), LogoutAccepts).Err?
    ensures Field(response, "status") == Num(204.0) ==> Outcome(Answered(response, reason), LogoutAccepts).Err?
    ensures Field(response, "status") == Num(204.0) ==> Outcome(Answered(response, reason), DefaultAccepts).Ok?
  {
  }
}
