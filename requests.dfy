/** Building and settling a request: `Hive.extend`, the settings `request` builds, the
    parameters of `getNode` and `getEvents`, `normalizeResponse`, and the outcome of a
    remote call, which the HTTP client decides with its status validator. */
module Requests {
  import opened Js
  import opened Errors

  /** What the server side of a call produced: a response (with the message the client
      gives a rejected status), or a failure record without an accepted response. */
  datatype Delivery = Answered(response: Json, reason: Json) | Unanswered(error: ErrorIn)

  /** Why an operation built on a request failed: the normalized error of a rejected
      call, or a TypeError raised while reading the response. */
  datatype Failure = Rejected(error: HiveError) | Crashed(thrown: Thrown)

  /** The client's default status validator: 2xx is a success. */
  predicate DefaultAccepts(status: Json) {
    status.Num? && 200.0 <= status.n < 300.0
  }

  /** The result of `client.request(...).catch(normalizeError)`. A rejected status
      becomes a failure record carrying the response and the request that went out. */
  function Outcome(reply: Delivery, accepts: Json -> bool): (r: Result<Json, HiveError>)
    ensures r.Ok? <==> reply.Answered? && accepts(Field(reply.response, "status"))
    ensures r.Ok? ==> r.value == reply.response
    ensures reply.Unanswered? ==> r == Err(NormalizeError(reply.error))
    ensures reply.Answered? && !r.Ok? ==>
              r == Err(NormalizeError(ErrorIn(reply.response, Obj(map[]), Undefined, reply.reason)))
  {
    match reply
    case Answered(response, reason) =>
      if accepts(Field(response, "status")) then Ok(response)
      else Err(NormalizeError(ErrorIn(response, Obj(map[]), Undefined, reason)))
    case Unanswered(error) => Err(NormalizeError(error))
  }

  /** A rejected status is classified from the response: 401 and 405 by status, any
      other status by the remote code. The codes of a call without a response appear
      only when the server's code or the client's message names them. */
  lemma RejectedStatusIsClassified(response: Json, reason: Json, accepts: Json -> bool)
    requires Truthy(response) && !accepts(Field(response, "status"))
    ensures Outcome(Answered(response, reason), accepts).Err?
    ensures Field(response, "status") == Num(401.0) ==>
              Outcome(Answered(response, reason), accepts).error.code == "NOT_AUTHENTICATED"
    ensures Field(response, "status") == Num(405.0) ==>
              Outcome(Answered(response, reason), accepts).error.code == "METHOD_NOT_ALLOWED"
    ensures var error := ErrorIn(response, Obj(map[]), Undefined, reason);
            var code := Outcome(Answered(response, reason), accepts).error.code;
            code in {"TIMEOUT", "NETWORK_ERROR", "REQUEST_NOT_SENT"} ==>
              RemoteCode(error) == Ok(Str(code)) || (RemoteCode(error).Err? && Fallback(error) == Str(code))
  {
    var error := ErrorIn(response, Obj(map[]), Undefined, reason);
    var e := NormalizeError(error);
    if Field(response, "status") !in {Num(401.0), Num(405.0)} {
      match RemoteCode(error)
      case Ok(c) =>
        if c != Str("USERNAME_PASSWORD_ERROR") && c != Str("ACCOUNT_LOCKED") {
          assert e == GetError(error, c);
        }
      case Err(_) =>
        assert e == GetError(error, Fallback(error));
    }
  }

  /** The properties `Hive.extend(target, ...sources)` leaves on `target`: later
      sources overwrite earlier ones; a null or undefined source is `None`. */
  function Merged(target: map<string, Json>, sources: seq<Option<map<string, Json>>>): map<string, Json>
    decreases |sources|
  {
    if sources == [] then target
    else
      var init := Merged(target, sources[..|sources| - 1]);
      match sources[|sources| - 1]
      case None => init
      case Some(options) => init + options
  }

  /** A key ends up on the target exactly when the target or some source has it. */
  lemma {:induction false} MergedKeys(target: map<string, Json>, sources: seq<Option<map<string, Json>>>, k: string)
    ensures k in Merged(target, sources) <==>
              k in target || exists i :: 0 <= i < |sources| && sources[i].Some? && k in sources[i].value
    decreases |sources|
  {
    if sources != [] {
      var n := |sources|;
      var init := sources[..n - 1];
      MergedKeys(target, init, k);
      if exists i :: 0 <= i < n && sources[i].Some? && k in sources[i].value {
        var i :| 0 <= i < n && sources[i].Some? && k in sources[i].value;
        if i < n - 1 {
          assert init[i] == sources[i];
        }
      }
      if exists i :: 0 <= i < n - 1 && init[i].Some? && k in init[i].value {
        var i :| 0 <= i < n - 1 && init[i].Some? && k in init[i].value;
        assert sources[i] == init[i];
      }
    }
  }

  /** The last source holding a key decides its value. */
  lemma {:induction false} MergedLastWins(target: map<string, Json>, sources: seq<Option<map<string, Json>>>, k: string, i: nat)
    requires i < |sources| && sources[i].Some? && k in sources[i].value
    requires forall j :: i < j < |sources| && sources[j].Some? ==> k !in sources[j].value
    ensures k in Merged(target, sources)
    ensures Merged(target, sources)[k] == sources[i].value[k]
    decreases |sources|
  {
    var n := |sources|;
    if i < n - 1 {
      var init := sources[..n - 1];
      MergedLastWins(target, init, k, i);
    }
  }

  /** A key that no source holds keeps the target's value. */
  lemma {:induction false} MergedKeepsTarget(target: map<string, Json>, sources: seq<Option<map<string, Json>>>, k: string)
    requires k in target
    requires forall j :: 0 <= j < |sources| && sources[j].Some? ==> k !in sources[j].value
    ensures k in Merged(target, sources) && Merged(target, sources)[k] == target[k]
    decreases |sources|
  {
    if sources != [] {
      MergedKeepsTarget(target, sources[..|sources| - 1], k);
    }
  }

  /** The properties a `for...in` over `options` has already copied. */
  function Copied(options: map<string, Json>, remaining: set<string>): map<string, Json> {
    map k | k in options.Keys - remaining :: options[k]
  }

  /** `Hive.extend(target, ...sources)`: copies every property of every non-null source
      onto `target` (a fresh object when `target` is falsy) and returns it. */
  method Extend(target: JsObject?, sources: seq<Option<map<string, Json>>>) returns (r: JsObject)
    modifies target
    ensures target != null ==> r == target
    ensures target == null ==> fresh(r)
    ensures r.fields == Merged(if target == null then map[] else old(target.fields), sources)
  {
    if target == null {
      r := new JsObject();
    } else {
      r := target;
    }
    ghost var base := r.fields;
    for i := 0 to |sources|
      invariant r.fields == Merged(base, sources[..i])
    {
      assert sources[..i + 1][..i] == sources[..i];
      if sources[i].Some? {
        var options := sources[i].value;
        var names := options.Keys;
        ghost var before := r.fields;
        while names != {}
          invariant names <= options.Keys
          invariant r.fields == before + Copied(options, names)
          decreases |names|
        {
          var name :| name in names;
          r.fields := r.fields[name := options[name]];
          names := names - {name};
        }
        assert Copied(options, {}) == options;
      }
    }
    assert sources[..|sources|] == sources;
  }

  /** `method.toUpperCase() === 'GET'`. */
  predicate IsGet(verb: string) {
    |verb| == 3 && verb[0] in {'g', 'G'} && verb[1] in {'e', 'E'} && verb[2] in {'t', 'T'}
  }

  /** The settings `request(method, path, data)` builds before merging its options: data
      that is not null or undefined travels as query parameters for a GET and as the
      body otherwise. */
  function RequestSettings(verb: string, data: Json): (r: map<string, Json>)
    ensures "method" in r && r["method"] == Str(verb)
    ensures "params" in r <==> !Nullish(data) && IsGet(verb)
    ensures "data" in r <==> !Nullish(data) && !IsGet(verb)
    ensures "params" in r ==> r["params"] == data
    ensures "data" in r ==> r["data"] == data
    ensures r.Keys <= {"method", "params", "data"}
  {
    var settings := map["method" := Str(verb)];
    if Nullish(data) then settings
    else if IsGet(verb) then settings["params" := data]
    else settings["data" := data]
  }

  /** `request(method, path, data, options)`: the settings handed to the client and the
      outcome of the call. */
  method Request(verb: string, data: Json, options: Option<map<string, Json>>, accepts: Json -> bool, reply: Delivery)
    returns (settings: map<string, Json>, r: Result<Json, HiveError>)
    ensures settings == Merged(RequestSettings(verb, data), [options])
    ensures r == Outcome(reply, accepts)
  {
    var request := new JsObject();
    request.fields := map["method" := Str(verb)];
    if !Nullish(data) {
      if IsGet(verb) {
        request.fields := request.fields["params" := data];
      } else {
        request.fields := request.fields["data" := data];
      }
    }
    var merged := Extend(request, [options]);
    settings := merged.fields;
    r := Outcome(reply, accepts);
  }

  /** `normalizeResponse(data, response, settings)`. */
  function NormalizeResponse(data: Json, response: Json, settings: Json): (r: Json)
    ensures Truthy(settings) && Truthy(Field(settings, "withResponse")) ==> r == Arr([data, response])
    ensures !(Truthy(settings) && Truthy(Field(settings, "withResponse"))) ==> r == data
  {
    if Truthy(settings) && Truthy(Field(settings, "withResponse")) then Arr([data, response]) else data
  }

  /** The query parameters `getNode(id, options)` sends: `fields` when the option is set. */
  function NodeParams(options: Json): (r: map<string, Json>)
    ensures "fields" in r <==> Truthy(Field(options, "fields"))
    ensures "fields" in r ==> r["fields"] == Field(options, "fields")
    ensures r.Keys <= {"fields"}
  {
    var o := if Truthy(options) then options else Obj(map[]);
    if Truthy(Field(o, "fields")) then map["fields" := Field(o, "fields")] else map[]
  }

  /** The query parameters `getEvents(options)` sends: exactly one of `limitPerDevice`
      and `limit` (`limitPerDevice` preferred, `limitPerDevice: 100` when neither is set),
      and `fromTime`, `toTime`, `source` for the options that are set. */
  function EventsParams(options: Json): (r: map<string, Json>)
    ensures "limitPerDevice" in r <==> Truthy(Field(options, "limitPerDevice")) || !Truthy(Field(options, "limit"))
    ensures "limit" in r <==> !Truthy(Field(options, "limitPerDevice")) && Truthy(Field(options, "limit"))
    ensures "limitPerDevice" in r ==>
              r["limitPerDevice"] == if Truthy(Field(options, "limitPerDevice")) then Field(options, "limitPerDevice") else Num(100.0)
    ensures "limit" in r ==> r["limit"] == Field(options, "limit")
    ensures "fromTime" in r <==> Truthy(Field(options, "from"))
    ensures "fromTime" in r ==> r["fromTime"] == Field(options, "from")
    ensures "toTime" in r <==> Truthy(Field(options, "to"))
    ensures "toTime" in r ==> r["toTime"] == Field(options, "to")
    ensures "source" in r <==> Truthy(Field(options, "nodes"))
    ensures "source" in r ==> r["source"] == Field(options, "nodes")
    ensures r.Keys <= {"limitPerDevice", "limit", "fromTime", "toTime", "source"}
  {
    var o := if Truthy(options) then options else Obj(map[]);
    var limits :=
      if Truthy(Field(o, "limitPerDevice")) then map["limitPerDevice" := Field(o, "limitPerDevice")]
      else if Truthy(Field(o, "limit")) then map["limit" := Field(o, "limit")]
      else map["limitPerDevice" := Num(100.0)];
    var withFrom := if Truthy(Field(o, "from")) then limits["fromTime" := Field(o, "from")] else limits;
    var withTo := if Truthy(Field(o, "to")) then withFrom["toTime" := Field(o, "to")] else withFrom;
    if Truthy(Field(o, "nodes")) then withTo["source" := Field(o, "nodes")] else withTo
  }
}
