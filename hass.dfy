/**
 * The Home Assistant websocket client's message dispatcher: `safekey`, the
 * reserved request ids, and `HASSController.on_message`, which turns one
 * decoded message into the frames it sends and the data-source calls it makes.
 */
module Hass {
  import opened Wrappers
  import opened Json

  /** The request id of the state_changed subscription. */
  const EventRqId: int := 1
  /** The request id of the one-shot get_states request. */
  const BulkRqId: int := 2

  /** A registered data source; its own behaviour is not modelled. */
  datatype DataSource = DataSource(id: nat)

  /** One observable step of the dispatcher, in the order it happens. */
  datatype Action =
    | Send(frame: Json)                                // ws.send of a frame
    | Incremental(source: DataSource, data: Json)      // source.parse_incremental_update(data)
    | Bulk(source: DataSource, record: Json)           // source.parse_bulk_update(record)

  // ---------------------------------------------------------------------------
  // safekey

  /** What `dpath.util.get(d, keypath)` finds for a key path of literal dict
      keys: None where it would raise KeyError. */
  function Resolve(d: Json, keypath: seq<string>): Option<Json>
    decreases |keypath|
  {
    if keypath == [] then Some(d)
    else if d.Obj? then
      match Lookup(d.fields, keypath[0])
      case Some(v) => Resolve(v, keypath[1..])
      case None => None
    else None
  }

  /** `safekey(d, keypath, default)`. */
  function SafeKey(d: Json, keypath: seq<string>, default: Json): Json {
    match Resolve(d, keypath)
    case Some(v) => v
    case None => default
  }

  /** A two-key path resolves exactly when the two subscripts `d[outer][inner]`
      succeed, and to the same value. */
  lemma SafeKeyMatchesSubscripts(d: Json, outer: string, inner: string)
    ensures Resolve(d, [outer, inner]).Some? <==>
            Index(d, outer).Ok? && Index(Index(d, outer).value, inner).Ok?
    ensures Resolve(d, [outer, inner]).Some? ==>
            Resolve(d, [outer, inner]).value == Index(Index(d, outer).value, inner).value
  {
    assert [outer, inner][1..] == [inner];
    assert [inner][1..] == [];
    if d.Obj? && Lookup(d.fields, outer).Some? {
      var v := Lookup(d.fields, outer).value;
      assert Resolve(d, [outer, inner]) == Resolve(v, [inner]);
      if v.Obj? && Lookup(v.fields, inner).Some? {
        assert Resolve(v, [inner]) == Resolve(Lookup(v.fields, inner).value, []);
      }
    }
  }

  /** Once `safekey(message, 'event/data')` is truthy, `message['event']['data']`
      cannot raise and is that same value. */
  lemma TruthyEventDataIsSubscriptable(message: Json)
    requires Truthy(SafeKey(message, ["event", "data"], Null))
    ensures Index(message, "event").Ok?
    ensures Index(Index(message, "event").value, "data") == Ok(SafeKey(message, ["event", "data"], Null))
  {
    SafeKeyMatchesSubscripts(message, "event", "data");
  }

  // ---------------------------------------------------------------------------
  // Outbound frames

  function AuthFrame(token: string): Json {
    Obj([("type", Str("auth")), ("access_token", Str(token))])
  }

  const SubscribeEventsFrame: Json :=
    Obj([("id", Num(EventRqId)), ("type", Str("subscribe_events")), ("event_type", Str("state_changed"))])

  const GetStatesFrame: Json :=
    Obj([("id", Num(BulkRqId)), ("type", Str("get_states"))])

  // ---------------------------------------------------------------------------
  // Fan-out traces

  /** Every data source, in order, is given `data`. */
  function IncrementalFanOut(sources: seq<DataSource>, data: Json): (r: seq<Action>)
    ensures |r| == |sources|
    ensures forall i :: 0 <= i < |sources| ==> r[i] == Incremental(sources[i], data)
  {
    if sources == [] then []
    else IncrementalFanOut(sources[..|sources| - 1], data) + [Incremental(sources[|sources| - 1], data)]
  }

  /** Every data source, in order, is given `record`. */
  function BulkFanOut(sources: seq<DataSource>, record: Json): (r: seq<Action>)
    ensures |r| == |sources|
    ensures forall i :: 0 <= i < |sources| ==> r[i] == Bulk(sources[i], record)
  {
    if sources == [] then []
    else BulkFanOut(sources[..|sources| - 1], record) + [Bulk(sources[|sources| - 1], record)]
  }

  /** Record by record, every data source is given that record. */
  function BulkTrace(sources: seq<DataSource>, records: seq<Json>): (r: seq<Action>)
    ensures |r| == |records| * |sources|
  {
    if records == [] then []
    else
      var prefix := BulkTrace(sources, records[..|records| - 1]);
      assert |prefix| + |sources| == |records| * |sources| by {
        assert (|records| - 1) * |sources| + |sources| == |records| * |sources|;
      }
      prefix + BulkFanOut(sources, records[|records| - 1])
  }

  lemma MulLeftMonotone(a: nat, b: nat, m: nat)
    requires a <= b
    ensures a * m <= b * m
  {
  }

  /** The call at position `i * |sources| + j` hands record `i` to source `j`. */
  lemma {:induction false} BulkTraceAt(sources: seq<DataSource>, records: seq<Json>, i: nat, j: nat)
    requires i < |records| && j < |sources|
    ensures i * |sources| + j < |BulkTrace(sources, records)|
    ensures BulkTrace(sources, records)[i * |sources| + j] == Bulk(sources[j], records[i])
  {
    var n := |records| - 1;
    var prefix := records[..n];
    assert |BulkTrace(sources, prefix)| == n * |sources|;
    if i < n {
      BulkTraceAt(sources, prefix, i, j);
    } else {
      assert i * |sources| + j == |BulkTrace(sources, prefix)| + j;
    }
    MulLeftMonotone(i + 1, |records|, |sources|);
  }

  // ---------------------------------------------------------------------------
  // Classification: which branch of the cascade a message takes

  datatype Kind = AuthRequired | AuthInvalid | AuthOk | EventReply | BulkReply | Unhandled

  function Classify(message: Json): Result<Kind> {
    var hasType :- Contains(message, "type");
    if !hasType then Ok(Unhandled)
    else
      var kind :- Index(message, "type");
      if kind == Str("auth_required") then Ok(AuthRequired)
      else if kind == Str("auth_invalid") then Ok(AuthInvalid)
      else if kind == Str("auth_ok") then Ok(AuthOk)
      else
        var id :- Index(message, "id");
        if EqualsInt(id, EventRqId) then Ok(EventReply)
        else if EqualsInt(id, BulkRqId) then Ok(BulkReply)
        else Ok(Unhandled)
  }

  /** The response to a message of a given kind. */
  function Reply(kind: Kind, token: string, sources: seq<DataSource>, message: Json): Result<seq<Action>>
    requires Classify(message) == Ok(kind)
  {
    match kind
    case AuthRequired => Ok([Send(AuthFrame(token))])
    case AuthInvalid => Ok([])
    case AuthOk => Ok([Send(SubscribeEventsFrame), Send(GetStatesFrame)])
    case EventReply =>
      var data := SafeKey(message, ["event", "data"], Null);
      if Truthy(data) then Ok(IncrementalFanOut(sources, data)) else Ok([])
    case BulkReply =>
      var result := Get(message.fields, "result");
      if result == Null then Ok([])
      else
        var records :- Iterate(result);
        Ok(BulkTrace(sources, records))
    case Unhandled => Ok([])
  }

  /** What `on_message` does with one decoded message: the actions it takes,
      or the exception it raises before taking any. */
  function Respond(token: string, sources: seq<DataSource>, message: Json): Result<seq<Action>> {
    var kind :- Classify(message);
    Reply(kind, token, sources, message)
  }

  // ---------------------------------------------------------------------------
  // Properties of the dispatcher

  predicate IsAuthType(v: Json) {
    v == Str("auth_required") || v == Str("auth_invalid") || v == Str("auth_ok")
  }

  /** The message is a dict whose "type" is the string `t`. */
  predicate TypeIs(m: Json, t: string) {
    m.Obj? && Lookup(m.fields, "type") == Some(Str(t))
  }

  /** The message is a dict with a "type" that is none of the three auth types. */
  predicate TypedReply(m: Json) {
    m.Obj? && HasKey(m.fields, "type") && !IsAuthType(Lookup(m.fields, "type").value)
  }

  /** The message is a dict whose "id" compares equal to `n` in Python. */
  predicate IdIs(m: Json, n: int) {
    m.Obj? && HasKey(m.fields, "id") && EqualsInt(Lookup(m.fields, "id").value, n)
  }

  /** `'type' in m` holds although `m` is not a dict, so `m['type']` raises. */
  ghost predicate NonDictWithType(m: Json) {
    (m.Arr? && Str("type") in m.items) || (m.Str? && exists i :: SubstringAt("type", m.s, i))
  }

  /** The two reserved request ids differ, so no reply matches both. */
  lemma ReservedIdsDistinct(v: Json)
    ensures EventRqId != BulkRqId
    ensures !(EqualsInt(v, EventRqId) && EqualsInt(v, BulkRqId))
  {
  }

  /** auth_required is answered by exactly one frame, carrying the token,
      whatever else the message holds. */
  lemma AuthRequiredSendsToken(token: string, sources: seq<DataSource>, m: Json)
    requires TypeIs(m, "auth_required")
    ensures Respond(token, sources, m) == Ok([Send(Obj([("type", Str("auth")), ("access_token", Str(token))]))])
  {
  }

  /** auth_invalid causes no send and no data-source call. */
  lemma AuthInvalidDoesNothing(token: string, sources: seq<DataSource>, m: Json)
    requires TypeIs(m, "auth_invalid")
    ensures Respond(token, sources, m) == Ok([])
  {
  }

  /** auth_ok sends the subscription request with id 1 and then the
      get_states request with id 2, and nothing else. */
  lemma AuthOkSendsRequests(token: string, sources: seq<DataSource>, m: Json)
    requires TypeIs(m, "auth_ok")
    ensures Respond(token, sources, m) ==
            Ok([Send(Obj([("id", Num(1)), ("type", Str("subscribe_events")), ("event_type", Str("state_changed"))])),
                Send(Obj([("id", Num(2)), ("type", Str("get_states"))]))])
  {
  }

  /** The cascade raises exactly when `'type' in m` raises, when `m['type']`
      is applied to a non-dict, or when a dict with a non-auth type has no "id". */
  lemma ClassifyRaises(m: Json)
    ensures Classify(m).Err? <==>
            m.Null? || m.Bool? || m.Num? || NonDictWithType(m) || (TypedReply(m) && !HasKey(m.fields, "id"))
  {
  }

  /** A non-auth message without an id raises KeyError on `message['id']`. */
  lemma MissingIdRaises(token: string, sources: seq<DataSource>, m: Json)
    requires TypedReply(m) && !HasKey(m.fields, "id")
    ensures Respond(token, sources, m) == Err(KeyError("id"))
  {
  }

  /** The incremental branch is taken exactly for a typed, non-auth message
      whose id equals event_rq_id. */
  lemma ClassifyEvent(m: Json)
    ensures Classify(m) == Ok(EventReply) <==> TypedReply(m) && IdIs(m, EventRqId)
  {
  }

  /** The bulk branch is taken exactly for a typed, non-auth message whose id
      equals bulk_rq_id. */
  lemma ClassifyBulk(m: Json)
    ensures Classify(m) == Ok(BulkReply) <==> TypedReply(m) && IdIs(m, BulkRqId)
  {
  }

  /** Every other message falls through to the final else and is ignored. */
  lemma ClassifyIgnored(m: Json)
    ensures Classify(m) == Ok(Unhandled) <==>
            || (m.Obj? && !HasKey(m.fields, "type"))
            || (m.Arr? && Str("type") !in m.items)
            || (m.Str? && !exists i :: SubstringAt("type", m.s, i))
            || (TypedReply(m) && HasKey(m.fields, "id") && !IdIs(m, EventRqId) && !IdIs(m, BulkRqId))
  {
    match m
    case Obj(fields) =>
      assert Contains(m, "type") == Ok(HasKey(fields, "type"));
      if HasKey(fields, "type") {
        assert Index(m, "type") == Ok(Lookup(fields, "type").value);
        if HasKey(fields, "id") {
          assert Index(m, "id") == Ok(Lookup(fields, "id").value);
        } else {
          assert Index(m, "id") == Err(KeyError("id"));
        }
      }
    case Arr(items) =>
      assert Contains(m, "type") == Ok(Str("type") in items);
      assert Index(m, "type") == Err(TypeError);
    case Str(s) =>
      assert Contains(m, "type") == Ok(exists i | 0 <= i <= |s| :: SubstringAt("type", s, i));
      assert Index(m, "type") == Err(TypeError);
    case _ =>
  }

  /** A message without a "type" key produces no action, whatever its id. */
  lemma UntypedIgnored(token: string, sources: seq<DataSource>, m: Json)
    requires m.Obj? && !HasKey(m.fields, "type")
    ensures Respond(token, sources, m) == Ok([])
  {
  }

  /** An incremental update: if `event/data` is present and truthy, each data
      source in order receives it once; otherwise nothing happens. */
  lemma EventDelivery(token: string, sources: seq<DataSource>, m: Json)
    requires TypedReply(m) && IdIs(m, EventRqId)
    ensures Respond(token, sources, m).Ok?
    ensures var trace := Respond(token, sources, m).value;
            var data := SafeKey(m, ["event", "data"], Null);
            if Truthy(data) then
              && Index(Index(m, "event").value, "data") == Ok(data)
              && |trace| == |sources|
              && forall i :: 0 <= i < |sources| ==> trace[i] == Incremental(sources[i], data)
            else trace == []
  {
    ClassifyEvent(m);
    if Truthy(SafeKey(m, ["event", "data"], Null)) {
      TruthyEventDataIsSubscriptable(m);
    }
  }

  /** A bulk update whose result is absent or null produces no action. */
  lemma BulkNullResultIgnored(token: string, sources: seq<DataSource>, m: Json)
    requires TypedReply(m) && IdIs(m, BulkRqId)
    requires Get(m.fields, "result") == Null
    ensures Respond(token, sources, m) == Ok([])
  {
    ClassifyBulk(m);
  }

  /** A bulk update with N records makes N * |sources| calls, record by record
      and, within a record, data source by data source. */
  lemma {:induction false} BulkDelivery(token: string, sources: seq<DataSource>, m: Json, records: seq<Json>)
    requires TypedReply(m) && IdIs(m, BulkRqId)
    requires Get(m.fields, "result") == Arr(records)
    ensures Respond(token, sources, m).Ok?
    ensures |Respond(token, sources, m).value| == |records| * |sources|
    ensures forall i :: 0 <= i < |records| ==> BulkRowAt(Respond(token, sources, m).value, sources, records, i)
  {
    BulkReplyTrace(token, sources, m);
    BulkTraceLayout(sources, records);
  }

  /** Positions `i * |sources|` to `i * |sources| + |sources| - 1` of `trace`
      hand record `i` to each data source in turn. */
  predicate BulkRowAt(trace: seq<Action>, sources: seq<DataSource>, records: seq<Json>, i: nat)
    requires i < |records|
  {
    forall j :: 0 <= j < |sources| ==>
      i * |sources| + j < |trace| && trace[i * |sources| + j] == Bulk(sources[j], records[i])
  }

  /** Every position of the bulk trace, record by record. */
  lemma {:induction false} BulkTraceLayout(sources: seq<DataSource>, records: seq<Json>)
    ensures forall i :: 0 <= i < |records| ==> BulkRowAt(BulkTrace(sources, records), sources, records, i)
  {
    forall i | 0 <= i < |records| {
      BulkTraceRow(sources, records, i);
    }
  }

  /** The calls for record `i`, one per data source. */
  lemma {:induction false} BulkTraceRow(sources: seq<DataSource>, records: seq<Json>, i: nat)
    requires i < |records|
    ensures BulkRowAt(BulkTrace(sources, records), sources, records, i)
  {
    forall j | 0 <= j < |sources| {
      BulkTraceAt(sources, records, i, j);
    }
  }

  lemma BulkReplyTrace(token: string, sources: seq<DataSource>, m: Json)
    requires TypedReply(m) && IdIs(m, BulkRqId)
    requires Get(m.fields, "result").Arr?
    ensures Respond(token, sources, m) == Ok(BulkTrace(sources, Get(m.fields, "result").items))
  {
    ClassifyBulk(m);
    assert Classify(m) == Ok(BulkReply);
  }

  /** A non-null result that cannot be iterated raises TypeError. */
  lemma BulkScalarResultRaises(token: string, sources: seq<DataSource>, m: Json)
    requires TypedReply(m) && IdIs(m, BulkRqId)
    requires Get(m.fields, "result").Bool? || Get(m.fields, "result").Num?
    ensures Respond(token, sources, m) == Err(TypeError)
  {
    ClassifyBulk(m);
  }

  /** The whole dispatcher raises exactly when branch selection raises, or
      when the bulk branch meets a result that is a bool or a number. */
  lemma DispatcherRaises(token: string, sources: seq<DataSource>, m: Json)
    ensures Respond(token, sources, m).Err? <==>
            || m.Null? || m.Bool? || m.Num? || NonDictWithType(m)
            || (TypedReply(m) && !HasKey(m.fields, "id"))
            || (TypedReply(m) && IdIs(m, BulkRqId) &&
                (Get(m.fields, "result").Bool? || Get(m.fields, "result").Num?))
  {
    ClassifyRaises(m);
    ClassifyBulk(m);
  }

  lemma {:induction false} BulkTraceMembers(sources: seq<DataSource>, records: seq<Json>, a: Action)
    requires a in BulkTrace(sources, records)
    ensures a.Bulk? && a.source in sources && a.record in records
  {
    var n := |records| - 1;
    var prefix := BulkTrace(sources, records[..n]);
    if a in prefix {
      BulkTraceMembers(sources, records[..n], a);
    }
  }

  /** Whatever the message, only registered data sources are called, and only
      auth_required and auth_ok cause a send. */
  lemma OnlyRegisteredSourcesCalled(token: string, sources: seq<DataSource>, m: Json, a: Action)
    requires Respond(token, sources, m).Ok? && a in Respond(token, sources, m).value
    ensures a.Send? ==> TypeIs(m, "auth_required") || TypeIs(m, "auth_ok")
    ensures a.Incremental? ==> a.source in sources && a.data == SafeKey(m, ["event", "data"], Null)
    ensures a.Bulk? ==> a.source in sources && TypedReply(m) && IdIs(m, BulkRqId)
  {
    var kind := Classify(m).value;
    var trace := Respond(token, sources, m).value;
    assert Reply(kind, token, sources, m) == Ok(trace);
    match kind
    case AuthRequired => ClassifiedAuth(m);
    case AuthOk => ClassifiedAuth(m);
    case EventReply =>
      var data := SafeKey(m, ["event", "data"], Null);
      if Truthy(data) {
        assert trace == IncrementalFanOut(sources, data);
        var i :| 0 <= i < |trace| && trace[i] == a;
        assert a == Incremental(sources[i], data);
      }
    case BulkReply =>
      ClassifyBulk(m);
      var records := Iterate(Get(m.fields, "result")).value;
      assert trace == BulkTrace(sources, records);
      BulkTraceMembers(sources, records, a);
    case AuthInvalid =>
    case Unhandled =>
  }

  /** The two auth kinds that send are classified from the "type" alone. */
  lemma ClassifiedAuth(m: Json)
    ensures Classify(m) == Ok(AuthRequired) ==> TypeIs(m, "auth_required")
    ensures Classify(m) == Ok(AuthOk) ==> TypeIs(m, "auth_ok")
  {
  }

  /** The handshake: auth_required then auth_ok sends the auth frame and the
      two requests, in that order, tagged with two different ids. */
  lemma Handshake(token: string, sources: seq<DataSource>)
    ensures var first := Respond(token, sources, Obj([("type", Str("auth_required"))]));
            var second := Respond(token, sources, Obj([("type", Str("auth_ok"))]));
            first.Ok? && second.Ok? &&
            first.value + second.value == [Send(AuthFrame(token)), Send(SubscribeEventsFrame), Send(GetStatesFrame)]
  {
    AuthRequiredSendsToken(token, sources, Obj([("type", Str("auth_required"))]));
    AuthOkSendsRequests(token, sources, Obj([("type", Str("auth_ok"))]));
  }

  /** Python's `True == 1`: a reply whose id is JSON true is an incremental update. */
  lemma TrueIdIsEventReply(m: Json)
    requires TypedReply(m) && HasKey(m.fields, "id") && Lookup(m.fields, "id").value == Bool(true)
    ensures Classify(m) == Ok(EventReply)
  {
    ClassifyEvent(m);
  }

  /** The frame `{"id": 1, "event": {"data": {"entity_id": "a"}}}`. */
  function ExampleEvent(withType: bool): Json {
    var event := ("event", Obj([("data", Obj([("entity_id", Str("a"))]))]));
    if withType then Obj([("type", Str("event")), ("id", Num(1)), event]) else Obj([("id", Num(1)), event])
  }

  /** Replies must carry a "type" key to be dispatched: the incremental frame
      without one is ignored... */
  lemma UntypedEventIgnored(token: string, sources: seq<DataSource>)
    ensures Respond(token, sources, ExampleEvent(false)) == Ok([])
  {
    assert !HasKey(ExampleEvent(false).fields, "type");
    UntypedIgnored(token, sources, ExampleEvent(false));
  }

  /** ...and the same frame with a "type" is delivered to every data source. */
  lemma TypedEventDelivered(token: string, sources: seq<DataSource>)
    ensures Respond(token, sources, ExampleEvent(true)) == Ok(IncrementalFanOut(sources, Obj([("entity_id", Str("a"))])))
  {
    ExampleEventShape();
    EventDelivery(token, sources, ExampleEvent(true));
  }

  lemma ExampleEventShape()
    ensures TypedReply(ExampleEvent(true)) && IdIs(ExampleEvent(true), EventRqId)
    ensures SafeKey(ExampleEvent(true), ["event", "data"], Null) == Obj([("entity_id", Str("a"))])
  {
    var data := Obj([("entity_id", Str("a"))]);
    var m := ExampleEvent(true);
    assert m.fields[0].0 == "type" && m.fields[1].0 == "id";
    assert Lookup(m.fields, "type") == Some(Str("event"));
    assert Lookup(m.fields, "id") == Some(Num(1));
    assert Lookup(m.fields, "event") == Some(Obj([("data", data)]));
    assert Resolve(m, ["event", "data"]) == Resolve(Obj([("data", data)]), ["data"]);
    assert Resolve(Obj([("data", data)]), ["data"]) == Resolve(data, []);
  }

  // ---------------------------------------------------------------------------
  // The controller

  class HassController {
    const authToken: string
    /** The registered data sources, populated before the client starts. */
    const dataSources: seq<DataSource>

    constructor (authToken: string, dataSources: seq<DataSource>)
      ensures this.authToken == authToken && this.dataSources == dataSources
    {
      this.authToken := authToken;
      this.dataSources := dataSources;
    }

    /** Dispatches one decoded message, testing the branches in the source's order. */
    method OnMessage(message: Json) returns (r: Result<seq<Action>>)
      ensures r == Respond(authToken, dataSources, message)
    {
      var hasType :- Contains(message, "type");
      if !hasType {
        // every branch of the cascade is guarded by 'type' in message
        assert Classify(message) == Ok(Unhandled);
        return Ok([]);
      }
      var kind :- Index(message, "type");
      if kind == Str("auth_required") {
        assert Classify(message) == Ok(AuthRequired);
        return Ok([Send(AuthFrame(authToken))]);
      } else if kind == Str("auth_invalid") {
        assert Classify(message) == Ok(AuthInvalid);
        return Ok([]);
      } else if kind == Str("auth_ok") {
        assert Classify(message) == Ok(AuthOk);
        var trace := [Send(SubscribeEventsFrame)];
        trace := trace + [Send(GetStatesFrame)];
        assert trace == [Send(SubscribeEventsFrame), Send(GetStatesFrame)];
        return Ok(trace);
      }
      assert TypedReply(message);
      r := OnReply(message);
    }

    /** The two id branches, for a dict whose "type" is not an auth type. */
    method OnReply(message: Json) returns (r: Result<seq<Action>>)
      requires TypedReply(message)
      ensures r == Respond(authToken, dataSources, message)
    {
      var id :- Index(message, "id");
      if EqualsInt(id, EventRqId) {
        ClassifyEvent(message);
        assert Classify(message) == Ok(EventReply);
        if !Truthy(SafeKey(message, ["event", "data"], Null)) {
          return Ok([]);
        }
        TruthyEventDataIsSubscriptable(message);
        var event := Index(message, "event").value;
        var data := Index(event, "data").value;
        var trace := NotifyIncremental(data);
        return Ok(trace);
      } else if EqualsInt(id, BulkRqId) {
        ClassifyBulk(message);
        assert Classify(message) == Ok(BulkReply);
        var result := Get(message.fields, "result");
        if result == Null {
          return Ok([]);
        }
        var records :- Iterate(result);
        var trace := NotifyBulk(records);
        return Ok(trace);
      }
      assert Classify(message) == Ok(Unhandled);
      return Ok([]);
    }

    /** The loop over the data sources for an incremental update. */
    method NotifyIncremental(data: Json) returns (trace: seq<Action>)
      ensures trace == IncrementalFanOut(dataSources, data)
    {
      trace := [];
      for i := 0 to |dataSources|
        invariant trace == IncrementalFanOut(dataSources[..i], data)
      {
        trace := trace + [Incremental(dataSources[i], data)];
        assert dataSources[..i + 1][..i] == dataSources[..i];
      }
      assert dataSources[..|dataSources|] == dataSources;
    }

    /** The nested loops of a bulk update: records outer, data sources inner. */
    method NotifyBulk(records: seq<Json>) returns (trace: seq<Action>)
      ensures trace == BulkTrace(dataSources, records)
    {
      trace := [];
      for i := 0 to |records|
        invariant trace == BulkTrace(dataSources, records[..i])
      {
        for j := 0 to |dataSources|
          invariant trace == BulkTrace(dataSources, records[..i]) + BulkFanOut(dataSources[..j], records[i])
        {
          trace := trace + [Bulk(dataSources[j], records[i])];
          assert dataSources[..j + 1][..j] == dataSources[..j];
        }
        assert dataSources[..|dataSources|] == dataSources;
        assert records[..i + 1][..i] == records[..i];
      }
      assert records[..|records|] == records;
    }
  }
}
