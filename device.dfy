/**
 * The behaviour of one "hubitat device" node, stated as pure functions.
 * Every handler is described by the effects it has: the status pairs it asks
 * `updateStatus` to paint, in order, and the messages it sends, in order.
 * The class in module DeviceNode performs these effects step by step.
 */
module Device {
  import opened Wrappers
  import opened Hubitat

  const Red := "red"
  const Green := "green"
  const Blue := "blue"
  const Dot := "dot"
  const Ring := "ring"
  const WsErrorText := "WS ERROR"
  const UninitializedText := "Uninitialized"
  const InvalidAttributeText := "Invalid attribute"
  const UndefinedDeviceIdText := "Undefined device ID"
  const ResyncDescription := "Event triggered by systemStart and generated by Node-RED"

  const WsOpenedEvent := "websocket-opened"
  const WsClosedEvent := "websocket-closed"
  const WsErrorEvent := "websocket-error"
  const SystemStartEvent := "systemStart"

  /** JavaScript truthiness of an optional string (`undefined`, `null` and `''` are falsy). */
  predicate Truthy(o: Option<string>)
  {
    o.Some? && o.value != ""
  }

  /** The node's configuration, fixed at construction. */
  datatype Config = Config(
    deviceId: Option<string>,
    attribute: Option<string>,
    sendEvent: bool,
    topic: Option<string>)

  /** The shape of the status indicator: a dot for a node that forwards events, else a ring. */
  function ShapeFor(sendEvent: bool): (s: string)
    ensures s == Dot <==> sendEvent
    ensures s == Ring <==> !sendEvent
  {
    if sendEvent then Dot else Ring
  }

  /** The output topic: the node's name when it is set, else the device's label. */
  function TopicFor(name: Option<string>, deviceLabel: Option<string>): (t: Option<string>)
    ensures Truthy(name) ==> t == name
    ensures !Truthy(name) ==> t == deviceLabel
  {
    if Truthy(name) then name else deviceLabel
  }

  // ---------------------------------------------------------------------------
  // Status projection
  // ---------------------------------------------------------------------------

  /** A request to `updateStatus(fill, text)`; None is the default `null`. */
  datatype Paint = Paint(fill: Option<string>, text: Option<string>)

  /** The object handed to the status sink; None is a property that was deleted. */
  datatype Status = Status(fill: Option<string>, shape: Option<string>, text: Option<string>)

  /** The status rendered for a request, given the node's shape and the hub's websocket flags. */
  function Render(p: Paint, shape: string, hub: Hub): (s: Status)
    // without a websocket: exactly what was asked, the shape only beside a fill
    ensures !hub.useWebsocket ==> s.fill == p.fill && s.text == p.text
    ensures !hub.useWebsocket ==> (s.shape.Some? <==> p.fill.Some?)
    ensures s.shape.Some? ==> s.shape == Some(shape)
    // with a websocket: never a neutral status and never blue
    ensures hub.useWebsocket ==> s.fill.Some? && s.shape == Some(shape)
    ensures hub.useWebsocket ==> s.fill != Some(Blue)
    ensures hub.useWebsocket && hub.wsStatusOk ==> s.text == p.text
    ensures hub.useWebsocket && hub.wsStatusOk && (p.fill.None? || p.fill == Some(Blue)) ==> s.fill == Some(Green)
    ensures hub.useWebsocket && hub.wsStatusOk && p.fill.Some? && p.fill != Some(Blue) ==> s.fill == p.fill
    // an unhealthy websocket overrides whatever was asked
    ensures hub.useWebsocket && !hub.wsStatusOk ==> s == Status(Some(Red), Some(shape), Some(WsErrorText))
  {
    if !hub.useWebsocket then
      Status(p.fill, if p.fill.Some? then Some(shape) else None, p.text)
    else if !hub.wsStatusOk then
      Status(Some(Red), Some(shape), Some(WsErrorText))
    else if p.fill.None? || p.fill == Some(Blue) then
      Status(Some(Green), Some(shape), p.text)
    else
      Status(p.fill, Some(shape), p.text)
  }

  /** The statuses rendered for a sequence of requests, one each, in order. */
  function RenderAll(ps: seq<Paint>, shape: string, hub: Hub): (r: seq<Status>)
    ensures |r| == |ps|
    ensures forall i :: 0 <= i < |ps| ==> r[i] == Render(ps[i], shape, hub)
  {
    if ps == [] then [] else [Render(ps[0], shape, hub)] + RenderAll(ps[1..], shape, hub)
  }

  /** The status cache after a sequence of requests: the last one made, if any. */
  function LastPaint(ps: seq<Paint>, cache: Paint): (c: Paint)
    ensures ps == [] ==> c == cache
    ensures ps != [] ==> c == ps[|ps| - 1]
  {
    if ps == [] then cache else ps[|ps| - 1]
  }

  // ---------------------------------------------------------------------------
  // Messages, effects and the node's observable state
  // ---------------------------------------------------------------------------

  /**
   * What a sent message carries: one object; the merge `{...event, ...attribute}`
   * of an event and a record, whose properties are `Merge(event, record)`; or a
   * copy of a whole attribute object.
   */
  datatype Payload = Single(obj: Obj) | Merged(event: Event, record: AttrRecord) | Whole(attributes: Attributes)

  /** An inbound request message: its overrides, and the rest of its properties. */
  datatype Request = Request(deviceId: Option<string>, attribute: Option<string>, rest: Obj)

  /**
   * A sent message. `request` is the inbound message it was built from (its
   * payload and topic overwritten), or None for a message built afresh.
   */
  datatype Message = Message(payload: Payload, topic: Option<string>, request: Option<Request>)

  /** The effects of a handler: status requests and sends, each in order. */
  datatype Effects = Effects(paints: seq<Paint>, sends: seq<Message>)
  {
    function Then(next: Effects): (r: Effects)
      ensures r.paints == paints + next.paints && r.sends == sends + next.sends
    {
      Effects(paints + next.paints, sends + next.sends)
    }
  }

  const NoEffects := Effects([], [])

  /** How an inbound request completes: `done()`, `done` with an error, or never. */
  datatype Completion = Pending | Done | Failed(message: string)

  /** The observable state of a node: its status cache and what it rendered and sent. */
  datatype NodeView = NodeView(cache: Paint, statuses: seq<Status>, sent: seq<Message>)

  /** The state after a handler's effects: traces extended, cache set to the last request. */
  function Apply(v: NodeView, e: Effects, shape: string, hub: Hub): (w: NodeView)
  {
    NodeView(LastPaint(e.paints, v.cache), v.statuses + RenderAll(e.paints, shape, hub), v.sent + e.sends)
  }

  /**
   * Applying effects extends both traces and nothing else: one rendered status
   * per request and the sends as they are; the cache becomes the last request.
   */
  lemma ApplyExtends(v: NodeView, e: Effects, shape: string, hub: Hub)
    ensures var w := Apply(v, e, shape, hub);
            && |w.statuses| == |v.statuses| + |e.paints| && |w.sent| == |v.sent| + |e.sends|
            && w.statuses[..|v.statuses|] == v.statuses && w.sent[..|v.sent|] == v.sent
            && (forall i :: 0 <= i < |e.paints| ==> w.statuses[|v.statuses| + i] == Render(e.paints[i], shape, hub))
            && (forall i :: 0 <= i < |e.sends| ==> w.sent[|v.sent| + i] == e.sends[i])
            && (e.paints == [] ==> w.cache == v.cache)
            && (e.paints != [] ==> w.cache == e.paints[|e.paints| - 1])
  {
  }

  /** Applying two handlers' effects in turn is applying them joined. */
  lemma {:induction false} ApplyThen(v: NodeView, a: Effects, b: Effects, shape: string, hub: Hub)
    ensures Apply(Apply(v, a, shape, hub), b, shape, hub) == Apply(v, a.Then(b), shape, hub)
  {
    RenderAllAppend(a.paints, b.paints, shape, hub);
    assert (v.statuses + RenderAll(a.paints, shape, hub)) + RenderAll(b.paints, shape, hub)
        == v.statuses + RenderAll(a.paints + b.paints, shape, hub);
    assert (v.sent + a.sends) + b.sends == v.sent + (a.sends + b.sends);
  }

  lemma {:induction false} RenderAllAppend(ps: seq<Paint>, qs: seq<Paint>, shape: string, hub: Hub)
    ensures RenderAll(ps + qs, shape, hub) == RenderAll(ps, shape, hub) + RenderAll(qs, shape, hub)
  {
    if ps != [] {
      assert (ps + qs)[1..] == ps[1..] + qs;
      RenderAllAppend(ps[1..], qs, shape, hub);
    }
  }

  /** Rendering reads only the websocket flags, so a fetch changes nothing already rendered. */
  lemma {:induction false} ApplyRefetched(v: NodeView, e: Effects, shape: string, hub: Hub)
    ensures Apply(v, e, shape, Refetched(hub)) == Apply(v, e, shape, hub)
  {
    RenderAllRefetched(e.paints, shape, hub);
  }

  lemma {:induction false} RenderAllRefetched(ps: seq<Paint>, shape: string, hub: Hub)
    ensures RenderAll(ps, shape, Refetched(hub)) == RenderAll(ps, shape, hub)
  {
    if ps != [] {
      RenderAllRefetched(ps[1..], shape, hub);
    }
  }

  /**
   * A websocket open, close or error repaints the cached request: the cache is
   * unchanged and the new status is the cached request rendered for the hub's
   * current websocket state.
   */
  lemma {:induction false} RepaintKeepsCache(v: NodeView, shape: string, hub: Hub)
    ensures Apply(v, Effects([v.cache], []), shape, hub).cache == v.cache
    ensures Apply(v, Effects([v.cache], []), shape, hub).statuses == v.statuses + [Render(v.cache, shape, hub)]
  {
    assert RenderAll([v.cache], shape, hub) == [Render(v.cache, shape, hub)];
  }

  /**
   * A websocket error followed by a reopening restores the status asked for
   * before the error: the error overlay never reaches the cache.
   */
  lemma {:induction false} ReopenRestoresStatus(v: NodeView, shape: string, down: Hub, up: Hub)
    requires down.useWebsocket && !down.wsStatusOk
    requires up.useWebsocket && up.wsStatusOk
    ensures var v1 := Apply(v, Effects([v.cache], []), shape, down);
            var v2 := Apply(v1, Effects([v1.cache], []), shape, up);
            v2.cache == v.cache
            && v1.statuses[|v1.statuses| - 1] == Status(Some(Red), Some(shape), Some(WsErrorText))
            && v2.statuses[|v2.statuses| - 1] == Render(v.cache, shape, up)
  {
    RepaintKeepsCache(v, shape, down);
    var v1 := Apply(v, Effects([v.cache], []), shape, down);
    RepaintKeepsCache(v1, shape, up);
  }

  // ---------------------------------------------------------------------------
  // Initialization (initializeDevice)
  // ---------------------------------------------------------------------------

  /** The text shown for a watched attribute: `"<attr>: " + JSON.stringify(value)`. */
  function AttributeText(attr: string, value: Value, json: Value -> string): (t: string)
  {
    attr + ": " + json(value)
  }

  /** The blue status shown for a watched attribute's record. */
  function AttributePaint(attr: string, rec: AttrRecord, json: Value -> string): (p: Paint)
    ensures p.fill == Some(Blue) && p.text == Some(AttributeText(attr, rec.value, json))
  {
    Paint(Some(Blue), Some(AttributeText(attr, rec.value, json)))
  }

  /** The record of the configured attribute on the configured device, if both exist. */
  function WatchedRecord(cfg: Config, hub: Hub): (r: Option<AttrRecord>)
    requires cfg.attribute.Some?
  {
    Record(hub, cfg.deviceId, cfg.attribute.value)
  }

  /** The outcome of one initialization attempt: whether it succeeded, and what it painted. */
  datatype InitResult = InitResult(ok: bool, effects: Effects)

  function Initialize(cfg: Config, hub: Hub, fetchOk: bool, json: Value -> string): (r: InitResult)
    ensures r.effects.sends == [] && |r.effects.paints| <= 1
    ensures r.ok <==> fetchOk && (!Truthy(cfg.attribute) || WatchedRecord(cfg, hub).Some?)
    // fetch failure
    ensures !fetchOk ==> r.effects.paints == [Paint(Some(Red), Some(UninitializedText))]
    // every failure that paints, paints red
    ensures !r.ok ==> forall p :: p in r.effects.paints ==> p.fill == Some(Red)
    // the configured attribute is not on the device
    ensures fetchOk && Truthy(cfg.attribute) && DeviceAttributes(hub, cfg.deviceId).Some?
            && WatchedRecord(cfg, hub).None?
            ==> r.effects.paints == [Paint(Some(Red), Some(InvalidAttributeText))]
    // the configured device is not in the device map: a TypeError, nothing painted
    ensures fetchOk && Truthy(cfg.attribute) && DeviceAttributes(hub, cfg.deviceId).None?
            ==> r.effects.paints == []
    // success
    ensures r.ok && Truthy(cfg.attribute)
            ==> r.effects.paints == [AttributePaint(cfg.attribute.value, WatchedRecord(cfg, hub).value, json)]
    ensures r.ok && !Truthy(cfg.attribute) ==> r.effects.paints == [Paint(None, None)]
  {
    if !fetchOk then
      InitResult(false, Effects([Paint(Some(Red), Some(UninitializedText))], []))
    else if Truthy(cfg.attribute) then
      match DeviceAttributes(hub, cfg.deviceId)
      case None => InitResult(false, NoEffects)
      case Some(attrs) =>
        match Lookup(attrs, cfg.attribute.value)
        case None => InitResult(false, Effects([Paint(Some(Red), Some(InvalidAttributeText))], []))
        case Some(rec) => InitResult(true, Effects([AttributePaint(cfg.attribute.value, rec, json)], []))
    else
      InitResult(true, Effects([Paint(None, None)], []))
  }

  /** Initialization only when the hub has not fetched its devices yet (the handlers' guard). */
  function EnsureInitialized(cfg: Config, hub: Hub, fetchOk: bool, json: Value -> string): (r: InitResult)
    ensures hub.devicesInitialized ==> r == InitResult(true, NoEffects)
    ensures !hub.devicesInitialized ==> r == Initialize(cfg, hub, fetchOk, json)
  {
    if hub.devicesInitialized then InitResult(true, NoEffects) else Initialize(cfg, hub, fetchOk, json)
  }

  /** Initializing twice in a row leaves the same status and cache as initializing once. */
  lemma {:induction false} InitializeTwice(v: NodeView, cfg: Config, hub: Hub, fetchOk: bool, json: Value -> string, shape: string)
    requires Initialize(cfg, hub, fetchOk, json).effects.paints != []
    ensures var e := Initialize(cfg, hub, fetchOk, json).effects;
            var once := Apply(v, e, shape, hub);
            var twice := Apply(once, e, shape, hub);
            twice.cache == once.cache
            && twice.statuses[|twice.statuses| - 1] == once.statuses[|once.statuses| - 1]
            && twice.sent == once.sent
  {
    var e := Initialize(cfg, hub, fetchOk, json).effects;
    assert |e.paints| == 1;
  }

  // ---------------------------------------------------------------------------
  // Attribute events (eventCallback)
  // ---------------------------------------------------------------------------

  /** Whether the node cares about an event of this name: it watches that attribute, or all. */
  predicate Interested(cfg: Config, name: string)
  {
    cfg.attribute == Some(name) || !Truthy(cfg.attribute)
  }

  /** The part of eventCallback after initialization. */
  function Reconcile(cfg: Config, hub: Hub, e: Event, json: Value -> string): (r: Effects)
    ensures |r.paints| <= 1 && |r.sends| <= 1
    ensures r.sends != [] <==> cfg.sendEvent && Record(hub, cfg.deviceId, e.name).Some? && Interested(cfg, e.name)
    ensures r.sends != [] ==> r.sends[0] == Message(Merged(e, Record(hub, cfg.deviceId, e.name).value), cfg.topic, None)
    // an event name the device does not have
    ensures DeviceAttributes(hub, cfg.deviceId).Some? && Record(hub, cfg.deviceId, e.name).None?
            ==> r == Effects([Paint(Some(Red), Some("Unknown event: " + e.name))], [])
    // an event for another attribute than the watched one
    ensures Record(hub, cfg.deviceId, e.name).Some? && !Interested(cfg, e.name) ==> r == NoEffects
    // an event the node is interested in
    ensures Record(hub, cfg.deviceId, e.name).Some? && Interested(cfg, e.name) && Truthy(cfg.attribute)
            ==> r.paints == [AttributePaint(cfg.attribute.value, Record(hub, cfg.deviceId, e.name).value, json)]
    ensures Record(hub, cfg.deviceId, e.name).Some? && Interested(cfg, e.name) && !Truthy(cfg.attribute)
            ==> r.paints == [Paint(None, None)]
    // the device itself is missing: a TypeError, nothing happens
    ensures DeviceAttributes(hub, cfg.deviceId).None? ==> r == NoEffects
  {
    match DeviceAttributes(hub, cfg.deviceId)
    case None => NoEffects
    case Some(attrs) =>
      match Lookup(attrs, e.name)
      case None => Effects([Paint(Some(Red), Some("Unknown event: " + e.name))], [])
      case Some(rec) =>
        if Interested(cfg, e.name) then
          var paint := if Truthy(cfg.attribute) then AttributePaint(cfg.attribute.value, rec, json) else Paint(None, None);
          var sends := if cfg.sendEvent then [Message(Merged(e, rec), cfg.topic, None)] else [];
          Effects([paint], sends)
        else
          NoEffects
  }

  function OnEvent(cfg: Config, hub: Hub, fetchOk: bool, e: Event, json: Value -> string): (r: Effects)
    ensures |r.sends| <= 1
    ensures r.sends != [] ==> cfg.sendEvent && Interested(cfg, e.name)
    // initialization failed: nothing beyond its own effects
    ensures !EnsureInitialized(cfg, hub, fetchOk, json).ok ==> r == Initialize(cfg, hub, fetchOk, json).effects
    ensures hub.devicesInitialized ==> r == Reconcile(cfg, hub, e, json)
    ensures EnsureInitialized(cfg, hub, fetchOk, json).ok
            ==> r == EnsureInitialized(cfg, hub, fetchOk, json).effects.Then(Reconcile(cfg, hub, e, json))
  {
    var init := EnsureInitialized(cfg, hub, fetchOk, json);
    if !init.ok then init.effects else init.effects.Then(Reconcile(cfg, hub, e, json))
  }

  // ---------------------------------------------------------------------------
  // Resynchronisation (systemStartCallback)
  // ---------------------------------------------------------------------------

  /** The event fabricated for an attribute whose value changed while disconnected. */
  function SyntheticEvent(a: AttrRecord): (e: Event)
    ensures e.name == a.name && e.value == a.value
    ensures e.ToObj().Keys == {"name", "value", "currentValue", "descriptionText"}
    ensures "currentValue" in e.ToObj() && e.ToObj()["currentValue"] == Data(a.value)
    ensures "descriptionText" in e.ToObj() && e.ToObj()["descriptionText"] == Text(ResyncDescription)
  {
    var extra := map["currentValue" := Data(a.value), "descriptionText" := Text(ResyncDescription)];
    assert "currentValue" in extra && "descriptionText" in extra;
    Event(a.name, a.value, extra)
  }

  /** Whether looking up `previous[a.name].value` would throw. */
  predicate Unmatched(a: AttrRecord, previous: Option<Attributes>)
  {
    previous.None? || Lookup(previous.value, a.name).None?
  }

  /** Whether the attribute's value differs from the one in the previous snapshot. */
  predicate ChangedSince(a: AttrRecord, previous: Option<Attributes>)
    requires !Unmatched(a, previous)
  {
    a.value != Lookup(previous.value, a.name).value.value
  }

  /**
   * The filter over the current attribute records, mapped to synthetic events;
   * None when the filter throws because the previous snapshot is missing or
   * lacks one of the current names.
   */
  function Diff(current: Attributes, previous: Option<Attributes>): (r: Option<seq<Event>>)
    ensures r.None? <==> exists a :: a in current && Unmatched(a, previous)
    ensures r.Some? ==> |r.value| <= |current|
    ensures r.Some? ==> forall e :: e in r.value ==>
              exists a :: a in current && ChangedSince(a, previous) && e == SyntheticEvent(a)
    ensures r.Some? ==> forall a :: a in current && ChangedSince(a, previous) ==> SyntheticEvent(a) in r.value
  {
    if current == [] then Some([])
    else if Unmatched(current[0], previous) then None
    else
      match Diff(current[1..], previous)
      case None => None
      case Some(rest) =>
        if ChangedSince(current[0], previous) then Some([SyntheticEvent(current[0])] + rest) else Some(rest)
  }

  /** Number of occurrences of `e` in `es`. */
  function Occurrences(es: seq<Event>, e: Event): (n: nat)
  {
    multiset(es)[e]
  }

  /**
   * In a well-formed attribute object, the diff holds exactly one event for each
   * attribute whose value changed and none for an unchanged one.
   */
  lemma {:induction false} DiffExactlyOnce(current: Attributes, previous: Option<Attributes>, a: AttrRecord)
    requires DistinctNames(current)
    requires Diff(current, previous).Some?
    requires a in current
    ensures !Unmatched(a, previous)
    ensures Occurrences(Diff(current, previous).value, SyntheticEvent(a)) == if ChangedSince(a, previous) then 1 else 0
  {
    var head := current[0];
    var tail := current[1..];
    var rest := Diff(tail, previous).value;
    TailDistinct(current);
    if a == head {
      forall b | b in tail ensures b.name != a.name {
        var j :| 0 <= j < |tail| && tail[j] == b;
        assert current[j + 1] == b;
      }
      DiffOmitsName(tail, previous, a.name);
      assert SyntheticEvent(a) !in rest;
    } else {
      assert a in tail;
      DiffExactlyOnce(tail, previous, a);
      var i :| 0 <= i < |current| && current[i] == a;
      assert head.name != a.name;
      if ChangedSince(head, previous) {
        assert Diff(current, previous).value == [SyntheticEvent(head)] + rest;
        assert multiset([SyntheticEvent(head)] + rest) == multiset{SyntheticEvent(head)} + multiset(rest);
      }
    }
  }

  lemma TailDistinct(attrs: Attributes)
    requires attrs != [] && DistinctNames(attrs)
    ensures DistinctNames(attrs[1..])
  {
    forall i, j | 0 <= i < j < |attrs[1..]| ensures attrs[1..][i].name != attrs[1..][j].name {
      assert attrs[1..][i] == attrs[i + 1] && attrs[1..][j] == attrs[j + 1];
    }
  }

  /** No synthetic event carries a name that no current record carries. */
  lemma {:induction false} DiffOmitsName(current: Attributes, previous: Option<Attributes>, name: string)
    requires Diff(current, previous).Some?
    requires forall b :: b in current ==> b.name != name
    ensures forall e :: e in Diff(current, previous).value ==> e.name != name
  {
    if current != [] {
      assert forall b :: b in current[1..] ==> b in current;
      DiffOmitsName(current[1..], previous, name);
    }
  }

  /** The effects of feeding synthetic events one after another through eventCallback. */
  function FeedEvents(cfg: Config, hub: Hub, fetchOk: bool, events: seq<Event>, json: Value -> string): (r: Effects)
    ensures |r.sends| <= |events|
    ensures !cfg.sendEvent ==> r.sends == []
  {
    if events == [] then NoEffects
    else OnEvent(cfg, hub, fetchOk, events[0], json).Then(FeedEvents(cfg, hub, fetchOk, events[1..], json))
  }

  /** Feeding one more event extends the effects by that event's. */
  lemma {:induction false} FeedEventsSnoc(cfg: Config, hub: Hub, fetchOk: bool, events: seq<Event>, e: Event, json: Value -> string)
    ensures FeedEvents(cfg, hub, fetchOk, events + [e], json)
         == FeedEvents(cfg, hub, fetchOk, events, json).Then(OnEvent(cfg, hub, fetchOk, e, json))
  {
    var x := OnEvent(cfg, hub, fetchOk, e, json);
    if events == [] {
      assert [e][1..] == [];
      assert FeedEvents(cfg, hub, fetchOk, [e], json) == x.Then(NoEffects);
    } else {
      var longer := events + [e];
      assert longer[0] == events[0] && longer[1..] == events[1..] + [e];
      var h := OnEvent(cfg, hub, fetchOk, events[0], json);
      var t := FeedEvents(cfg, hub, fetchOk, events[1..], json);
      assert FeedEvents(cfg, hub, fetchOk, longer, json) == h.Then(FeedEvents(cfg, hub, fetchOk, events[1..] + [e], json));
      FeedEventsSnoc(cfg, hub, fetchOk, events[1..], e, json);
      assert FeedEvents(cfg, hub, fetchOk, events, json) == h.Then(t);
      ThenAssociative(h, t, x);
    }
  }

  lemma ThenAssociative(a: Effects, b: Effects, c: Effects)
    ensures a.Then(b.Then(c)) == a.Then(b).Then(c)
  {
    assert a.paints + (b.paints + c.paints) == (a.paints + b.paints) + c.paints;
    assert a.sends + (b.sends + c.sends) == (a.sends + b.sends) + c.sends;
  }

  /**
   * The effects of systemStartCallback. Its own initialization is unguarded and
   * completes before any event is replayed, so every replayed event meets a hub
   * whose device map has been fetched and skips the initialization guard.
   */
  function OnSystemStart(cfg: Config, hub: Hub, fetchOk: bool, json: Value -> string): (r: Effects)
    ensures !Initialize(cfg, hub, fetchOk, json).ok ==> r == Initialize(cfg, hub, fetchOk, json).effects
    ensures Initialize(cfg, hub, fetchOk, json).ok && DeviceAttributes(hub, cfg.deviceId).Some?
            && Diff(DeviceAttributes(hub, cfg.deviceId).value, PreviousAttributes(hub, cfg.deviceId)).Some?
            ==> r == Initialize(cfg, hub, fetchOk, json).effects.Then(
                       FeedEvents(cfg, Refetched(hub), fetchOk,
                         Diff(DeviceAttributes(hub, cfg.deviceId).value, PreviousAttributes(hub, cfg.deviceId)).value, json))
    // the device is missing after initialization: reading its attributes throws
    ensures Initialize(cfg, hub, fetchOk, json).ok && DeviceAttributes(hub, cfg.deviceId).None?
            ==> r == Initialize(cfg, hub, fetchOk, json).effects
    // the filter throws: initialization's effects only
    ensures DeviceAttributes(hub, cfg.deviceId).Some?
            && Diff(DeviceAttributes(hub, cfg.deviceId).value, PreviousAttributes(hub, cfg.deviceId)).None?
            ==> r == Initialize(cfg, hub, fetchOk, json).effects
  {
    var previous := PreviousAttributes(hub, cfg.deviceId);
    var init := Initialize(cfg, hub, fetchOk, json);
    if !init.ok then init.effects
    else
      match DeviceAttributes(hub, cfg.deviceId)
      case None => init.effects
      case Some(attrs) =>
        match Diff(attrs, previous)
        case None => init.effects
        case Some(events) => init.effects.Then(FeedEvents(cfg, Refetched(hub), fetchOk, events, json))
  }

  /**
   * Feeding synthetic events of a node that watches all attributes and forwards
   * events sends one message per event, in order, each carrying the current
   * record's name and value.
   */
  lemma {:induction false} FeedForwardsEach(cfg: Config, hub: Hub, fetchOk: bool, events: seq<Event>, json: Value -> string)
    requires hub.devicesInitialized
    requires cfg.sendEvent && !Truthy(cfg.attribute)
    requires forall e :: e in events ==> Record(hub, cfg.deviceId, e.name).Some?
    ensures FeedEvents(cfg, hub, fetchOk, events, json).sends == ForwardedAll(cfg, hub, events)
  {
    if events != [] {
      OnEventForwards(cfg, hub, fetchOk, events[0], json);
      assert forall e :: e in events[1..] ==> e in events;
      FeedForwardsEach(cfg, hub, fetchOk, events[1..], json);
    }
  }

  /** The messages forwarded for known events, one per event, in order. */
  function ForwardedAll(cfg: Config, hub: Hub, events: seq<Event>): (ms: seq<Message>)
    requires forall e :: e in events ==> Record(hub, cfg.deviceId, e.name).Some?
    ensures |ms| == |events|
  {
    if events == [] then []
    else
      assert forall e :: e in events[1..] ==> e in events;
      [Forwarded(cfg, hub, events[0])] + ForwardedAll(cfg, hub, events[1..])
  }

  /** The message forwarded in position `i` is the one for the `i`-th event. */
  lemma {:induction false} ForwardedAllAt(cfg: Config, hub: Hub, events: seq<Event>, i: nat)
    requires forall e :: e in events ==> Record(hub, cfg.deviceId, e.name).Some?
    requires i < |events|
    ensures ForwardedAll(cfg, hub, events)[i] == Forwarded(cfg, hub, events[i])
  {
    if i > 0 {
      assert forall e :: e in events[1..] ==> e in events;
      assert events[1..][i - 1] == events[i];
      ForwardedAllAt(cfg, hub, events[1..], i - 1);
    }
  }

  /** The message eventCallback forwards for an event whose attribute the device has. */
  function Forwarded(cfg: Config, hub: Hub, e: Event): (m: Message)
    requires Record(hub, cfg.deviceId, e.name).Some?
  {
    Message(Merged(e, Record(hub, cfg.deviceId, e.name).value), cfg.topic, None)
  }

  /**
   * A node that watches all attributes forwards every known event, once the hub
   * is initialized or the guard's own fetch succeeds.
   */
  lemma OnEventForwards(cfg: Config, hub: Hub, fetchOk: bool, e: Event, json: Value -> string)
    requires hub.devicesInitialized || fetchOk
    requires cfg.sendEvent && !Truthy(cfg.attribute)
    requires Record(hub, cfg.deviceId, e.name).Some?
    ensures OnEvent(cfg, hub, fetchOk, e, json).sends == [Forwarded(cfg, hub, e)]
  {
    var r := Reconcile(cfg, hub, e, json);
    assert |r.sends| == 1;
    assert EnsureInitialized(cfg, hub, fetchOk, json).ok;
  }

  /**
   * End to end: on system start, a node that watches all attributes and forwards
   * events sends exactly one message per changed attribute, in enumeration order;
   * each message carries the attribute's current name and value.
   */
  lemma {:induction false} ResyncForwardsChanges(cfg: Config, hub: Hub, json: Value -> string, attrs: Attributes, events: seq<Event>)
    requires cfg.sendEvent && !Truthy(cfg.attribute)
    requires DeviceAttributes(hub, cfg.deviceId) == Some(attrs) && DistinctNames(attrs)
    requires Diff(attrs, PreviousAttributes(hub, cfg.deviceId)) == Some(events)
    ensures OnSystemStart(cfg, hub, true, json).paints[0] == Paint(None, None)
    ensures |OnSystemStart(cfg, hub, true, json).sends| == |events|
    ensures forall i :: 0 <= i < |events| ==>
              var p := OnSystemStart(cfg, hub, true, json).sends[i].payload;
              && p.Merged? && "name" in Merge(p.event, p.record) && "value" in Merge(p.event, p.record)
              && Merge(p.event, p.record)["name"] == Text(events[i].name)
              && Merge(p.event, p.record)["value"] == Data(events[i].value)
  {
    var init := Initialize(cfg, hub, true, json);
    assert init == InitResult(true, Effects([Paint(None, None)], []));
    var after := Refetched(hub);
    var feed := FeedEvents(cfg, after, true, events, json);
    var r := OnSystemStart(cfg, hub, true, json);
    assert r == init.effects.Then(feed);
    DiffEventsKnown(cfg, hub, attrs, events);
    assert DeviceAttributes(after, cfg.deviceId) == Some(attrs);
    FeedForwardsEach(cfg, after, true, events, json);
    assert r.sends == feed.sends;
    forall i | 0 <= i < |events|
      ensures r.sends[i].payload.Merged?
      ensures var m := Merge(r.sends[i].payload.event, r.sends[i].payload.record);
              "name" in m && "value" in m && m["name"] == Text(events[i].name) && m["value"] == Data(events[i].value)
    {
      ForwardedAllAt(cfg, after, events, i);
      assert r.sends[i] == Forwarded(cfg, after, events[i]);
    }
  }

  /** Every synthetic event names a record of the device, whose value it carries. */
  lemma DiffEventsKnown(cfg: Config, hub: Hub, attrs: Attributes, events: seq<Event>)
    requires DeviceAttributes(hub, cfg.deviceId) == Some(attrs) && DistinctNames(attrs)
    requires Diff(attrs, PreviousAttributes(hub, cfg.deviceId)) == Some(events)
    ensures forall e :: e in events ==>
              Record(hub, cfg.deviceId, e.name).Some? && Record(hub, cfg.deviceId, e.name).value.value == e.value
  {
    forall e | e in events
      ensures Record(hub, cfg.deviceId, e.name).Some? && Record(hub, cfg.deviceId, e.name).value.value == e.value
    {
      DiffEventKnown(attrs, PreviousAttributes(hub, cfg.deviceId), e);
    }
  }

  lemma DiffEventKnown(attrs: Attributes, previous: Option<Attributes>, e: Event)
    requires DistinctNames(attrs)
    requires Diff(attrs, previous).Some? && e in Diff(attrs, previous).value
    ensures Lookup(attrs, e.name).Some? && Lookup(attrs, e.name).value.value == e.value
  {
    var a :| a in attrs && ChangedSince(a, previous) && e == SyntheticEvent(a);
    var i :| 0 <= i < |attrs| && attrs[i] == a;
    LookupFindsRecord(attrs, i);
  }

  /**
   * A replayed event never re-runs initialization: after the callback's own
   * fetch, eventCallback goes straight to reconciliation.
   */
  lemma ReplaySkipsGuard(cfg: Config, hub: Hub, fetchOk: bool, e: Event, json: Value -> string)
    ensures OnEvent(cfg, Refetched(hub), fetchOk, e, json) == Reconcile(cfg, hub, e, json)
  {
    assert DeviceAttributes(Refetched(hub), cfg.deviceId) == DeviceAttributes(hub, cfg.deviceId);
  }

  /**
   * Device 37 watches `switch`, which went from off to on while disconnected.
   * Whether or not the hub had reset its flag to force the refetch, system start
   * paints the attribute twice (initialization, then the replayed event) and
   * forwards one message carrying the new value.
   */
  lemma SwitchResyncExample(off: Value, on: Value, json: Value -> string, initialized: bool)
    requires off != on
    ensures var cfg := Config(Some("37"), Some("switch"), true, Some("lamp"));
            var hub := Hub(map["37" := Device([AttrRecord("switch", on, map[])])],
                           map["37" := Device([AttrRecord("switch", off, map[])])],
                           initialized, false, true);
            var r := OnSystemStart(cfg, hub, true, json);
            && r.paints == [Paint(Some(Blue), Some("switch: " + json(on))), Paint(Some(Blue), Some("switch: " + json(on)))]
            && |r.sends| == 1
            && r.sends[0].topic == Some("lamp")
            && r.sends[0].payload.Merged?
            && var m := Merge(r.sends[0].payload.event, r.sends[0].payload.record);
               "value" in m && m["value"] == Data(on)
               && "descriptionText" in m && m["descriptionText"] == Text(ResyncDescription)
  {
    var cfg := Config(Some("37"), Some("switch"), true, Some("lamp"));
    var rec := AttrRecord("switch", on, map[]);
    var hub := Hub(map["37" := Device([rec])], map["37" := Device([AttrRecord("switch", off, map[])])], initialized, false, true);
    var after := Refetched(hub);
    var was := AttrRecord("switch", off, map[]);
    var previous := Some([was]);
    var e := SyntheticEvent(rec);
    SwitchDiff(rec, was);
    assert PreviousAttributes(hub, cfg.deviceId) == previous;
    assert Initialize(cfg, hub, true, json).effects == Effects([AttributePaint("switch", rec, json)], []);
    assert [e][1..] == [];
    var paint := AttributePaint("switch", rec, json);
    var msg := Message(Merged(e, rec), Some("lamp"), None);
    assert Record(hub, cfg.deviceId, "switch") == Some(rec);
    assert Reconcile(cfg, hub, e, json) == Effects([paint], [msg]);
    ReplaySkipsGuard(cfg, hub, true, e, json);
    assert FeedEvents(cfg, after, true, [e], json) == Effects([paint], [msg]).Then(NoEffects);
    assert OnSystemStart(cfg, hub, true, json) == Effects([paint], []).Then(Effects([paint], [msg]).Then(NoEffects));
    assert "descriptionText" !in rec.ToObj();
    assert "switch" + ": " == "switch: ";
    assert paint == Paint(Some(Blue), Some("switch: " + json(on)));
  }

  /** The diff of the example above: the one `switch` record changed. */
  lemma SwitchDiff(now: AttrRecord, was: AttrRecord)
    requires now.name == "switch" && was.name == "switch" && now.value != was.value
    ensures Diff([now], Some([was])) == Some([SyntheticEvent(now)])
  {
    var previous := Some([was]);
    var e := SyntheticEvent(now);
    assert [now][1..] == [];
    assert Lookup([was], "switch") == Some(was);
    assert !Unmatched(now, previous) && ChangedSince(now, previous);
    assert Diff([], previous) == Some([]);
    assert [e] + [] == [e];
  }

  /**
   * Device 37 watches `switch`; only its `level` changed while disconnected.
   * System start paints the switch once, during initialization; the replayed
   * `level` event is ignored and nothing is forwarded.
   */
  lemma LevelResyncExample(on: Value, low: Value, high: Value, json: Value -> string, initialized: bool)
    requires low != high
    ensures var cfg := Config(Some("37"), Some("switch"), true, Some("lamp"));
            var hub := Hub(map["37" := Device([AttrRecord("switch", on, map[]), AttrRecord("level", high, map[])])],
                           map["37" := Device([AttrRecord("switch", on, map[]), AttrRecord("level", low, map[])])],
                           initialized, false, true);
            var r := OnSystemStart(cfg, hub, true, json);
            r.paints == [Paint(Some(Blue), Some("switch: " + json(on)))] && r.sends == []
  {
    var cfg := Config(Some("37"), Some("switch"), true, Some("lamp"));
    var sw := AttrRecord("switch", on, map[]);
    var lv := AttrRecord("level", high, map[]);
    var was := AttrRecord("level", low, map[]);
    var hub := Hub(map["37" := Device([sw, lv])], map["37" := Device([sw, was])], initialized, false, true);
    var previous := Some([sw, was]);
    var e := SyntheticEvent(lv);
    LevelDiff(sw, lv, was);
    assert [sw, lv][1..] == [lv] && [lv][1..] == [];
    assert PreviousAttributes(hub, cfg.deviceId) == previous;
    assert Lookup([sw, lv], "switch") == Some(sw);
    var paint := AttributePaint("switch", sw, json);
    assert Initialize(cfg, hub, true, json).effects == Effects([paint], []);
    assert Lookup([sw, lv], "level") == Some(lv);
    IgnoredReplay(cfg, hub, e, json);
    assert OnSystemStart(cfg, hub, true, json) == Effects([paint], []).Then(NoEffects);
    assert "switch" + ": " == "switch: ";
  }

  /** Replaying an event for an attribute the node does not watch has no effect. */
  lemma IgnoredReplay(cfg: Config, hub: Hub, e: Event, json: Value -> string)
    requires Record(hub, cfg.deviceId, e.name).Some? && !Interested(cfg, e.name)
    ensures FeedEvents(cfg, Refetched(hub), true, [e], json) == NoEffects
  {
    ReplaySkipsGuard(cfg, hub, true, e, json);
    assert [e][1..] == [];
    assert FeedEvents(cfg, Refetched(hub), true, [e], json) == NoEffects.Then(NoEffects);
  }

  /** The diff of the example above: only the `level` record changed. */
  lemma LevelDiff(sw: AttrRecord, lv: AttrRecord, was: AttrRecord)
    requires sw.name == "switch" && lv.name == "level" && was.name == "level" && lv.value != was.value
    ensures Diff([sw, lv], Some([sw, was])) == Some([SyntheticEvent(lv)])
  {
    var previous := Some([sw, was]);
    var e := SyntheticEvent(lv);
    assert [sw, lv][1..] == [lv] && [lv][1..] == [];
    assert [sw, was][1..] == [was];
    assert Lookup([sw, was], "switch") == Some(sw);
    assert Lookup([sw, was], "level") == Some(was);
    assert !Unmatched(sw, previous) && !ChangedSince(sw, previous);
    assert !Unmatched(lv, previous) && ChangedSince(lv, previous);
    assert Diff([], previous) == Some([]);
    assert [e] + [] == [e];
    assert Diff([lv], previous) == Some([e]);
  }

  // ---------------------------------------------------------------------------
  // Inbound requests (the input handler)
  // ---------------------------------------------------------------------------

  /** `msg.deviceId !== undefined ? msg.deviceId : node.deviceId`. */
  function ResolveDeviceId(req: Request, cfg: Config): (id: Option<string>)
    ensures req.deviceId.Some? ==> id == req.deviceId
    ensures req.deviceId.None? ==> id == cfg.deviceId
  {
    if req.deviceId.Some? then req.deviceId else cfg.deviceId
  }

  /** `msg.attribute || node.attribute`. */
  function ResolveAttribute(req: Request, cfg: Config): (a: Option<string>)
    ensures Truthy(req.attribute) ==> a == req.attribute
    ensures !Truthy(req.attribute) ==> a == cfg.attribute
  {
    if Truthy(req.attribute) then req.attribute else cfg.attribute
  }

  /** The outcome of an inbound request: its effects and its completion. */
  datatype Reply = Reply(effects: Effects, completion: Completion)

  /** The part of the input handler after initialization. */
  function Answer(cfg: Config, hub: Hub, req: Request, json: Value -> string): (r: Reply)
    // an error completion sends nothing and shows its own message in red
    ensures r.completion.Failed? ==> r.effects == Effects([Paint(Some(Red), Some(r.completion.message))], [])
    // a request that never completes has no effect (the device is missing: a TypeError)
    ensures r.completion == Pending ==> r.effects == NoEffects
    ensures r.completion == Pending <==> Truthy(ResolveDeviceId(req, cfg)) && DeviceAttributes(hub, ResolveDeviceId(req, cfg)).None?
    // success sends exactly one message: the request, with topic and payload set
    ensures r.completion == Done ==> |r.effects.sends| == 1 && r.effects.sends[0].topic == cfg.topic
                                      && r.effects.sends[0].request == Some(req)
    // no device id
    ensures !Truthy(ResolveDeviceId(req, cfg)) ==> r.completion == Failed(UndefinedDeviceIdText)
    // no attribute: the whole attribute object, status cleared
    ensures Truthy(ResolveDeviceId(req, cfg)) && DeviceAttributes(hub, ResolveDeviceId(req, cfg)).Some?
            && !Truthy(ResolveAttribute(req, cfg))
            ==> r.completion == Done && r.effects.paints == [Paint(None, None)]
                && r.effects.sends[0].payload == Whole(DeviceAttributes(hub, ResolveDeviceId(req, cfg)).value)
    // an attribute the device does not have
    ensures Truthy(ResolveDeviceId(req, cfg)) && DeviceAttributes(hub, ResolveDeviceId(req, cfg)).Some?
            && Truthy(ResolveAttribute(req, cfg))
            && Record(hub, ResolveDeviceId(req, cfg), ResolveAttribute(req, cfg).value).None?
            ==> r.completion == Failed("Invalid attribute: " + ResolveAttribute(req, cfg).value)
    // an attribute the device has: that record, and the status follows the configured attribute only
    ensures Truthy(ResolveDeviceId(req, cfg)) && Truthy(ResolveAttribute(req, cfg))
            && Record(hub, ResolveDeviceId(req, cfg), ResolveAttribute(req, cfg).value).Some?
            ==> var rec := Record(hub, ResolveDeviceId(req, cfg), ResolveAttribute(req, cfg).value).value;
                && r.completion == Done
                && r.effects.sends[0].payload == Single(rec.ToObj())
                && (!Truthy(cfg.attribute) ==> r.effects.paints == [Paint(None, None)])
                && (Truthy(cfg.attribute) && cfg.attribute.value == rec.name
                    ==> r.effects.paints == [AttributePaint(cfg.attribute.value, rec, json)])
                && (Truthy(cfg.attribute) && cfg.attribute.value != rec.name ==> r.effects.paints == [])
  {
    var id := ResolveDeviceId(req, cfg);
    if !Truthy(id) then
      Reply(Effects([Paint(Some(Red), Some(UndefinedDeviceIdText))], []), Failed(UndefinedDeviceIdText))
    else
      match DeviceAttributes(hub, id)
      case None => Reply(NoEffects, Pending)
      case Some(attrs) =>
        var searched := ResolveAttribute(req, cfg);
        if !Truthy(searched) then
          Reply(Effects([Paint(None, None)], [Message(Whole(attrs), cfg.topic, Some(req))]), Done)
        else
          match Lookup(attrs, searched.value)
          case None =>
            var msg := "Invalid attribute: " + searched.value;
            Reply(Effects([Paint(Some(Red), Some(msg))], []), Failed(msg))
          case Some(rec) =>
            var paints :=
              if !Truthy(cfg.attribute) then [Paint(None, None)]
              else if cfg.attribute.value == rec.name then [AttributePaint(cfg.attribute.value, rec, json)]
              else [];
            Reply(Effects(paints, [Message(Single(rec.ToObj()), cfg.topic, Some(req))]), Done)
  }

  function OnInput(cfg: Config, hub: Hub, fetchOk: bool, req: Request, json: Value -> string): (r: Reply)
    // initialization failed: no completion and nothing sent
    ensures !EnsureInitialized(cfg, hub, fetchOk, json).ok
            ==> r == Reply(Initialize(cfg, hub, fetchOk, json).effects, Pending) && r.effects.sends == []
    ensures hub.devicesInitialized ==> r == Answer(cfg, hub, req, json)
    ensures EnsureInitialized(cfg, hub, fetchOk, json).ok
            ==> r.completion == Answer(cfg, hub, req, json).completion
                && r.effects == EnsureInitialized(cfg, hub, fetchOk, json).effects.Then(Answer(cfg, hub, req, json).effects)
  {
    var init := EnsureInitialized(cfg, hub, fetchOk, json);
    if !init.ok then Reply(init.effects, Pending)
    else
      var answer := Answer(cfg, hub, req, json);
      Reply(init.effects.Then(answer.effects), answer.completion)
  }

  /** An explicit falsy device id in a request wins over the configured one and fails. */
  lemma FalsyOverrideFails(cfg: Config, hub: Hub, req: Request, json: Value -> string)
    requires req.deviceId == Some("")
    ensures Answer(cfg, hub, req, json).completion == Failed(UndefinedDeviceIdText)
  {
  }

  // ---------------------------------------------------------------------------
  // Subscriptions
  // ---------------------------------------------------------------------------

  /** The event names a node registers on the hub's event emitter at construction. */
  function Subscriptions(deviceId: Option<string>): (s: set<string>)
    ensures {WsOpenedEvent, WsClosedEvent, WsErrorEvent} <= s
    ensures Truthy(deviceId) ==> s == {"device." + deviceId.value, SystemStartEvent, WsOpenedEvent, WsClosedEvent, WsErrorEvent}
    ensures !Truthy(deviceId) ==> s == {WsOpenedEvent, WsClosedEvent, WsErrorEvent}
  {
    var ws := {WsOpenedEvent, WsClosedEvent, WsErrorEvent};
    if Truthy(deviceId) then {"device." + deviceId.value, SystemStartEvent} + ws else ws
  }
}
