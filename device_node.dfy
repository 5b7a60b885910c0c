/**
 * The "hubitat device" node as an object: its configuration, its status cache,
 * and the traces of what it handed to the status sink and to `send`. Each
 * method follows one handler of nodes/device.js step by step and is proved to
 * have exactly the effects its function in module Device describes.
 */
module DeviceNode {
  import opened Wrappers
  import opened Hubitat
  import opened Device

  class HubitatDeviceNode {
    const deviceId: Option<string>
    const attribute: Option<string>
    const sendEvent: bool
    const shape: string
    const topic: Option<string>
    /** JSON.stringify on attribute values. */
    const json: Value -> string

    var currentStatusFill: Option<string>
    var currentStatusText: Option<string>
    /** Every status object handed to the status sink, in order. */
    var statuses: seq<Status>
    /** Every message sent, in order. */
    var sent: seq<Message>
    /** The event names this node holds registrations for on the hub's emitter. */
    var listeners: set<string>

    function Settings(): Config
    {
      Config(deviceId, attribute, sendEvent, topic)
    }

    function View(): NodeView
      reads this
    {
      NodeView(Paint(currentStatusFill, currentStatusText), statuses, sent)
    }

    /** Construction: configuration, the subscriptions, and one initialization attempt. */
    constructor (name: Option<string>, deviceId: Option<string>, sendEvent: bool, attribute: Option<string>,
                 deviceLabel: Option<string>, json: Value -> string, hub: Hub, fetchOk: bool)
      ensures this.deviceId == deviceId && this.attribute == attribute && this.sendEvent == sendEvent
      ensures shape == ShapeFor(sendEvent) && topic == TopicFor(name, deviceLabel) && this.json == json
      ensures listeners == Subscriptions(deviceId)
      ensures View() == Apply(NodeView(Paint(None, Some("")), [], []),
                              Initialize(Settings(), hub, fetchOk, json).effects, shape, hub)
    {
      this.deviceId := deviceId;
      this.sendEvent := sendEvent;
      this.attribute := attribute;
      this.json := json;
      shape := if sendEvent then Dot else Ring;
      currentStatusText := Some("");
      currentStatusFill := None;
      topic := if Truthy(name) then name else deviceLabel;
      statuses := [];
      sent := [];
      listeners := {};
      new;
      if Truthy(deviceId) {
        listeners := listeners + {"device." + deviceId.value};
        listeners := listeners + {SystemStartEvent};
      }
      listeners := listeners + {WsOpenedEvent};
      listeners := listeners + {WsClosedEvent};
      listeners := listeners + {WsErrorEvent};
      assert listeners == Subscriptions(deviceId);
      assert View() == NodeView(Paint(None, Some("")), [], []);
      var initialized := InitializeDevice(hub, fetchOk);
    }

    /** updateStatus: remember the request, then build and hand over the status object. */
    method UpdateStatus(fill: Option<string>, text: Option<string>, hub: Hub)
      modifies this
      ensures currentStatusFill == fill && currentStatusText == text
      ensures statuses == old(statuses) + [Render(Paint(fill, text), shape, hub)]
      ensures sent == old(sent) && listeners == old(listeners)
    {
      var status := Status(fill, Some(shape), text);
      currentStatusText := text;
      currentStatusFill := fill;
      if fill.None? {
        status := status.(shape := None, fill := None);
      }
      if text.None? {
        status := status.(text := None);
      }
      if hub.useWebsocket {
        if fill.None? {
          status := status.(fill := Some(Green), shape := Some(shape));
        } else if fill == Some(Blue) {
          status := status.(fill := Some(Green));
        }
        if !hub.wsStatusOk {
          status := status.(fill := Some(Red), text := Some(WsErrorText));
        }
      }
      statuses := statuses + [status];
    }

    /** initializeDevice; `fetchOk` is the outcome of the hub's device fetch. */
    method InitializeDevice(hub: Hub, fetchOk: bool) returns (ok: bool)
      modifies this
      ensures ok == Initialize(Settings(), hub, fetchOk, json).ok
      ensures View() == Apply(old(View()), Initialize(Settings(), hub, fetchOk, json).effects, shape, hub)
      ensures listeners == old(listeners)
    {
      if !fetchOk {
        UpdateStatus(Some(Red), Some(UninitializedText), hub);
        return false;
      }
      if Truthy(attribute) {
        var attrs := DeviceAttributes(hub, deviceId);
        if attrs.None? {
          // reading `.attributes` of a missing device throws
          return false;
        }
        var rec := Lookup(attrs.value, attribute.value);
        if rec.None? {
          UpdateStatus(Some(Red), Some(InvalidAttributeText), hub);
          return false;
        }
        UpdateStatus(Some(Blue), Some(AttributeText(attribute.value, rec.value.value, json)), hub);
      } else {
        UpdateStatus(None, None, hub);
      }
      return true;
    }

    /** eventCallback. */
    method EventCallback(hub: Hub, fetchOk: bool, e: Event)
      modifies this
      ensures View() == Apply(old(View()), OnEvent(Settings(), hub, fetchOk, e, json), shape, hub)
      ensures listeners == old(listeners)
    {
      ghost var v0 := View();
      if !hub.devicesInitialized {
        var ok := InitializeDevice(hub, fetchOk);
        if !ok {
          return;
        }
      } else {
        assert v0 == Apply(v0, NoEffects, shape, hub);
      }
      ReconcileEvent(hub, e);
      ApplyThen(v0, EnsureInitialized(Settings(), hub, fetchOk, json).effects, Reconcile(Settings(), hub, e, json), shape, hub);
    }

    /** The part of eventCallback after initialization: look up, filter, paint, forward. */
    method ReconcileEvent(hub: Hub, e: Event)
      modifies this
      ensures View() == Apply(old(View()), Reconcile(Settings(), hub, e, json), shape, hub)
      ensures listeners == old(listeners)
    {
      var attrs := DeviceAttributes(hub, deviceId);
      if attrs.None? {
        // reading `.attributes` of a missing device throws
        assert View() == Apply(View(), NoEffects, shape, hub);
        return;
      }
      var rec := Lookup(attrs.value, e.name);
      if rec.None? {
        UpdateStatus(Some(Red), Some("Unknown event: " + e.name), hub);
        return;
      }
      if attribute == Some(e.name) || !Truthy(attribute) {
        if Truthy(attribute) {
          UpdateStatus(Some(Blue), Some(AttributeText(attribute.value, rec.value.value, json)), hub);
        } else {
          UpdateStatus(None, None, hub);
        }
        if sendEvent {
          sent := sent + [Message(Merged(e, rec.value), topic, None)];
        }
      } else {
        assert View() == Apply(View(), NoEffects, shape, hub);
      }
    }

    /** systemStartCallback: refetch, diff against the expired snapshot, replay the changes. */
    method SystemStartCallback(hub: Hub, fetchOk: bool)
      modifies this
      ensures View() == Apply(old(View()), OnSystemStart(Settings(), hub, fetchOk, json), shape, hub)
      ensures listeners == old(listeners)
    {
      ghost var cfg := Settings();
      ghost var init := Initialize(cfg, hub, fetchOk, json);
      var previous := PreviousAttributes(hub, deviceId);
      var ok := InitializeDevice(hub, fetchOk);
      if !ok {
        return;
      }
      var attrs := DeviceAttributes(hub, deviceId);
      if attrs.None? {
        // reading `.attributes` of a missing device throws
        assert OnSystemStart(cfg, hub, fetchOk, json) == init.effects;
        return;
      }
      var changed := Diff(attrs.value, previous);
      if changed.None? {
        // the filter reads `.value` of a missing previous record and throws
        return;
      }
      var events := changed.value;
      // the fetch completed: the replayed events pass the initialization guard
      var after := Refetched(hub);
      ghost var v1 := View();
      FeedAll(after, fetchOk, events);
      ghost var feed := FeedEvents(cfg, after, fetchOk, events, json);
      ApplyRefetched(v1, feed, shape, hub);
      ApplyThen(old(View()), init.effects, feed, shape, hub);
    }

    /** The forEach that feeds the synthetic events one by one through eventCallback. */
    method FeedAll(hub: Hub, fetchOk: bool, events: seq<Event>)
      modifies this
      ensures View() == Apply(old(View()), FeedEvents(Settings(), hub, fetchOk, events, json), shape, hub)
      ensures listeners == old(listeners)
    {
      ghost var v1 := View();
      assert v1 == Apply(v1, NoEffects, shape, hub);
      var i := 0;
      while i < |events|
        invariant 0 <= i <= |events|
        invariant View() == Apply(v1, FeedEvents(Settings(), hub, fetchOk, events[..i], json), shape, hub)
        invariant listeners == old(listeners)
      {
        ghost var done := FeedEvents(Settings(), hub, fetchOk, events[..i], json);
        EventCallback(hub, fetchOk, events[i]);
        ApplyThen(v1, done, OnEvent(Settings(), hub, fetchOk, events[i], json), shape, hub);
        assert events[..i + 1] == events[..i] + [events[i]];
        FeedEventsSnoc(Settings(), hub, fetchOk, events[..i], events[i], json);
        i := i + 1;
      }
      assert events[..|events|] == events;
    }

    /** wsOpened and wsClosed (the latter also bound to websocket-error): repaint the cache. */
    method Repaint(hub: Hub)
      modifies this
      ensures currentStatusFill == old(currentStatusFill) && currentStatusText == old(currentStatusText)
      ensures statuses == old(statuses) + [Render(Paint(old(currentStatusFill), old(currentStatusText)), shape, hub)]
      ensures sent == old(sent) && listeners == old(listeners)
    {
      UpdateStatus(currentStatusFill, currentStatusText, hub);
    }

    /** The input handler; the result is how `done` is called, if at all. */
    method Input(hub: Hub, fetchOk: bool, req: Request) returns (completion: Completion)
      modifies this
      ensures completion == OnInput(Settings(), hub, fetchOk, req, json).completion
      ensures View() == Apply(old(View()), OnInput(Settings(), hub, fetchOk, req, json).effects, shape, hub)
      ensures listeners == old(listeners)
    {
      ghost var v0 := View();
      if !hub.devicesInitialized {
        var ok := InitializeDevice(hub, fetchOk);
        if !ok {
          return Pending;
        }
      } else {
        assert v0 == Apply(v0, NoEffects, shape, hub);
      }
      completion := Respond(hub, req);
      ApplyThen(v0, EnsureInitialized(Settings(), hub, fetchOk, json).effects,
                Answer(Settings(), hub, req, json).effects, shape, hub);
    }

    /** The part of the input handler after initialization. */
    method Respond(hub: Hub, req: Request) returns (completion: Completion)
      modifies this
      ensures completion == Answer(Settings(), hub, req, json).completion
      ensures View() == Apply(old(View()), Answer(Settings(), hub, req, json).effects, shape, hub)
      ensures listeners == old(listeners)
    {
      ghost var answer := Answer(Settings(), hub, req, json);
      var id := if req.deviceId.Some? then req.deviceId else deviceId;
      if !Truthy(id) {
        UpdateStatus(Some(Red), Some(UndefinedDeviceIdText), hub);
        return Failed(UndefinedDeviceIdText);
      }
      var attrs := DeviceAttributes(hub, id);
      if attrs.None? {
        // reading `.attributes` of a missing device throws; `done` is never called
        assert View() == Apply(View(), NoEffects, shape, hub);
        return Pending;
      }
      var searched := if Truthy(req.attribute) then req.attribute else attribute;
      if !Truthy(searched) {
        sent := sent + [Message(Whole(attrs.value), topic, Some(req))];
        UpdateStatus(None, None, hub);
        assert answer == Reply(Effects([Paint(None, None)], [Message(Whole(attrs.value), topic, Some(req))]), Done);
        return Done;
      }
      var rec := Lookup(attrs.value, searched.value);
      if rec.None? {
        var errorMsg := "Invalid attribute: " + searched.value;
        UpdateStatus(Some(Red), Some(errorMsg), hub);
        return Failed(errorMsg);
      }
      var reply := Message(Single(rec.value.ToObj()), topic, Some(req));
      sent := sent + [reply];
      if !Truthy(attribute) {
        UpdateStatus(None, None, hub);
        assert answer == Reply(Effects([Paint(None, None)], [reply]), Done);
      } else if attribute.value == rec.value.name {
        UpdateStatus(Some(Blue), Some(AttributeText(attribute.value, rec.value.value, json)), hub);
        assert answer == Reply(Effects([AttributePaint(attribute.value, rec.value, json)], [reply]), Done);
      } else {
        assert answer == Reply(Effects([], [reply]), Done);
        assert View() == Apply(old(View()), Effects([], [reply]), shape, hub);
      }
      return Done;
    }

    /** The close handler: remove the registrations construction made. */
    method Close()
      modifies this
      ensures listeners == old(listeners) - Subscriptions(deviceId)
      ensures View() == old(View())
    {
      if Truthy(deviceId) {
        listeners := listeners - {"device." + deviceId.value};
        listeners := listeners - {SystemStartEvent};
      }
      listeners := listeners - {WsOpenedEvent};
      listeners := listeners - {WsClosedEvent};
      listeners := listeners - {WsErrorEvent};
    }
  }

  /** A node that is constructed and then closed holds no registration on the hub. */
  method CloseReleasesAll(name: Option<string>, deviceId: Option<string>, sendEvent: bool, attribute: Option<string>,
                          deviceLabel: Option<string>, json: Value -> string, hub: Hub, fetchOk: bool)
    returns (node: HubitatDeviceNode)
    ensures node.deviceId == deviceId && node.listeners == {}
  {
    node := new HubitatDeviceNode(name, deviceId, sendEvent, attribute, deviceLabel, json, hub, fetchOk);
    node.Close();
  }
}
