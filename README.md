# Hubitat device node, modelled in Dafny

This project models the "hubitat device" node of node-red-contrib-hubitat
(`nodes/device.js`). The node follows one Hubitat device, or one attribute of
it. It paints a status indicator from three inputs: its initialization state,
the attribute's value and the hub's websocket health. It forwards attribute
events downstream and answers inbound requests with the device's attribute
records. After a reconnect ("systemStart") it refetches the device map, diffs
it against the snapshot taken before the refetch, and replays one synthetic
event per changed attribute.

Files:

- `wrappers.dfy`: `Option`, for a value that may be absent (see below for how
  `undefined` and `null` map onto it, field by field).
- `hub.dfy` (module `Hubitat`): a read-only snapshot of the hub configuration
  node. It holds the device map, the expired-device map, the
  `devicesInitialized`, `useWebsocket` and `wsStatusOk` flags, attribute
  records and events, the property lookup `attributes[name]`, and the spread
  merge `{...event, ...attribute}`.
- `device.dfy` (module `Device`): the behaviour of every handler as a pure
  function, with the properties proved about it:
  - the status projection (`Render`);
  - initialization (`Initialize`);
  - event reconciliation (`Reconcile`, `OnEvent`);
  - the resync diff (`Diff`, `OnSystemStart`);
  - request handling (`Answer`, `OnInput`);
  - subscriptions (`Subscriptions`).

  A handler's result is its `Effects`: the `(fill, text)` pairs it asks
  `updateStatus` to paint, in order, and the messages it sends, in order.
- `device_node.dfy` (module `DeviceNode`): the node as a class
  `HubitatDeviceNode`. It holds the configuration, the status cache
  (`currentStatusFill`, `currentStatusText`), a trace of the status objects
  handed to the status sink, a trace of sent messages, and the registered
  event names. Each method follows its JavaScript handler statement by
  statement. Its postcondition states that the new observable state is the old
  one with that handler's `Effects` applied (`Apply`). The resync `forEach` is a
  `while` loop, with an invariant saying that the events fed so far have had
  exactly their `FeedEvents` effects.

Modelling choices:

- Attribute values have the opaque type `Value`. Its equality stands for
  JavaScript's `===`. `JSON.stringify` is the node's function parameter
  `json: Value -> string`, about which nothing is assumed.
- An attribute object is the sequence of its records in enumeration order (the
  order `Object.values` yields), each filed under its own `name`. A JavaScript
  object cannot hold two properties of one name; lemmas that rely on that
  require `DistinctNames`.
- Absent and falsy values, field by field. `Truthy` is JavaScript truthiness:
  `None` and `Some("")` are falsy.
  - A status request (`Paint`): `None` is `null`, and also an omitted or
    `undefined` argument, because the default parameters of `updateStatus`
    turn those into `null`. `Some("")` is an explicit `''`.
  - A request's `deviceId` (`Request.deviceId`): `None` is `undefined` only.
    An explicit `null`, `''` or `0` is `Some("")`: it passes the
    `!== undefined` test, wins over the configured id, and then fails as falsy.
  - A request's `attribute`, and the configured `deviceId`, `attribute`, name
    and label: these are only tested for truthiness or compared by value. So
    `None` stands for `undefined` or `null`, and `Some("")` for any other
    falsy value.
- When an expression in the source would throw a `TypeError`, the handler stops
  there with no further effect. This happens in three places:
  - reading `.attributes` of a device missing from `devices`;
  - reading `.value` of a record missing from the expired snapshot;
  - reading into a missing expired snapshot.

  An exception inside `initializeDevice` counts as an initialization failure,
  as every caller's `catch` makes it.
- The device fetch is a boolean outcome, `fetchOk`. A handler's `hub` is read
  in three ways:
  - its `devices` and websocket flags are the values the handler reads after
    any fetch it makes;
  - its `expiredDevices` is the value `systemStartCallback` reads at
    nodes/device.js:107, before its own fetch: the diff is against the
    snapshot taken before the refetch;
  - its `devicesInitialized` is the flag the guards at nodes/device.js:79 and
    nodes/device.js:146 read, before any fetch.

  The model takes it that the hub configuration node, which is not part of
  this model, sets `devicesInitialized` once a fetch completes. So the events
  that `systemStartCallback` replays after its own successful fetch meet a hub
  that is initialized (`Refetched(hub)`), and they go straight to
  reconciliation.

Three behaviours of the code are easy to miss; the model follows the code:

- The resync diff looks up `previousAttributes[attribute.name].value` for
  every current attribute. When the expired snapshot is missing, or lacks a
  name the current device has, the filter throws and no event at all is
  replayed. `Diff` returns `None` in exactly that case.
- On a successful request for one record, the status changes when the record
  is the configured attribute. It is also cleared when no attribute is
  configured (nodes/device.js:183-184). `Answer` does both.
- When the configured attribute is set but the configured device is absent
  from the device map, initialization fails with no status change (a
  `TypeError` at nodes/device.js:62).

## Model

| member | source | states |
|---|---|---|
| Device.ShapeFor | nodes/device.js:14 | the shape is `'dot'` exactly when the node forwards events, else `'ring'` |
| Device.TopicFor | nodes/device.js:18 | the topic is the node's name when that is truthy, otherwise the device label |
| Device.Render | nodes/device.js:30-49 | without a websocket: the requested fill and text, with a shape only when there is a fill. With a websocket: the shape is always present, the status is never neutral and never blue, null fill and blue both render green, and an unhealthy websocket forces `('red', 'WS ERROR')` |
| DeviceNode.HubitatDeviceNode.UpdateStatus | nodes/device.js:26-51 | the stepwise construction of the status object (deleting, then overwriting keys) hands over exactly `Render` of the request; the cache stores the request as given, before the overlay |
| Device.RenderAll | nodes/device.js:50 | one rendered status per paint request, in order |
| Device.ApplyExtends | nodes/device.js:26-29 | a handler's effects extend the status trace by one rendered status per request and the sent trace by its sends; the cache becomes the last request, or is unchanged when there is none |
| Device.ApplyThen | nodes/device.js:26-29 | applying two handlers' effects one after the other is the same as applying their concatenation |
| Device.RepaintKeepsCache | nodes/device.js:132-140 | a websocket open, close or error repaints the cached request: the cache is unchanged and the new status is the cached request rendered for the current hub |
| Device.ReopenRestoresStatus | nodes/device.js:132-140 | after an error repaint shows `('red','WS ERROR')`, a reopen repaint shows the status requested before the error again |
| DeviceNode.HubitatDeviceNode.Repaint | nodes/device.js:132-140 | `wsOpened`/`wsClosed`: re-submits the cached pair; the cache and the sent trace are unchanged |
| Hubitat.Lookup | nodes/device.js:62 | property lookup: a result is a record of that name held by the object; None exactly when no record has that name |
| Hubitat.LookupFindsRecord | nodes/device.js:114-115 | in an object with distinct names, looking up a record's own name finds that record |
| Hubitat.Record | nodes/device.js:86 | `devices[id].attributes[name]`: a found record belongs to that device and carries that name; None exactly when the device is missing or none of its records carries that name |
| Hubitat.Merge | nodes/device.js:100 | `{...event, ...attribute}` holds the keys of both; the record's properties win, and the event's other properties are kept |
| Hubitat.Props | nodes/device.js:180 | the object of a record or event (as `{...attribute}` copies it) holds its name, its value and its other properties |
| Device.Initialize | nodes/device.js:53-75 | success exactly when the fetch succeeds and either no attribute is configured or the configured attribute is on the device. Fetch failure paints `('red','Uninitialized')`; a missing attribute paints `('red','Invalid attribute')`; success paints blue `attr: json(value)`, or clears the status when no attribute is configured. Every failing paint is red and nothing is sent |
| DeviceNode.HubitatDeviceNode.InitializeDevice | nodes/device.js:53-75 | returns `Initialize`'s verdict and has exactly its effects |
| Device.EnsureInitialized | nodes/device.js:79-85 | the handlers' guard: no effects once the hub is initialized, otherwise one initialization attempt |
| Device.InitializeTwice | nodes/device.js:53-75 | initializing twice in a row leaves the same cache and final status as initializing once, and sends nothing |
| Device.Reconcile | nodes/device.js:86-103 | an unknown event name paints `('red','Unknown event: <name>')` and sends nothing; an event for another attribute has no effect; otherwise one paint (blue for a watched attribute, cleared when watching all). Exactly one send happens iff `sendEvent`, carrying the merge `{...event, ...attribute}` of the event and the device's record, and the node's topic |
| Device.OnEvent | nodes/device.js:77-104 | if initialization fails, nothing happens beyond its own effects; otherwise initialization's effects followed by `Reconcile`'s; at most one send, and only for an event the node is interested in |
| DeviceNode.HubitatDeviceNode.EventCallback | nodes/device.js:77-104 | has exactly `OnEvent`'s effects |
| DeviceNode.HubitatDeviceNode.ReconcileEvent | nodes/device.js:86-103 | has exactly `Reconcile`'s effects |
| Device.SyntheticEvent | nodes/device.js:118-123 | the fabricated event is exactly `{name, value, currentValue, descriptionText}`: it carries the attribute's name and value, `currentValue` equal to the value, and the resync description text |
| Device.Diff | nodes/device.js:114-115 | fails exactly when some current attribute has no previous record (the filter throws). Otherwise every event comes from a current attribute whose value changed, and every changed attribute yields its event |
| Device.DiffExactlyOnce | nodes/device.js:114-125 | with distinct names, the diff holds exactly one event per changed attribute and none per unchanged attribute |
| Device.FeedEvents | nodes/device.js:116-125 | feeding events through the event handler sends at most one message per event, and none when the node does not forward events |
| Device.FeedEventsSnoc | nodes/device.js:116-125 | feeding one more event appends that event's effects |
| Device.OnSystemStart | nodes/device.js:106-126 | if initialization fails, only its effects. If the device is missing afterwards, or the diff throws, only initialization's effects. Otherwise initialization's effects followed by those of each synthetic event in turn, fed to the event handler on the hub as it is after the completed fetch (so no replayed event re-runs initialization) |
| DeviceNode.HubitatDeviceNode.SystemStartCallback | nodes/device.js:106-126 | has exactly `OnSystemStart`'s effects; the loop runs on the refetched hub |
| DeviceNode.HubitatDeviceNode.FeedAll | nodes/device.js:116-125 | the `forEach` loop over the synthetic events has exactly `FeedEvents`'s effects |
| Device.OnEventForwards | nodes/device.js:77-102 | once the hub is initialized, or the guard's own fetch succeeds, a node that watches all attributes and forwards events sends exactly the merged message for every known event |
| Device.FeedForwardsEach | nodes/device.js:116-125 | for such a node on an initialized hub, feeding known events sends exactly `ForwardedAll`: one merged message per event, in order |
| Device.DiffEventsKnown | nodes/device.js:114-124 | every synthetic event names a current record of the device and carries that record's value |
| Device.ResyncForwardsChanges | nodes/device.js:106-126 | on system start with a successful fetch, whatever the flag was before it, a node that watches all attributes and forwards events clears its status. It then sends exactly one message per changed attribute, in order, each carrying that attribute's current name and value |
| Device.SwitchResyncExample | nodes/device.js:106-126 | device 37 with `switch` changed from off to on, with the flag set or reset before the refetch: two blue `switch: <on>` paints and one forwarded message carrying the new value and the resync description |
| Device.LevelResyncExample | nodes/device.js:106-126 | device 37 watching `switch` where only `level` changed, with the flag set or reset: one blue `switch: <on>` paint from initialization; the replayed `level` event is ignored and nothing is sent |
| Device.ReplaySkipsGuard | nodes/device.js:77-104 | an event replayed after the callback's own fetch has exactly `Reconcile`'s effects: it never re-runs initialization |
| Device.ForwardedAllAt | nodes/device.js:100-101 | the `i`-th forwarded message is the merged message for the `i`-th event |
| Device.ResolveDeviceId | nodes/device.js:154 | a request's device id wins whenever it is not undefined, otherwise the configured id |
| Device.ResolveAttribute | nodes/device.js:162 | a truthy requested attribute wins, otherwise the configured attribute |
| Device.Answer | nodes/device.js:154-188 | an error completion sends nothing and paints its own message in red. No (truthy) device id fails with `Undefined device ID`. No attribute sends the whole attribute object and clears the status. A missing attribute fails with `Invalid attribute: <name>`. A found attribute sends a copy of that record; the status is cleared when no attribute is configured, painted when the configured attribute is the record's name, and otherwise unchanged. Every success sends exactly one message with the node's topic |
| Device.OnInput | nodes/device.js:144-189 | if initialization fails, the request never completes and nothing is sent; otherwise initialization's effects followed by `Answer`'s, with `Answer`'s completion |
| Device.FalsyOverrideFails | nodes/device.js:154-160 | an explicit falsy device id in a request overrides the configured one and fails |
| DeviceNode.HubitatDeviceNode.Input | nodes/device.js:144-189 | returns `OnInput`'s completion and has exactly its effects |
| DeviceNode.HubitatDeviceNode.Respond | nodes/device.js:154-188 | returns `Answer`'s completion and has exactly its effects |
| Device.Subscriptions | nodes/device.js:127-140 | exactly the device, systemStart and three websocket names when the node has a truthy device id; exactly the three websocket names otherwise |
| DeviceNode.HubitatDeviceNode.constructor | nodes/device.js:10-142 | shape, topic and configuration as given; registers exactly `Subscriptions(deviceId)`; the cache starts as `(undefined, '')`, then one initialization attempt has its effects |
| DeviceNode.HubitatDeviceNode.Close | nodes/device.js:191-200 | removes exactly the registrations made at construction and changes nothing else |
| DeviceNode.CloseReleasesAll | nodes/device.js:191-200 | a node constructed and then closed holds no registration |

## Left out

- Node-RED plumbing is not modelled: `RED.nodes.createNode`, `getNode`,
  `registerType`, and the early return when no server is configured
  (nodes/device.js:7-9, 21-24, 203). These are host framework calls. The
  status and send sinks are modelled only as traces.
- The fetch is not modelled: `devicesFetcher` is a boolean outcome, and the
  device maps are one snapshot per handler. How the fetch fills `devices` and
  `expiredDevices` belongs to the hub; of its effect on the flag, only
  `Refetched` (the flag is true after a completed fetch) is modelled, where
  `systemStartCallback` relies on it.
- Concurrency is not modelled. The unawaited `eventCallback` calls in the
  resync `forEach` and the unawaited initialization at construction run to
  completion in order. Once the hub is initialized, `eventCallback` has no
  await, so replaying events in order matches the source there. Before that,
  interleaving of concurrent initializations is not captured.
- Logging (`node.log`, `warn`, `debug`) is not modelled: it has no observable
  effect on status, sends or completion.
- How `doneWithId` formats its error is not modelled (./utils/done-with-id is
  not part of this model). An error completion is `Failed(message)`.
- `JSON.stringify` is abstract: its output is the `json` parameter, and
  nothing is assumed about it.
- Hub event-emitter internals are not modelled. Only the set of event names
  the node registers is modelled, not handler identity or other nodes'
  listeners.
- Odd JavaScript property lookups are not modelled. These are inherited
  properties such as `attributes['constructor']`, and `devices[undefined]`
  reading a key named `"undefined"`. Device ids and attribute names are
  strings; a numeric id given in a request is treated as its string form.
- The property order of merged and copied objects is not modelled (`Obj` is a
  map); only which keys they hold and their values are.
