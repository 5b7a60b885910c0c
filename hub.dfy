/**
 * The hub connection as a device node sees it: a read-only snapshot of the
 * shared configuration node that owns the device cache and the transport.
 * Attribute objects are JavaScript objects keyed by the attribute's name; they
 * are modelled by the sequence of their records in enumeration order
 * (the order `Object.values` yields them).
 */
module Hubitat {
  import opened Wrappers

  /** An attribute value. Dafny equality on it stands for JavaScript's strict equality. */
  type Value(==)

  /** A property of a plain JavaScript object: a piece of text or an attribute value. */
  datatype Field = Text(s: string) | Data(v: Value)

  /** A plain JavaScript object, as a map from property name to property value. */
  type Obj = map<string, Field>

  /**
   * The object `{name, value, ...extra}`: the named name and value, and every
   * other property as in `extra`.
   */
  function Props(name: string, value: Value, extra: Obj): (o: Obj)
    ensures o.Keys == extra.Keys + {"name", "value"}
    ensures o["name"] == Text(name) && o["value"] == Data(value)
    ensures forall k :: k in extra && k != "name" && k != "value" ==> o[k] == extra[k]
  {
    extra + map["name" := Text(name), "value" := Data(value)]
  }

  /** One attribute of a device: `{name, value, ...}`; `extra` holds its other properties. */
  datatype AttrRecord = AttrRecord(name: string, value: Value, extra: Obj)
  {
    /** The record as an object, as the spread `{...attribute}` copies it. */
    function ToObj(): Obj
    {
      Props(name, value, extra)
    }
  }

  /** An attribute event from the hub's event stream: `{name, value, ...}`. */
  datatype Event = Event(name: string, value: Value, extra: Obj)
  {
    function ToObj(): Obj
    {
      Props(name, value, extra)
    }
  }

  /** An attribute object in enumeration order; each record sits under its own name. */
  type Attributes = seq<AttrRecord>

  datatype Device = Device(attributes: Attributes)

  /**
   * The hub snapshot: the current device map, the snapshot taken before the
   * last resynchronisation, whether the device map has been fetched, whether the
   * hub talks over a websocket and whether that websocket is healthy.
   */
  datatype Hub = Hub(
    devices: map<string, Device>,
    expiredDevices: map<string, Device>,
    devicesInitialized: bool,
    useWebsocket: bool,
    wsStatusOk: bool)

  /**
   * The hub after a device fetch that completed: the configuration node then
   * holds an authoritative device map, so `devicesInitialized` is true.
   * Nothing else a device node reads changes.
   */
  function Refetched(hub: Hub): (h: Hub)
    ensures h.devicesInitialized
    ensures h.devices == hub.devices && h.expiredDevices == hub.expiredDevices
    ensures h.useWebsocket == hub.useWebsocket && h.wsStatusOk == hub.wsStatusOk
  {
    hub.(devicesInitialized := true)
  }

  /** Property lookup `attributes[name]`: the record filed under that name, if any. */
  function Lookup(attrs: Attributes, name: string): (r: Option<AttrRecord>)
    ensures r.Some? ==> r.value in attrs && r.value.name == name
    ensures r.None? <==> forall a :: a in attrs ==> a.name != name
  {
    if attrs == [] then None
    else if attrs[0].name == name then Some(attrs[0])
    else Lookup(attrs[1..], name)
  }

  /** A JavaScript object never holds two properties of one name. */
  ghost predicate DistinctNames(attrs: Attributes)
  {
    forall i, j :: 0 <= i < j < |attrs| ==> attrs[i].name != attrs[j].name
  }

  /** In a well-formed attribute object, looking up a record's name finds that record. */
  lemma {:induction false} LookupFindsRecord(attrs: Attributes, i: nat)
    requires DistinctNames(attrs)
    requires i < |attrs|
    ensures Lookup(attrs, attrs[i].name) == Some(attrs[i])
  {
    if i > 0 {
      assert attrs[0].name != attrs[i].name;
      assert attrs[1..][i - 1] == attrs[i];
      LookupFindsRecord(attrs[1..], i - 1);
    }
  }

  /** `devices[id].attributes`, or None where that expression would throw. */
  function DeviceAttributes(hub: Hub, id: Option<string>): (r: Option<Attributes>)
    ensures r.Some? <==> id.Some? && id.value in hub.devices
    ensures r.Some? ==> r.value == hub.devices[id.value].attributes
  {
    if id.Some? && id.value in hub.devices then Some(hub.devices[id.value].attributes) else None
  }

  /** `expiredDevices[id] ? expiredDevices[id].attributes : undefined`. */
  function PreviousAttributes(hub: Hub, id: Option<string>): (r: Option<Attributes>)
    ensures r.Some? <==> id.Some? && id.value in hub.expiredDevices
    ensures r.Some? ==> r.value == hub.expiredDevices[id.value].attributes
  {
    if id.Some? && id.value in hub.expiredDevices then Some(hub.expiredDevices[id.value].attributes) else None
  }

  /** `devices[id].attributes[name]`, or None when the device or the attribute is missing. */
  function Record(hub: Hub, id: Option<string>, name: string): (r: Option<AttrRecord>)
    ensures r.Some? ==> DeviceAttributes(hub, id).Some? && r.value in DeviceAttributes(hub, id).value
    ensures r.Some? ==> r.value.name == name
    ensures r.None? <==> DeviceAttributes(hub, id).None?
                         || forall a :: a in DeviceAttributes(hub, id).value ==> a.name != name
  {
    match DeviceAttributes(hub, id)
    case None => None
    case Some(attrs) => Lookup(attrs, name)
  }

  /** The event spread first and the record second: `{...event, ...attribute}`. */
  function Merge(e: Event, a: AttrRecord): (m: Obj)
    ensures m.Keys == e.ToObj().Keys + a.ToObj().Keys
    ensures forall k :: k in a.ToObj() ==> m[k] == a.ToObj()[k]
    ensures forall k :: k in e.ToObj() && k !in a.ToObj() ==> m[k] == e.ToObj()[k]
    ensures m["name"] == Text(a.name) && m["value"] == Data(a.value)
  {
    e.ToObj() + a.ToObj()
  }
}
