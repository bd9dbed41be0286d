/** Values shared between the panel and its host. The host owns the entity
    store and the devices, and the panel only reads them; payloads and service
    calls are what the panel builds and hands to the host. */
module Host {

  /** An optional value; stands for a JavaScript value that may be `undefined`. */
  datatype Option<+T> = None | Some(value: T)

  /** A JSON-like value: an entity state, an attribute, a record field or a
      service payload. */
  datatype Value =
    | Null
    | Bool(b: bool)
    | Num(n: real)
    | Str(s: string)
    | List(items: seq<Value>)
    | Obj(fields: map<string, Value>)

  /** One entity of the host's store: its state and its attribute bag. */
  datatype EntityState = EntityState(state: Value, attributes: map<string, Value>)

  /** The host's entity store (`hass.states`), keyed by entity id. */
  type Hass = map<string, EntityState>

  /** The ids of the entities that belong to one printer. */
  type PrinterEntities = set<string>

  /** A registered printer device. */
  datatype Device = Device(id: string, name: string, primaryConfigEntry: string)

  /** The device context every request for a device carries: its config
      entry and its id. */
  function DeviceContext(d: Device): (m: map<string, Value>)
    ensures m.Keys == {"config_entry", "device_id"}
    ensures m["config_entry"] == Str(d.primaryConfigEntry) && m["device_id"] == Str(d.id)
  {
    map["config_entry" := Str(d.primaryConfigEntry), "device_id" := Str(d.id)]
  }

  /** One request handed to the host's service transport:
      `callService(domain, service, data)`; `data` may be undefined. */
  datatype ServiceCall = ServiceCall(domain: string, service: string, data: Option<Value>)

  /** The integration's domain, under which all its services live. */
  const Platform: string := "anycubic_cloud"

  /** JavaScript truthiness of an optional string: undefined and "" are falsy. */
  predicate Truthy(s: Option<string>) {
    s.Some? && s.value != ""
  }
}
