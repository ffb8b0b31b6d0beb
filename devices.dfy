/** Typed devices built from raw node records (`Device.fromNode` and the `Hub`,
    `Thermostat`, `ThermostatUi` and `Receiver` variants) and the accessors that read a
    node's feature records. */
module Devices {
  import opened Js
  import opened FeatureReader
  import opened Schedule
  import opened Requests

  const HubUri: string := "http://alertme.com/schema/json/node.class.hub.json#"
  const ThermostatUiUri: string := "http://alertme.com/schema/json/node.class.thermostatui.json#"
  const ThermostatUri: string := "http://alertme.com/schema/json/node.class.thermostat.json#"

  /** The device variants; `Generic` is the plain `Device`. */
  datatype DeviceType = Generic | Hub | Thermostat | ThermostatUi | Receiver {
    /** The `type` tag a device of this variant carries. */
    function Tag(): string {
      match this
      case Generic => "Device"
      case Hub => "hub"
      case Thermostat => "thermostat"
      case ThermostatUi => "thermostatUi"
      case Receiver => "receiver"
    }
  }

  /** `node.features && node.features.heating_thermostat_v1`. */
  predicate HasHeatingFeature(node: Json) {
    Truthy(Field(node, "features")) && Truthy(Field(Field(node, "features"), "heating_thermostat_v1"))
  }

  /** The variant `Device.fromNode` picks, by the first rule that matches. A receiver
      carries the thermostat URI without the heating feature. */
  function Classify(node: Json): (r: DeviceType)
    ensures r == Hub <==> Field(node, "nodeType") == Str(HubUri)
    ensures r == ThermostatUi <==> Field(node, "nodeType") == Str(ThermostatUiUri)
    ensures r == Thermostat <==> Field(node, "nodeType") == Str(ThermostatUri) && HasHeatingFeature(node)
    ensures r == Receiver <==> Field(node, "nodeType") == Str(ThermostatUri) && !HasHeatingFeature(node)
    ensures r == Generic <==>
              !Truthy(Field(node, "nodeType"))
              || Field(node, "nodeType") !in {Str(HubUri), Str(ThermostatUiUri), Str(ThermostatUri)}
  {
    var nodeType := Field(node, "nodeType");
    if !Truthy(nodeType) then Generic
    else if nodeType == Str(HubUri) then Hub
    else if nodeType == Str(ThermostatUiUri) then ThermostatUi
    else if nodeType == Str(ThermostatUri) && HasHeatingFeature(node) then Thermostat
    else if nodeType == Str(ThermostatUri) then Receiver
    else Generic
  }

  /** `response.data.nodes[0]`, which throws when the body has no node list. */
  function FirstNode(response: Json): (r: Result<Json, Thrown>)
    ensures r.Err? <==> Nullish(response) || Nullish(Field(response, "data"))
                        || Nullish(Field(Field(response, "data"), "nodes"))
    ensures r.Ok? ==> r.value == Elem(Field(Field(response, "data"), "nodes"), 0)
  {
    var data :- Read(response, "data");
    var nodes :- Read(data, "nodes");
    ReadAt(nodes, 0)
  }

  /** The body `Device.setTargetTemperature` sends. */
  function TargetBody(value: Json): (r: Json)
    ensures var node := Elem(Field(r, "nodes"), 0);
            Field(Field(Field(Field(node, "features"), "heating_thermostat_v1"), "targetHeatTemperature"), "targetValue")
              == value
  {
    Obj(map["nodes" := Arr([Obj(map["features" := Obj(map["heating_thermostat_v1" :=
      Obj(map["targetHeatTemperature" := Obj(map["targetValue" := value])])])])])])
  }

  /** A device: the node it was built from (replaced by `reload` and by setting the
      target temperature), its `id` and `name` taken from that first node, and its
      variant, whose tag is the device's `type`. */
  class Device {
    var node: Json
    const id: Json
    const name: Json
    const kind: DeviceType

    /** The variant constructor with `initialize(node)`, which reads `node.id`. */
    constructor (node: Json, kind: DeviceType)
      requires !Nullish(node)
      ensures this.node == node && id == Field(node, "id") && name == Field(node, "name")
      ensures this.kind == kind
    {
      this.node := node;
      id := Field(node, "id");
      name := Field(node, "name");
      this.kind := kind;
    }

    /** `Device.fromNode(node)`: a device of the variant `Classify` picks; reading
        `node.nodeType` throws on a null or undefined node. */
    static method FromNode(node: Json) returns (r: Result<Device, Thrown>)
      ensures r.Err? <==> Nullish(node)
      ensures r.Ok? ==> fresh(r.value)
      ensures r.Ok? ==> r.value.node == node && r.value.kind == Classify(node)
      ensures r.Ok? ==> r.value.id == Field(node, "id") && r.value.name == Field(node, "name")
    {
      if Nullish(node) {
        return Err(TypeError);
      }
      var device := new Device(node, Classify(node));
      r := Ok(device);
    }

    /** `lastSeen()`. */
    function LastSeen(): (r: Result<Json, Thrown>)
      reads this
      ensures r.Err? <==> Nullish(node)
      ensures r.Ok? ==> r.value == Field(node, "lastSeen")
    {
      Read(node, "lastSeen")
    }

    /** `reload(options)`: fetches the node again (`getNode(id, options)`) and stores
        what `getNode` resolves to; `id`, `name` and the variant stay as they were. */
    method Reload(options: Json, reply: Delivery) returns (settings: map<string, Json>, r: Result<(), Failure>)
      modifies this
      ensures settings == RequestSettings("GET", Obj(NodeParams(options)))
      ensures var o := Outcome(reply, DefaultAccepts);
              && (r.Ok? <==> o.Ok? && FirstNode(o.value).Ok?)
              && (o.Err? ==> r == Err(Rejected(o.error)))
              && (o.Ok? && FirstNode(o.value).Err? ==> r == Err(Crashed(TypeError)))
              && (r.Ok? ==> node == NormalizeResponse(FirstNode(o.value).value, o.value, options))
      ensures !r.Ok? ==> node == old(node)
    {
      var outcome;
      settings, outcome := Request("GET", Obj(NodeParams(options)), None, DefaultAccepts, reply);
      if outcome.Err? {
        return settings, Err(Rejected(outcome.error));
      }
      var first := FirstNode(outcome.value);
      if first.Err? {
        return settings, Err(Crashed(first.error));
      }
      var o := if Truthy(options) then options else Obj(map[]);
      node := NormalizeResponse(first.value, outcome.value, o);
      r := Ok(());
    }

    /** A thermostat's `setTargetTemperature(value)`: sends the new target in a PUT,
        stores the node the server returns and reads the target back from it. The node
        is left alone when anything fails. */
    method SetTargetTemperature(value: Json, reply: Delivery, parseFloat: Json -> Float)
      returns (settings: map<string, Json>, r: Result<Option<Float>, Failure>)
      requires kind == Thermostat
      modifies this
      ensures !Nullish(old(node)) ==> settings == RequestSettings("PUT", TargetBody(value))
      ensures Nullish(old(node)) ==> r == Err(Crashed(TypeError))
      ensures !Nullish(old(node)) ==>
                var o := Outcome(reply, DefaultAccepts);
                && (o.Err? ==> r == Err(Rejected(o.error)))
                && (o.Ok? && FirstNode(o.value).Err? ==> r == Err(Crashed(TypeError)))
                && (o.Ok? && FirstNode(o.value).Ok? ==>
                      node == FirstNode(o.value).value && r == Ok(GetTargetTemperature(node, parseFloat)))
      ensures r.Err? ==> node == old(node)
    {
      settings := map[];
      if Nullish(node) {
        return settings, Err(Crashed(TypeError));
      }
      var outcome;
      settings, outcome := Request("PUT", TargetBody(value), None, DefaultAccepts, reply);
      if outcome.Err? {
        return settings, Err(Rejected(outcome.error));
      }
      var first := FirstNode(outcome.value);
      if first.Err? {
        return settings, Err(Crashed(first.error));
      }
      node := first.value;
      r := Ok(GetTargetTemperature(node, parseFloat));
    }
  }

  /** `node.features ? node.features : {}`; reading `node.features` throws on a null or
      undefined node. Every feature read through the result reads the node's own. */
  function Features(node: Json): (r: Result<Json, Thrown>)
    ensures r.Err? <==> Nullish(node)
    ensures r.Ok? ==> forall k :: Field(r.value, k) == Field(Field(node, "features"), k)
  {
    var features :- Read(node, "features");
    Ok(if Truthy(features) then features else Obj(map[]))
  }

  /** The reported value of `property` in feature record `feature` of a node, or
      `undefined` when the record or the property is absent: what every
      `getReportedValue(features.<feature>, '<property>')` reads. */
  function Leaf(node: Json, feature: string, property: string): Json {
    var leaf := Field(Field(Field(node, "features"), feature), property);
    if Truthy(leaf) then Field(leaf, "reportedValue") else Undefined
  }

  /** Reading a feature of the normalized feature record agrees with `Leaf`, both the
      way `getReportedValue` and the way `getReportedValues` read it. */
  lemma LeafIsReported(node: Json, features: Json, feature: string, property: string)
    requires Features(node) == Ok(features)
    ensures GetReportedValue(Field(features, feature), Some(property), Undefined) == Leaf(node, feature, property)
    ensures ReportedOrDefault(Field(features, feature), property, Undefined) == Leaf(node, feature, property)
  {
    assert Field(features, feature) == Field(Field(node, "features"), feature);
  }

  /** `Device.getOnOff(node)`: `on_off_device_v1.mode`, ON or OFF. */
  function GetOnOff(node: Json): (r: Result<Json, Thrown>)
    ensures r.Err? <==> Nullish(node)
    ensures r.Ok? ==> r.value == Leaf(node, "on_off_device_v1", "mode")
  {
    var features :- Features(node);
    LeafIsReported(node, features, "on_off_device_v1", "mode");
    Ok(GetReportedValue(Field(features, "on_off_device_v1"), Some("mode"), Undefined))
  }

  /** `Device.getSignalStrength(node)`: `radio_device_v1.signalStrength`. */
  function GetSignalStrength(node: Json): (r: Result<Json, Thrown>)
    ensures r.Err? <==> Nullish(node)
    ensures r.Ok? ==> r.value == Leaf(node, "radio_device_v1", "signalStrength")
  {
    var features :- Features(node);
    LeafIsReported(node, features, "radio_device_v1", "signalStrength");
    Ok(GetReportedValue(Field(features, "radio_device_v1"), Some("signalStrength"), Undefined))
  }

  /** `Device.getTemperatureUnit(node)`: `thermostat_ui_v1.temperatureUnit`. */
  function GetTemperatureUnit(node: Json): (r: Result<Json, Thrown>)
    ensures r.Err? <==> Nullish(node)
    ensures r.Ok? ==> r.value == Leaf(node, "thermostat_ui_v1", "temperatureUnit")
  {
    var features :- Features(node);
    LeafIsReported(node, features, "thermostat_ui_v1", "temperatureUnit");
    Ok(GetReportedValue(Field(features, "thermostat_ui_v1"), Some("temperatureUnit"), Undefined))
  }

  const BatteryMapping: seq<(string, string)> :=
    [("batteryLevel", "batteryLevel"), ("batteryState", "batteryState"), ("batteryVoltage", "batteryVoltage")]

  const EthernetMapping: seq<(string, string)> :=
    [("ipAddress", "internalIPAddress"), ("macAddress", "macAddress")]

  const HubMapping: seq<(string, string)> :=
    [("state", "devicesState"), ("server", "serverConnectionState"), ("connection", "connection"),
     ("ethernet", "ethernetConnectionState"), ("uptime", "uptime")]

  const HeatingMapping: seq<(string, string)> := [("mode", "operatingMode"), ("isOn", "operatingState")]

  const TransientMapping: seq<(string, string)> :=
    [("actions", "actions"), ("duration", "duration"), ("start", "startDatetime"), ("end", "endDatetime")]

  lemma BatteryValues(node: Json, features: Json)
    requires Features(node) == Ok(features)
    ensures ValuesOf(Field(features, "battery_device_v1"), BatteryMapping, Undefined) ==
              map["batteryLevel" := Leaf(node, "battery_device_v1", "batteryLevel"),
                  "batteryState" := Leaf(node, "battery_device_v1", "batteryState"),
                  "batteryVoltage" := Leaf(node, "battery_device_v1", "batteryVoltage")]
  {
    var f, m, d := Field(features, "battery_device_v1"), BatteryMapping, Undefined;
    assert m[..0] == [];
    ValuesOfStep(f, m, d, 0);
    ValuesOfStep(f, m, d, 1);
    ValuesOfStep(f, m, d, 2);
    assert m[..3] == m;
    LeafIsReported(node, features, "battery_device_v1", "batteryLevel");
    LeafIsReported(node, features, "battery_device_v1", "batteryState");
    LeafIsReported(node, features, "battery_device_v1", "batteryVoltage");
  }

  lemma EthernetValues(node: Json, features: Json)
    requires Features(node) == Ok(features)
    ensures ValuesOf(Field(features, "ethernet_device_v1"), EthernetMapping, Undefined) ==
              map["ipAddress" := Leaf(node, "ethernet_device_v1", "internalIPAddress"),
                  "macAddress" := Leaf(node, "ethernet_device_v1", "macAddress")]
  {
    var f, m, d := Field(features, "ethernet_device_v1"), EthernetMapping, Undefined;
    assert m[..0] == [];
    ValuesOfStep(f, m, d, 0);
    ValuesOfStep(f, m, d, 1);
    assert m[..2] == m;
    LeafIsReported(node, features, "ethernet_device_v1", "internalIPAddress");
    LeafIsReported(node, features, "ethernet_device_v1", "macAddress");
  }

  lemma HubValues(node: Json, features: Json)
    requires Features(node) == Ok(features)
    ensures ValuesOf(Field(features, "hive_hub_v1"), HubMapping, Undefined) ==
              map["state" := Leaf(node, "hive_hub_v1", "devicesState"),
                  "server" := Leaf(node, "hive_hub_v1", "serverConnectionState"),
                  "connection" := Leaf(node, "hive_hub_v1", "connection"),
                  "ethernet" := Leaf(node, "hive_hub_v1", "ethernetConnectionState"),
                  "uptime" := Leaf(node, "hive_hub_v1", "uptime")]
  {
    var f, m, d := Field(features, "hive_hub_v1"), HubMapping, Undefined;
    assert m[..0] == [];
    ValuesOfStep(f, m, d, 0);
    ValuesOfStep(f, m, d, 1);
    ValuesOfStep(f, m, d, 2);
    ValuesOfStep(f, m, d, 3);
    ValuesOfStep(f, m, d, 4);
    assert m[..5] == m;
    LeafIsReported(node, features, "hive_hub_v1", "devicesState");
    LeafIsReported(node, features, "hive_hub_v1", "serverConnectionState");
    LeafIsReported(node, features, "hive_hub_v1", "connection");
    LeafIsReported(node, features, "hive_hub_v1", "ethernetConnectionState");
    LeafIsReported(node, features, "hive_hub_v1", "uptime");
  }

  lemma HeatingValues(node: Json, features: Json)
    requires Features(node) == Ok(features)
    ensures ValuesOf(Field(features, "heating_thermostat_v1"), HeatingMapping, Undefined) ==
              map["mode" := Leaf(node, "heating_thermostat_v1", "operatingMode"),
                  "isOn" := Leaf(node, "heating_thermostat_v1", "operatingState")]
  {
    var f, m, d := Field(features, "heating_thermostat_v1"), HeatingMapping, Undefined;
    assert m[..0] == [];
    ValuesOfStep(f, m, d, 0);
    ValuesOfStep(f, m, d, 1);
    assert m[..2] == m;
    LeafIsReported(node, features, "heating_thermostat_v1", "operatingMode");
    LeafIsReported(node, features, "heating_thermostat_v1", "operatingState");
  }

  lemma TransientValues(node: Json, features: Json)
    requires Features(node) == Ok(features)
    ensures ValuesOf(Field(features, "transient_mode_v1"), TransientMapping, Undefined) ==
              map["actions" := Leaf(node, "transient_mode_v1", "actions"),
                  "duration" := Leaf(node, "transient_mode_v1", "duration"),
                  "start" := Leaf(node, "transient_mode_v1", "startDatetime"),
                  "end" := Leaf(node, "transient_mode_v1", "endDatetime")]
  {
    var f, m, d := Field(features, "transient_mode_v1"), TransientMapping, Undefined;
    assert m[..0] == [];
    ValuesOfStep(f, m, d, 0);
    ValuesOfStep(f, m, d, 1);
    ValuesOfStep(f, m, d, 2);
    ValuesOfStep(f, m, d, 3);
    assert m[..4] == m;
    LeafIsReported(node, features, "transient_mode_v1", "actions");
    LeafIsReported(node, features, "transient_mode_v1", "duration");
    LeafIsReported(node, features, "transient_mode_v1", "startDatetime");
    LeafIsReported(node, features, "transient_mode_v1", "endDatetime");
  }

  /** `Device.getBattery(node)`: level, state and voltage from `battery_device_v1`. */
  function GetBattery(node: Json): (r: Result<map<string, Json>, Thrown>)
    ensures r.Err? <==> Nullish(node)
    ensures r.Ok? ==>
              r.value == map["batteryLevel" := Leaf(node, "battery_device_v1", "batteryLevel"),
                  "batteryState" := Leaf(node, "battery_device_v1", "batteryState"),
                  "batteryVoltage" := Leaf(node, "battery_device_v1", "batteryVoltage")]
  {
    var features :- Features(node);
    BatteryValues(node, features);
    Ok(ValuesOf(Field(features, "battery_device_v1"), BatteryMapping, Undefined))
  }

  /** `Device.getEthernetInfo(node)`: the hub's address and MAC from `ethernet_device_v1`. */
  function GetEthernetInfo(node: Json): (r: Result<map<string, Json>, Thrown>)
    ensures r.Err? <==> Nullish(node)
    ensures r.Ok? ==>
              r.value == map["ipAddress" := Leaf(node, "ethernet_device_v1", "internalIPAddress"),
                  "macAddress" := Leaf(node, "ethernet_device_v1", "macAddress")]
  {
    var features :- Features(node);
    EthernetValues(node, features);
    Ok(ValuesOf(Field(features, "ethernet_device_v1"), EthernetMapping, Undefined))
  }

  /** `Device.getHubStatus(node)`: the five connection states from `hive_hub_v1`. */
  function GetHubStatus(node: Json): (r: Result<map<string, Json>, Thrown>)
    ensures r.Err? <==> Nullish(node)
    ensures r.Ok? ==>
              r.value == map["state" := Leaf(node, "hive_hub_v1", "devicesState"),
                  "server" := Leaf(node, "hive_hub_v1", "serverConnectionState"),
                  "connection" := Leaf(node, "hive_hub_v1", "connection"),
                  "ethernet" := Leaf(node, "hive_hub_v1", "ethernetConnectionState"),
                  "uptime" := Leaf(node, "hive_hub_v1", "uptime")]
  {
    var features :- Features(node);
    HubValues(node, features);
    Ok(ValuesOf(Field(features, "hive_hub_v1"), HubMapping, Undefined))
  }

  /** `Device.getInfo(node)`: the same mapping of `hive_hub_v1` as `getHubStatus`. */
  function GetInfo(node: Json): (r: Result<map<string, Json>, Thrown>)
    ensures r == GetHubStatus(node)
    ensures r.Ok? ==> r.value.Keys == {"state", "server", "connection", "ethernet", "uptime"}
  {
    var features :- Features(node);
    HubValues(node, features);
    Ok(ValuesOf(Field(features, "hive_hub_v1"), HubMapping, Undefined))
  }

  /** The record `getHeatingStatus` returns. */
  datatype HeatingStatus = HeatingStatus(mode: Json, isOn: bool)

  /** `Device.getHeatingStatus(node)`: on exactly when the thermostat reports HEAT, and
      in mode OFF whenever the on/off feature says OFF. */
  function GetHeatingStatus(node: Json): (r: Result<HeatingStatus, Thrown>)
    ensures r.Err? <==> Nullish(node)
    ensures r.Ok? ==> (r.value.isOn <==> Leaf(node, "heating_thermostat_v1", "operatingState") == Str("HEAT"))
    ensures r.Ok? && Leaf(node, "on_off_device_v1", "mode") == Str("OFF") ==> r.value.mode == Str("OFF")
    ensures r.Ok? && Leaf(node, "on_off_device_v1", "mode") != Str("OFF") ==>
              r.value.mode == Leaf(node, "heating_thermostat_v1", "operatingMode")
  {
    var features :- Features(node);
    HeatingValues(node, features);
    var status := ValuesOf(Field(features, "heating_thermostat_v1"), HeatingMapping, Undefined);
    var isOn := status["isOn"] == Str("HEAT");
    LeafIsReported(node, features, "on_off_device_v1", "mode");
    if GetReportedValue(Field(features, "on_off_device_v1"), Some("mode"), Undefined) == Str("OFF")
    then Ok(HeatingStatus(Str("OFF"), isOn))
    else Ok(HeatingStatus(status["mode"], isOn))
  }

  /** `boost.start && Date.parse(boost.start)`: a falsy time is kept as it is. */
  datatype Stamp = Unparsed(raw: Json) | Parsed(time: Float)

  function Stamped(v: Json, dateParse: Json -> Float): Stamp {
    if Truthy(v) then Parsed(dateParse(v)) else Unparsed(v)
  }

  /** What the boost aims at: a parsed target temperature, or another attribute with its
      value. The two cases exclude each other. */
  datatype BoostTarget = TargetTemperature(temperature: Float) | TargetOther(attribute: Json, value: Json)

  /** `false`, or the boost record (`duration`, `start`, `end` and the target; there is
      no `actions` entry). */
  datatype BoostState = NoBoost | Boost(duration: Json, start: Stamp, end: Stamp, target: BoostTarget)

  /** The boost target of the first transient action. */
  function TargetOf(first: Json, parseFloat: Json -> Float): BoostTarget {
    if Field(first, "attribute") == Str("targetHeatTemperature")
    then TargetTemperature(parseFloat(Field(first, "value")))
    else TargetOther(Field(first, "attribute"), Field(first, "value"))
  }

  /** `Device.getBoost(node)`: no boost unless the thermostat's temporary override is
      exactly TRANSIENT; then the transient mode's duration, parsed start and end, and the
      target of its first action, which must be present. */
  function GetBoost(node: Json, parseFloat: Json -> Float, dateParse: Json -> Float): (r: Result<BoostState, Thrown>)
    ensures Nullish(node) ==> r.Err?
    ensures !Nullish(node) && Leaf(node, "heating_thermostat_v1", "temporaryOperatingModeOverride") != Str("TRANSIENT") ==>
              r == Ok(NoBoost)
    ensures !Nullish(node) && Leaf(node, "heating_thermostat_v1", "temporaryOperatingModeOverride") == Str("TRANSIENT") ==>
              var actions := Leaf(node, "transient_mode_v1", "actions");
              && (r.Err? <==> Nullish(actions) || Nullish(Elem(actions, 0)))
              && (r.Ok? ==> r.value == Boost(Leaf(node, "transient_mode_v1", "duration"),
                                             Stamped(Leaf(node, "transient_mode_v1", "startDatetime"), dateParse),
                                             Stamped(Leaf(node, "transient_mode_v1", "endDatetime"), dateParse),
                                             TargetOf(Elem(actions, 0), parseFloat)))
  {
    var features :- Features(node);
    LeafIsReported(node, features, "heating_thermostat_v1", "temporaryOperatingModeOverride");
    var mode := GetReportedValue(Field(features, "heating_thermostat_v1"), Some("temporaryOperatingModeOverride"), Undefined);
    if mode != Str("TRANSIENT") then Ok(NoBoost)
    else
      TransientValues(node, features);
      var boost := ValuesOf(Field(features, "transient_mode_v1"), TransientMapping, Undefined);
      var start := Stamped(boost["start"], dateParse);
      var end := Stamped(boost["end"], dateParse);
      var first :- ReadAt(boost["actions"], 0);
      var attribute :- Read(first, "attribute");
      var target :=
        if attribute == Str("targetHeatTemperature") then TargetTemperature(parseFloat(Field(first, "value")))
        else TargetOther(attribute, Field(first, "value"));
      Ok(Boost(boost["duration"], start, end, target))
  }

  /** `node.a.b.c.d` inside `try { ... } catch { return null }`: `None` when some value
      before the last key is null or undefined. */
  function ReadLeaf(node: Json, a: string, b: string, c: string, d: string): (r: Option<Json>)
    ensures r.None? <==> Nullish(node) || Nullish(Field(node, a)) || Nullish(Field(Field(node, a), b))
                         || Nullish(Field(Field(Field(node, a), b), c))
    ensures r.Some? ==> r.value == Field(Field(Field(Field(node, a), b), c), d)
  {
    var path := ReadPath(node, [a, b, c, d]);
    ReadPathIsWalk(node, [a, b, c, d]);
    assert [a, b, c, d][1..] == [b, c, d] && [b, c, d][1..] == [c, d] && [c, d][1..] == [d];
    var x := Field(node, a);
    var y := Field(x, b);
    var z := Field(y, c);
    assert Walk(z, [d]) == if Nullish(z) then None else Some(Field(z, d));
    assert Walk(y, [c, d]) == if Nullish(y) then None else Walk(z, [d]);
    assert Walk(x, [b, c, d]) == if Nullish(x) then None else Walk(y, [c, d]);
    assert Walk(node, [a, b, c, d]) == if Nullish(node) then None else Walk(x, [b, c, d]);
    if path.Ok? then Some(path.value) else None
  }

  /** `Device.getCurrentTemperature(node)`. */
  function GetCurrentTemperature(node: Json, parseFloat: Json -> Float): (r: Option<Float>)
    ensures r.Some? <==> ReadLeaf(node, "features", "temperature_sensor_v1", "temperature", "reportedValue").Some?
    ensures r.Some? ==>
              r.value == parseFloat(Field(Field(Field(Field(node, "features"), "temperature_sensor_v1"), "temperature"), "reportedValue"))
  {
    match ReadLeaf(node, "features", "temperature_sensor_v1", "temperature", "reportedValue")
    case Some(v) => Some(parseFloat(v))
    case None => None
  }

  /** `Device.getCurrentTemperatureTime(node)`. */
  function GetCurrentTemperatureTime(node: Json): (r: Option<Json>)
    ensures r.Some? <==> ReadLeaf(node, "features", "temperature_sensor_v1", "temperature", "reportReceivedTime").Some?
    ensures r.Some? ==>
              r.value == Field(Field(Field(Field(node, "features"), "temperature_sensor_v1"), "temperature"), "reportReceivedTime")
  {
    ReadLeaf(node, "features", "temperature_sensor_v1", "temperature", "reportReceivedTime")
  }

  /** `Device.getFrostProtectTemperature(node)`. */
  function GetFrostProtectTemperature(node: Json, parseFloat: Json -> Float): (r: Option<Float>)
    ensures r.Some? <==> ReadLeaf(node, "features", "frost_protect_v1", "frostProtectTemperature", "reportedValue").Some?
    ensures r.Some? ==>
              r.value == parseFloat(Field(Field(Field(Field(node, "features"), "frost_protect_v1"), "frostProtectTemperature"), "reportedValue"))
  {
    match ReadLeaf(node, "features", "frost_protect_v1", "frostProtectTemperature", "reportedValue")
    case Some(v) => Some(parseFloat(v))
    case None => None
  }

  /** `Device.getTargetTemperature(node)`: the target's `displayValue`, which holds a
      newly set target while `reportedValue` still holds the old one. */
  function GetTargetTemperature(node: Json, parseFloat: Json -> Float): (r: Option<Float>)
    ensures r.Some? <==> ReadLeaf(node, "features", "heating_thermostat_v1", "targetHeatTemperature", "displayValue").Some?
    ensures r.Some? ==>
              r.value == parseFloat(Field(Field(Field(Field(node, "features"), "heating_thermostat_v1"), "targetHeatTemperature"), "displayValue"))
  {
    match ReadLeaf(node, "features", "heating_thermostat_v1", "targetHeatTemperature", "displayValue")
    case Some(v) => Some(parseFloat(v))
    case None => None
  }

  /** `Device.isFrostProtect(node)`: the target temperature is exactly 1. */
  function IsFrostProtect(node: Json, parseFloat: Json -> Float): (r: bool)
    ensures r <==>
              ReadLeaf(node, "features", "heating_thermostat_v1", "targetHeatTemperature", "displayValue").Some?
              && parseFloat(Field(Field(Field(Field(node, "features"), "heating_thermostat_v1"), "targetHeatTemperature"), "displayValue"))
                 == Finite(1.0)
  {
    GetTargetTemperature(node, parseFloat) == Some(Finite(1.0))
  }

  /** What `parseSchedule(setpoints)` does with any value: reading `setpoints.length`
      throws on `null` and `undefined`; a non-empty string throws at its first
      character; any other value that is not an array has no `length` and gives seven
      empty lists. */
  function ParsedSetpoints(setpoints: Json): (r: Result<map<Weekday, seq<Slot>>, Thrown>)
    ensures Nullish(setpoints) ==> r == Err(TypeError)
    ensures setpoints.Arr? ==> r == ScheduleOf(setpoints.items)
    ensures setpoints.Str? ==> (r.Err? <==> setpoints.s != [])
    ensures setpoints.Str? && r.Ok? ==> r.value == EmptyWeek
    ensures !Nullish(setpoints) && !setpoints.Arr? && !setpoints.Str? ==> r == Ok(EmptyWeek)
  {
    match setpoints
    case Undefined => Err(TypeError)
    case Null => Err(TypeError)
    case Arr(items) => ScheduleOf(items)
    case Str(s) => if s == [] then Ok(EmptyWeek) else Err(TypeError)
    case _ => Ok(EmptyWeek)
  }

  /** The record `getHeatingSchedule` returns; `schedule` is `None` (undefined) when no
      schedule is reported. */
  datatype HeatingSchedule = HeatingSchedule(schedule: Option<map<Weekday, seq<Slot>>>, frostProtect: Option<Float>)

  /** `Device.getHeatingSchedule(node)`: the parsed `heatSchedule.setpoints` when the
      thermostat reports them, and the frost-protect temperature. */
  function GetHeatingSchedule(node: Json, parseFloat: Json -> Float): (r: Result<HeatingSchedule, Thrown>)
    ensures Nullish(node) ==> r.Err?
    ensures !Nullish(node) ==>
              var reported := Leaf(node, "heating_thermostat_v1", "heatSchedule");
              var setpoints := Field(reported, "setpoints");
              && (r.Err? <==> Truthy(reported) && Truthy(setpoints) && ParsedSetpoints(setpoints).Err?)
              && (r.Ok? ==> r.value.frostProtect == GetFrostProtectTemperature(node, parseFloat))
              && (r.Ok? ==> (r.value.schedule.Some? <==> Truthy(reported) && Truthy(setpoints)))
              && (r.Ok? && r.value.schedule.Some? ==> Ok(r.value.schedule.value) == ParsedSetpoints(setpoints))
  {
    var features :- Features(node);
    LeafIsReported(node, features, "heating_thermostat_v1", "heatSchedule");
    var reported := GetReportedValue(Field(features, "heating_thermostat_v1"), Some("heatSchedule"), Undefined);
    var frostProtect := GetFrostProtectTemperature(node, parseFloat);
    if Truthy(reported) && Truthy(Field(reported, "setpoints")) then
      var week :- ParsedSetpoints(Field(reported, "setpoints"));
      Ok(HeatingSchedule(Some(week), frostProtect))
    else Ok(HeatingSchedule(None, frostProtect))
  }

  /** A node without features, or with an empty feature record, reads as absent
      everywhere and never throws. */
  lemma EmptyNodeReadsNothing(node: Json, parseFloat: Json -> Float, dateParse: Json -> Float)
    requires node == Obj(map[]) || node == Obj(map["features" := Obj(map[])])
    ensures GetOnOff(node) == Ok(Undefined) && GetSignalStrength(node) == Ok(Undefined)
    ensures GetTemperatureUnit(node) == Ok(Undefined)
    ensures GetBattery(node) == Ok(map["batteryLevel" := Undefined, "batteryState" := Undefined, "batteryVoltage" := Undefined])
    ensures GetEthernetInfo(node) == Ok(map["ipAddress" := Undefined, "macAddress" := Undefined])
    ensures GetHubStatus(node) == Ok(map["state" := Undefined, "server" := Undefined, "connection" := Undefined,
                                         "ethernet" := Undefined, "uptime" := Undefined])
    ensures GetInfo(node) == GetHubStatus(node)
    ensures GetHeatingStatus(node) == Ok(HeatingStatus(Undefined, false))
    ensures GetBoost(node, parseFloat, dateParse) == Ok(NoBoost)
    ensures GetCurrentTemperature(node, parseFloat).None? && GetTargetTemperature(node, parseFloat).None?
    ensures GetCurrentTemperatureTime(node).None?
    ensures GetFrostProtectTemperature(node, parseFloat).None? && !IsFrostProtect(node, parseFloat)
    ensures GetHeatingSchedule(node, parseFloat) == Ok(HeatingSchedule(None, None))
  {
  }

  /** Just after a target is set the leaf holds the new target as `displayValue` and
      the old one as `reportedValue`; the accessor reads the new one. */
  lemma DisplayValueWins(node: Json, parseFloat: Json -> Float)
    requires node == Obj(map["features" := Obj(map["heating_thermostat_v1" := Obj(map["targetHeatTemperature" :=
                       Obj(map["displayValue" := Num(21.5), "reportedValue" := Num(19.0)])])])])
    ensures GetTargetTemperature(node, parseFloat) == Some(parseFloat(Num(21.5)))
  {
  }
}
