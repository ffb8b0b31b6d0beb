/** Sorting classified devices into the five collections `getDevices` returns
    (`parseDevicesFromNodes`). */
module Partition {
  import opened Js
  import opened Devices

  /** The collections: `hubs`, `receivers`, `thermostats`, `thermostatUis`, `other`. */
  datatype Bucket = Hubs | Receivers | Thermostats | ThermostatUis | Other

  /** `typeMapping`: the type tags that have a collection of their own. */
  const TypeMapping: map<string, Bucket> :=
    map["hub" := Hubs, "receiver" := Receivers, "thermostat" := Thermostats, "thermostatUi" := ThermostatUis]

  /** The collection a device of variant `kind` is pushed onto. The plain `Device` tag
      has no entry in the mapping, so generic devices go to `other`. */
  function BucketOf(kind: DeviceType): (r: Bucket)
    ensures r == Hubs <==> kind == Hub
    ensures r == Receivers <==> kind == Receiver
    ensures r == Thermostats <==> kind == Thermostat
    ensures r == ThermostatUis <==> kind == ThermostatUi
    ensures r == Other <==> kind == Generic
  {
    if kind.Tag() in TypeMapping then TypeMapping[kind.Tag()] else Other
  }

  /** The nodes that end up in collection `b`, in input order. */
  function Select(nodes: seq<Json>, b: Bucket): seq<Json>
    decreases |nodes|
  {
    if nodes == [] then []
    else
      var rest := Select(nodes[..|nodes| - 1], b);
      var node := nodes[|nodes| - 1];
      if BucketOf(Classify(node)) == b then rest + [node] else rest
  }

  /** The five collections of devices. */
  datatype DeviceLists = DeviceLists(hubs: seq<Device>, receivers: seq<Device>, thermostats: seq<Device>,
                                     thermostatUis: seq<Device>, other: seq<Device>)
  {
    function In(b: Bucket): seq<Device> {
      match b
      case Hubs => hubs
      case Receivers => receivers
      case Thermostats => thermostats
      case ThermostatUis => thermostatUis
      case Other => other
    }

    /** `typeMapping[device.type].push(device)` (or `devices.other.push(device)`). */
    function Push(b: Bucket, device: Device): (r: DeviceLists)
      ensures forall c :: r.In(c) == if c == b then In(c) + [device] else In(c)
    {
      match b
      case Hubs => this.(hubs := hubs + [device])
      case Receivers => this.(receivers := receivers + [device])
      case Thermostats => this.(thermostats := thermostats + [device])
      case ThermostatUis => this.(thermostatUis := thermostatUis + [device])
      case Other => this.(other := other + [device])
    }
  }

  const NoDevices: DeviceLists := DeviceLists([], [], [], [], [])

  /** The nodes the devices of a list own. */
  function NodesOf(devices: seq<Device>): (r: seq<Json>)
    reads devices
    ensures |r| == |devices|
    ensures forall k :: 0 <= k < |devices| ==> r[k] == devices[k].node
  {
    if devices == [] then [] else NodesOf(devices[..|devices| - 1]) + [devices[|devices| - 1].node]
  }

  /** The variant of every device of a list puts it in collection `b`. */
  predicate AllIn(devices: seq<Device>, b: Bucket) {
    forall k :: 0 <= k < |devices| ==> BucketOf(devices[k].kind) == b
  }

  /** All the devices of the five collections, in the order the fields are listed. */
  function Flat(lists: DeviceLists): seq<Device> {
    lists.hubs + lists.receivers + lists.thermostats + lists.thermostatUis + lists.other
  }

  /** No device object appears twice, within one collection or across two. */
  predicate Distinct(lists: DeviceLists) {
    forall d :: d in Flat(lists) ==> multiset(Flat(lists))[d] == 1
  }

  /** Pushing a device that is in no collection yet keeps the devices distinct. */
  lemma PushDistinct(lists: DeviceLists, b: Bucket, device: Device)
    requires Distinct(lists)
    requires device !in Flat(lists)
    ensures Distinct(lists.Push(b, device))
  {
    assert multiset(Flat(lists.Push(b, device))) == multiset(Flat(lists)) + multiset{device};
  }

  /** A push adds only the pushed device. */
  lemma PushMembers(lists: DeviceLists, b: Bucket, device: Device)
    ensures forall c, d :: d in lists.Push(b, device).In(c) ==> d in lists.In(c) || d == device
  {
  }

  /** The `id` and `name` of each device of a list. */
  function Labels(devices: seq<Device>): (r: seq<(Json, Json)>)
    ensures |r| == |devices|
    decreases |devices|
  {
    if devices == [] then []
    else Labels(devices[..|devices| - 1]) + [(devices[|devices| - 1].id, devices[|devices| - 1].name)]
  }

  /** The `id` and `name` of each node of a list. */
  function LabelsOf(nodes: seq<Json>): (r: seq<(Json, Json)>)
    ensures |r| == |nodes|
    decreases |nodes|
  {
    if nodes == [] then []
    else LabelsOf(nodes[..|nodes| - 1]) + [(Field(nodes[|nodes| - 1], "id"), Field(nodes[|nodes| - 1], "name"))]
  }

  /** Collection `b` after the nodes `nodes`: their devices, in order, all of variants
      that belong in `b`. */
  predicate Holds(devices: seq<Device>, nodes: seq<Json>, b: Bucket)
    reads devices
  {
    NodesOf(devices) == Select(nodes, b) && AllIn(devices, b)
  }

  /** Every collection after the nodes `nodes` carries the `id` and `name` of those
      nodes, in order. */
  predicate Labelled(lists: DeviceLists, nodes: seq<Json>) {
    forall b :: Labels(lists.In(b)) == LabelsOf(Select(nodes, b))
  }

  /** One more node extends exactly the collection of its variant. */
  lemma SelectPush(nodes: seq<Json>, node: Json, b: Bucket)
    ensures Select(nodes + [node], b) == Select(nodes, b) + if BucketOf(Classify(node)) == b then [node] else []
  {
    assert (nodes + [node])[..|nodes|] == nodes;
  }

  lemma NodesOfPush(devices: seq<Device>, device: Device)
    ensures NodesOf(devices + [device]) == NodesOf(devices) + [device.node]
  {
    assert (devices + [device])[..|devices|] == devices;
  }

  /** Pushing the device of `node` onto the collection of its variant keeps every
      collection right. */
  lemma PushHolds(devices: DeviceLists, nodes: seq<Json>, device: Device, node: Json)
    requires forall b :: Holds(devices.In(b), nodes, b)
    requires device.node == node && device.kind == Classify(node)
    ensures forall b :: Holds(devices.Push(BucketOf(device.kind), device).In(b), nodes + [node], b)
  {
    forall b
      ensures Holds(devices.Push(BucketOf(device.kind), device).In(b), nodes + [node], b)
    {
      SelectPush(nodes, node, b);
      NodesOfPush(devices.In(b), device);
    }
  }

  /** Pushing the device of `node` keeps every collection labelled after its nodes. */
  lemma PushLabelled(devices: DeviceLists, nodes: seq<Json>, device: Device, node: Json)
    requires Labelled(devices, nodes)
    requires device.kind == Classify(node)
    requires device.id == Field(node, "id") && device.name == Field(node, "name")
    ensures Labelled(devices.Push(BucketOf(device.kind), device), nodes + [node])
  {
    forall b
      ensures Labels(devices.Push(BucketOf(device.kind), device).In(b)) == LabelsOf(Select(nodes + [node], b))
    {
      SelectPush(nodes, node, b);
      LabelsPush(devices.In(b), device);
      LabelsOfPush(Select(nodes, b), node);
    }
  }

  lemma LabelsPush(devices: seq<Device>, device: Device)
    ensures Labels(devices + [device]) == Labels(devices) + [(device.id, device.name)]
  {
    assert (devices + [device])[..|devices|] == devices;
  }

  lemma LabelsOfPush(nodes: seq<Json>, node: Json)
    ensures LabelsOf(nodes + [node]) == LabelsOf(nodes) + [(Field(node, "id"), Field(node, "name"))]
  {
    assert (nodes + [node])[..|nodes|] == nodes;
  }

  /** Equal label lists name each device after the node at the same position. */
  lemma {:induction false} NamedAfterNodes(devices: seq<Device>, nodes: seq<Json>)
    requires Labels(devices) == LabelsOf(nodes)
    ensures |devices| == |nodes|
    ensures forall k :: 0 <= k < |devices| ==>
              devices[k].id == Field(nodes[k], "id") && devices[k].name == Field(nodes[k], "name")
    decreases |devices|
  {
    if devices != [] {
      var n := |devices|;
      assert Labels(devices)[..n - 1] == Labels(devices[..n - 1]);
      assert LabelsOf(nodes)[..n - 1] == LabelsOf(nodes[..n - 1]);
      NamedAfterNodes(devices[..n - 1], nodes[..n - 1]);
      assert Labels(devices)[n - 1] == LabelsOf(nodes)[n - 1];
    }
  }

  /** One iteration of `parseDevicesFromNodes`: a new device for `node`, pushed onto the
      collection of its variant; a null or undefined node throws. */
  method Place(devices: DeviceLists, ghost prefix: seq<Json>, node: Json) returns (r: Result<DeviceLists, Thrown>)
    requires forall b :: Holds(devices.In(b), prefix, b)
    requires Labelled(devices, prefix)
    requires Distinct(devices)
    ensures r.Err? <==> Nullish(node)
    ensures r.Ok? ==> forall b :: Holds(r.value.In(b), prefix + [node], b)
    ensures r.Ok? ==> Labelled(r.value, prefix + [node])
    ensures r.Ok? ==> Distinct(r.value)
    ensures r.Ok? ==> forall b, d :: d in r.value.In(b) ==> d in devices.In(b) || fresh(d)
  {
    var result := Device.FromNode(node);
    if result.Err? {
      return Err(result.error);
    }
    var device := result.value;
    PushHolds(devices, prefix, device, node);
    PushLabelled(devices, prefix, device, node);
    PushDistinct(devices, BucketOf(device.kind), device);
    PushMembers(devices, BucketOf(device.kind), device);
    r := Ok(devices.Push(BucketOf(device.kind), device));
  }

  /** `parseDevicesFromNodes(nodes)`: one new device per node, pushed onto the
      collection of its variant in input order; a null or undefined node throws. No
      device object appears twice, and each carries the `id` and `name` of its node. */
  method ParseDevicesFromNodes(nodes: seq<Json>) returns (r: Result<DeviceLists, Thrown>)
    ensures r.Err? <==> exists i :: 0 <= i < |nodes| && Nullish(nodes[i])
    ensures r.Ok? ==> forall b :: NodesOf(r.value.In(b)) == Select(nodes, b)
    ensures r.Ok? ==> forall b :: AllIn(r.value.In(b), b)
    ensures r.Ok? ==> Labelled(r.value, nodes)
    ensures r.Ok? ==> forall b, d :: d in r.value.In(b) ==> fresh(d)
    ensures r.Ok? ==> Distinct(r.value)
  {
    var devices := NoDevices;
    var i := 0;
    while i < |nodes|
      invariant 0 <= i <= |nodes|
      invariant forall j :: 0 <= j < i ==> !Nullish(nodes[j])
      invariant forall b :: Holds(devices.In(b), nodes[..i], b)
      invariant Labelled(devices, nodes[..i])
      invariant forall b, d :: d in devices.In(b) ==> fresh(d)
      invariant Distinct(devices)
    {
      var next := Place(devices, nodes[..i], nodes[i]);
      if next.Err? {
        return Err(next.error);
      }
      assert nodes[..i + 1] == nodes[..i] + [nodes[i]];
      devices := next.value;
      i := i + 1;
    }
    assert nodes[..i] == nodes;
    r := Ok(devices);
  }

  /** Every node lands in exactly one collection: the sizes sum to the input length. */
  lemma {:induction false} SelectSizes(nodes: seq<Json>)
    ensures |Select(nodes, Hubs)| + |Select(nodes, Receivers)| + |Select(nodes, Thermostats)|
            + |Select(nodes, ThermostatUis)| + |Select(nodes, Other)| == |nodes|
    decreases |nodes|
  {
    if nodes != [] {
      SelectSizes(nodes[..|nodes| - 1]);
    }
  }

  /** The input positions of the nodes of collection `b`, in increasing order. */
  function Positions(nodes: seq<Json>, b: Bucket): seq<nat>
    decreases |nodes|
  {
    if nodes == [] then []
    else
      var rest := Positions(nodes[..|nodes| - 1], b);
      if BucketOf(Classify(nodes[|nodes| - 1])) == b then rest + [|nodes| - 1] else rest
  }

  lemma PositionsPush(nodes: seq<Json>, node: Json, b: Bucket)
    ensures Positions(nodes + [node], b) == Positions(nodes, b) + if BucketOf(Classify(node)) == b then [|nodes|] else []
  {
    assert (nodes + [node])[..|nodes|] == nodes;
  }

  /** Every position lies in the input and the positions rise strictly. */
  lemma {:induction false} PositionsIncrease(nodes: seq<Json>, b: Bucket)
    ensures forall k :: 0 <= k < |Positions(nodes, b)| ==> Positions(nodes, b)[k] < |nodes|
    ensures forall k, l :: 0 <= k < l < |Positions(nodes, b)| ==> Positions(nodes, b)[k] < Positions(nodes, b)[l]
    decreases |nodes|
  {
    if nodes != [] {
      var n := |nodes|;
      PositionsIncrease(nodes[..n - 1], b);
      assert nodes == nodes[..n - 1] + [nodes[n - 1]];
      PositionsPush(nodes[..n - 1], nodes[n - 1], b);
    }
  }

  /** Collection `b` holds the nodes at those positions, one for one. */
  lemma {:induction false} SelectAtPositions(nodes: seq<Json>, b: Bucket)
    ensures |Positions(nodes, b)| == |Select(nodes, b)|
    ensures forall k :: 0 <= k < |Positions(nodes, b)| ==>
              Positions(nodes, b)[k] < |nodes| && nodes[Positions(nodes, b)[k]] == Select(nodes, b)[k]
    decreases |nodes|
  {
    if nodes != [] {
      var n := |nodes|;
      var init := nodes[..n - 1];
      SelectAtPositions(init, b);
      PositionsIncrease(init, b);
      assert nodes == init + [nodes[n - 1]];
      PositionsPush(init, nodes[n - 1], b);
      SelectPush(init, nodes[n - 1], b);
      assert forall i :: 0 <= i < n - 1 ==> init[i] == nodes[i];
    }
  }

  /** The positions are exactly those of the nodes classified into `b`. */
  lemma {:induction false} PositionsCover(nodes: seq<Json>, b: Bucket)
    ensures forall i :: 0 <= i < |nodes| ==> (i in Positions(nodes, b) <==> BucketOf(Classify(nodes[i])) == b)
    decreases |nodes|
  {
    if nodes != [] {
      var n := |nodes|;
      var init := nodes[..n - 1];
      PositionsCover(init, b);
      PositionsIncrease(init, b);
      assert nodes == init + [nodes[n - 1]];
      PositionsPush(init, nodes[n - 1], b);
      assert forall i :: 0 <= i < n - 1 ==> init[i] == nodes[i];
      assert n - 1 !in Positions(init, b);
    }
  }

  /** Order is preserved: collection `b` lists the nodes at strictly increasing input
      positions, and those positions are exactly the nodes classified into `b`. */
  lemma SelectKeepsOrder(nodes: seq<Json>, b: Bucket)
    ensures var s, p := Select(nodes, b), Positions(nodes, b);
            && |p| == |s|
            && (forall k :: 0 <= k < |p| ==> p[k] < |nodes| && nodes[p[k]] == s[k])
            && (forall k, l :: 0 <= k < l < |p| ==> p[k] < p[l])
            && (forall i :: 0 <= i < |nodes| ==> (i in p <==> BucketOf(Classify(nodes[i])) == b))
  {
    PositionsIncrease(nodes, b);
    SelectAtPositions(nodes, b);
    PositionsCover(nodes, b);
  }

  lemma SelectOfThree(x: Json, y: Json, z: Json, b: Bucket)
    ensures Select([x, y, z], b) ==
              (if BucketOf(Classify(x)) == b then [x] else []) + (if BucketOf(Classify(y)) == b then [y] else [])
              + (if BucketOf(Classify(z)) == b then [z] else [])
  {
    var one, two := [x], [x, y];
    assert one == [] + [x];
    SelectPush([], x, b);
    assert two == one + [y];
    SelectPush(one, y, b);
    assert [x, y, z] == two + [z];
    SelectPush(two, z, b);
  }

  /** The three-node example: a hub, a thermostat with its heating feature and one
      without it give one hub, one thermostat and one receiver. */
  lemma HubThermostatReceiver(hub: Json, thermostat: Json, receiver: Json)
    requires Field(hub, "nodeType") == Str(HubUri)
    requires Field(thermostat, "nodeType") == Str(ThermostatUri) && HasHeatingFeature(thermostat)
    requires Field(receiver, "nodeType") == Str(ThermostatUri) && !HasHeatingFeature(receiver)
    ensures Select([hub, thermostat, receiver], Hubs) == [hub]
    ensures Select([hub, thermostat, receiver], Thermostats) == [thermostat]
    ensures Select([hub, thermostat, receiver], Receivers) == [receiver]
    ensures Select([hub, thermostat, receiver], ThermostatUis) == []
    ensures Select([hub, thermostat, receiver], Other) == []
  {
    assert Classify(hub) == Hub && Classify(thermostat) == Thermostat && Classify(receiver) == Receiver;
    SelectOfThree(hub, thermostat, receiver, Hubs);
    SelectOfThree(hub, thermostat, receiver, Thermostats);
    SelectOfThree(hub, thermostat, receiver, Receivers);
    SelectOfThree(hub, thermostat, receiver, ThermostatUis);
    SelectOfThree(hub, thermostat, receiver, Other);
  }
}
