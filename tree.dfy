/** The cached device-state tree: SnapIns, each with Devices, each with
    States whose `data` is a JSON mapping; and the push-update records
    that patch it. Every field read with `.get` is optional. */
module Tree {
  import opened Json

  /** One state record, `{"type": ..., "data": {...}}`. `data` is None when
      the record has no "data" key, and otherwise the value stored there
      (null, a mapping, or anything else the API sent). */
  datatype State = State(stateType: Option<string>, data: Option<Value>)
  {
    /** The mapping under "data", or None when the key is missing or holds
        null or a non-mapping: the cases where `.get`/`.update` on it raises. */
    function Fields(): (m: Option<map<string, Value>>)
      ensures m.Some? <==> data.Some? && data.value.JObj?
      ensures m.Some? ==> data == Some(JObj(m.value))
    {
      if data.Some? && data.value.JObj? then Some(data.value.fields) else None
    }
  }

  /** One device of a SnapIn; a missing "states" list reads as []. */
  datatype Device = Device(deviceNumber: Option<int>, deviceType: Option<string>, states: seq<State>)

  /** One SnapIn record with its devices and its own states (e.g. FirmwareState). */
  datatype SnapIn = SnapIn(zigbeeId: Option<string>, devices: seq<Device>, states: seq<State>)

  /** The `deviceState` payload of an update: a non-empty mapping whose
      "type" and "data" are read (a missing "data" reads as {}). */
  datatype StatePatch = StatePatch(stateType: Option<string>, data: map<string, Value>)

  /** One push-update record. `deviceState` is None when the key is missing,
      null or an empty mapping: the three values Python treats as false. */
  datatype Update = Update(zigbeeId: Option<string>, deviceNumber: Option<int>, deviceState: Option<StatePatch>)

  /** Index of the first element of `xs` whose key is `k`, None when there is
      none: the one search behind the three lookups below. */
  function FirstIndex<T, K(==)>(xs: seq<T>, key: T -> K, k: K): (r: Option<nat>)
    ensures r.Some? ==> r.value < |xs| && key(xs[r.value]) == k
    ensures r.Some? ==> forall j :: 0 <= j < r.value ==> key(xs[j]) != k
    ensures r.None? ==> forall j :: 0 <= j < |xs| ==> key(xs[j]) != k
  {
    if xs == [] then None
    else if key(xs[0]) == k then Some(0)
    else match FirstIndex(xs[1..], key, k)
      case None => None
      case Some(n) => Some(n + 1)
  }

  /** Index of the first SnapIn whose `zigbeeId` equals `zigbeeId`. */
  function FindSnapIn(tree: seq<SnapIn>, zigbeeId: Option<string>): (r: Option<nat>)
    ensures r.Some? ==> r.value < |tree| && tree[r.value].zigbeeId == zigbeeId
    ensures r.Some? ==> forall j :: 0 <= j < r.value ==> tree[j].zigbeeId != zigbeeId
    ensures r.None? ==> forall j :: 0 <= j < |tree| ==> tree[j].zigbeeId != zigbeeId
  {
    FirstIndex(tree, (s: SnapIn) => s.zigbeeId, zigbeeId)
  }

  /** Index of the first device whose `deviceNumber` equals `number`
      (`next(d for d in devices if d.get("deviceNumber") == number)`). */
  function FindDevice(devices: seq<Device>, number: Option<int>): (r: Option<nat>)
    ensures r.Some? ==> r.value < |devices| && devices[r.value].deviceNumber == number
    ensures r.Some? ==> forall j :: 0 <= j < r.value ==> devices[j].deviceNumber != number
    ensures r.None? ==> forall j :: 0 <= j < |devices| ==> devices[j].deviceNumber != number
  {
    FirstIndex(devices, (d: Device) => d.deviceNumber, number)
  }

  /** Index of the first state whose `type` equals `stateType`. */
  function FindState(states: seq<State>, stateType: Option<string>): (r: Option<nat>)
    ensures r.Some? ==> r.value < |states| && states[r.value].stateType == stateType
    ensures r.Some? ==> forall j :: 0 <= j < r.value ==> states[j].stateType != stateType
    ensures r.None? ==> forall j :: 0 <= j < |states| ==> states[j].stateType != stateType
  {
    FirstIndex(states, (st: State) => st.stateType, stateType)
  }

  /** Two devices agree on everything but the contents of their states' data. */
  predicate SameDeviceShape(a: Device, b: Device)
  {
    && a.deviceNumber == b.deviceNumber
    && a.deviceType == b.deviceType
    && |a.states| == |b.states|
    && forall s :: 0 <= s < |a.states| ==>
         a.states[s].stateType == b.states[s].stateType && a.states[s].Fields().Some? == b.states[s].Fields().Some?
  }

  predicate SameSnapInShape(a: SnapIn, b: SnapIn)
  {
    && a.zigbeeId == b.zigbeeId
    && a.states == b.states
    && |a.devices| == |b.devices|
    && forall d :: 0 <= d < |a.devices| ==> SameDeviceShape(a.devices[d], b.devices[d])
  }

  /** Same lengths, order, identifiers and state types at every level. */
  predicate SameShape(a: seq<SnapIn>, b: seq<SnapIn>)
  {
    |a| == |b| && forall i :: 0 <= i < |a| ==> SameSnapInShape(a[i], b[i])
  }
}
