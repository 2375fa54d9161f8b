/** The switch platform: one RelayBin entity per relay dock of the discovered
    system, bound at construction to a device of the cached tree, reading its
    on/off state from that tree and toggling it through the API client. */
module Switch {
  import opened Json
  import opened Tree
  import Api
  import Coordinator

  const Domain := "streda"
  /** The only dock code that gets an entity ("only add lights for now"). */
  const RelayDockCode := "BN1-C"
  const RelayBinType := "RelayBin"
  const PowerStateType := "PowerState"
  const FirmwareStateType := "FirmwareState"

  /** One dock record of a room, as read with `.get`. */
  datatype Dock = Dock(zigbeeId: Option<string>, snapInId: Option<string>, number: Option<int>, dockCode: Option<string>)

  /** One room of the discovered system. `roomName` is the room's "name",
      None when the API gave none (it is then printed "None"). */
  datatype Room = Room(roomId: Value, roomName: Option<string>, docks: seq<Dock>)

  predicate IsRelayDock(d: Dock)
  {
    d.dockCode == Some(RelayDockCode)
  }

  // ---------------------------------------------------------------------------
  // Dock selection (async_setup_entry)
  // ---------------------------------------------------------------------------

  /** Every dock of `docks` paired with its room, in order. */
  function RoomDocks(room: Room, docks: seq<Dock>): (r: seq<(Room, Dock)>)
    ensures |r| == |docks|
    ensures forall k :: 0 <= k < |r| ==> r[k] == (room, docks[k])
    decreases |docks|
  {
    if docks == [] then []
    else RoomDocks(room, docks[..|docks| - 1]) + [(room, docks[|docks| - 1])]
  }

  /** Every (room, dock) pair of the system, room by room. */
  function AllDocks(system: seq<Room>): seq<(Room, Dock)>
    decreases |system|
  {
    if system == [] then []
    else
      var room := system[|system| - 1];
      AllDocks(system[..|system| - 1]) + RoomDocks(room, room.docks)
  }

  /** The relay docks of `docks`, paired with their room, in order. */
  function RoomRelayDocks(room: Room, docks: seq<Dock>): seq<(Room, Dock)>
    decreases |docks|
  {
    if docks == [] then []
    else
      var last := docks[|docks| - 1];
      RoomRelayDocks(room, docks[..|docks| - 1]) + (if IsRelayDock(last) then [(room, last)] else [])
  }

  /** The docks that get an entity: the relay docks, room by room, each
      paired with the room it came from. */
  function RelayDocks(system: seq<Room>): seq<(Room, Dock)>
    decreases |system|
  {
    if system == [] then []
    else
      var room := system[|system| - 1];
      RelayDocks(system[..|system| - 1]) + RoomRelayDocks(room, room.docks)
  }

  /** Within a room, a relay dock is kept as often as it occurs and any
      other dock is dropped. */
  lemma {:induction false} RoomRelayDocksSelects(room: Room, docks: seq<Dock>)
    ensures forall x :: multiset(RoomRelayDocks(room, docks))[x] ==
                          if IsRelayDock(x.1) then multiset(RoomDocks(room, docks))[x] else 0
    decreases |docks|
  {
    if docks != [] {
      var n := |docks| - 1;
      RoomRelayDocksSelects(room, docks[..n]);
      assert RoomDocks(room, docks) == RoomDocks(room, docks[..n]) + [(room, docks[n])];
    }
  }

  /** Exactly the relay docks of the system get an entity, each once per
      occurrence: the selection is a filter of all (room, dock) pairs. */
  lemma {:induction false} RelayDocksSelects(system: seq<Room>)
    ensures forall x :: multiset(RelayDocks(system))[x] ==
                          if IsRelayDock(x.1) then multiset(AllDocks(system))[x] else 0
    decreases |system|
  {
    if system != [] {
      var n := |system| - 1;
      RelayDocksSelects(system[..n]);
      RoomRelayDocksSelects(system[n], system[n].docks);
    }
  }

  /** The selection keeps room order: the entities of a system made of two
      parts are those of the first part followed by those of the second. */
  lemma {:induction false} RelayDocksAppend(a: seq<Room>, b: seq<Room>)
    ensures RelayDocks(a + b) == RelayDocks(a) + RelayDocks(b)
    decreases |b|
  {
    if b != [] {
      var n := |b| - 1;
      assert (a + b)[..|a + b| - 1] == a + b[..n];
      assert (a + b)[|a + b| - 1] == b[n];
      RelayDocksAppend(a, b[..n]);
      assert RelayDocks(b) == RelayDocks(b[..n]) + RoomRelayDocks(b[n], b[n].docks);
    } else {
      assert a + b == a;
    }
  }

  // ---------------------------------------------------------------------------
  // Binding at construction (RelayBin.__init__)
  // ---------------------------------------------------------------------------

  predicate IsRelayDevice(d: Device)
  {
    d.deviceType == Some(RelayBinType)
  }

  /** The bound device number: that of the last RelayBin device, None when
      there is none (each RelayBin device overwrites the previous one). */
  function LastRelayNumber(devices: seq<Device>): (r: Option<int>)
    ensures (forall k :: 0 <= k < |devices| ==> !IsRelayDevice(devices[k])) ==> r == None
    ensures forall k :: 0 <= k < |devices| && IsRelayDevice(devices[k]) &&
                        (forall j :: k < j < |devices| ==> !IsRelayDevice(devices[j])) ==>
                        r == devices[k].deviceNumber
    decreases |devices|
  {
    if devices == [] then None
    else
      var n := |devices| - 1;
      if IsRelayDevice(devices[n]) then devices[n].deviceNumber
      else
        assert forall k :: 0 <= k < n ==> devices[..n][k] == devices[k];
        LastRelayNumber(devices[..n])
  }

  /** `firmware_state.get("data", {}).get("firmwareVersion", "unknown")`:
      None when the second `.get` raises because "data" holds null or a
      non-mapping (only a missing key falls back to `{}`). */
  function FirmwareVersion(st: State): (v: Option<Value>)
    ensures st.data.None? ==> v == Some(JStr("unknown"))
    ensures st.data.Some? && !st.data.value.JObj? ==> v.None?
    ensures st.Fields().Some? && "firmwareVersion" in st.Fields().value ==>
              v == Some(st.Fields().value["firmwareVersion"])
    ensures st.Fields().Some? && "firmwareVersion" !in st.Fields().value ==> v == Some(JStr("unknown"))
  {
    if st.data.None? then Some(JStr("unknown"))
    else match st.Fields()
      case None => None
      case Some(m) => Some(GetOr(m, "firmwareVersion", JStr("unknown")))
  }

  /** What construction resolves from the tree. */
  datatype Binding = Binding(deviceNumber: Option<int>, firmwareVersion: Value)

  /** Why construction raises: the coordinator has no data yet (NotRefreshed),
      the name `firmware_version` was never bound (no SnapIn matched, or the
      matching one has no FirmwareState), or reading the version raised
      because that FirmwareState's "data" is null or not a mapping. */
  datatype InitError = NotRefreshed | FirmwareUnbound | FirmwareDataInvalid

  /** `i` is the first SnapIn of the tree with this zigbeeId. */
  predicate FirstWith(tree: seq<SnapIn>, zigbeeId: Option<string>, i: int)
  {
    0 <= i < |tree| && tree[i].zigbeeId == zigbeeId && forall j :: 0 <= j < i ==> tree[j].zigbeeId != zigbeeId
  }

  /** The binding of a dock: from the FIRST SnapIn with its zigbeeId, the last
      RelayBin device number and the version in its first FirmwareState. */
  function BindingSpec(data: Option<seq<SnapIn>>, zigbeeId: Option<string>): (r: Result<Binding, InitError>)
    ensures data.None? ==> r == Err(NotRefreshed)
    ensures data.Some? && (forall j :: 0 <= j < |data.value| ==> data.value[j].zigbeeId != zigbeeId) ==>
              r == Err(FirmwareUnbound)
    // construction succeeds exactly when the first matching SnapIn has a
    // FirmwareState whose version can be read
    ensures r.Ok? <==>
              && data.Some?
              && FindSnapIn(data.value, zigbeeId).Some?
              && FindState(data.value[FindSnapIn(data.value, zigbeeId).value].states, Some(FirmwareStateType)).Some?
              && FirmwareVersion(data.value[FindSnapIn(data.value, zigbeeId).value].states[
                   FindState(data.value[FindSnapIn(data.value, zigbeeId).value].states, Some(FirmwareStateType)).value]).Some?
    ensures data.Some? && FindSnapIn(data.value, zigbeeId).Some? ==>
              var snapIn := data.value[FindSnapIn(data.value, zigbeeId).value];
              var f := FindState(snapIn.states, Some(FirmwareStateType));
              // a matching SnapIn without a FirmwareState leaves the name unbound
              && (f.None? ==> r == Err(FirmwareUnbound))
              // the first FirmwareState decides the version, or raises
              && (f.Some? && FirmwareVersion(snapIn.states[f.value]).None? ==> r == Err(FirmwareDataInvalid))
              && (r.Ok? ==> r.value.deviceNumber == LastRelayNumber(snapIn.devices) &&
                            Some(r.value.firmwareVersion) == FirmwareVersion(snapIn.states[f.value]))
  {
    if data.None? then Err(NotRefreshed)
    else match FindSnapIn(data.value, zigbeeId)
      case None => Err(FirmwareUnbound)
      case Some(i) =>
        var snapIn := data.value[i];
        match FindState(snapIn.states, Some(FirmwareStateType))
        case None => Err(FirmwareUnbound)
        case Some(f) =>
          match FirmwareVersion(snapIn.states[f])
          case None => Err(FirmwareDataInvalid)
          case Some(version) => Ok(Binding(LastRelayNumber(snapIn.devices), version))
  }

  /** Only a missing "data" key falls back to `{}`: a FirmwareState without
      "data" binds the version "unknown", one whose "data" is null raises. */
  lemma FirmwareDataMissingVersusNull()
    ensures BindingSpec(Some([SnapIn(Some("Z"), [], [State(Some(FirmwareStateType), None)])]), Some("Z"))
              == Ok(Binding(None, JStr("unknown")))
    ensures BindingSpec(Some([SnapIn(Some("Z"), [], [State(Some(FirmwareStateType), Some(JNull))])]), Some("Z"))
              == Err(FirmwareDataInvalid)
  {
  }

  /** `next(state for state in states if state.get("type") == "FirmwareState")`. */
  method FirstFirmwareState(states: seq<State>) returns (f: Option<nat>)
    ensures f == FindState(states, Some(FirmwareStateType))
  {
    var q := 0;
    while q < |states|
      invariant 0 <= q <= |states|
      invariant forall p :: 0 <= p < q ==> states[p].stateType != Some(FirmwareStateType)
    {
      if states[q].stateType == Some(FirmwareStateType) {
        return Some(q);
      }
      q := q + 1;
    }
    return None;
  }

  /** The device loop of the constructor: every RelayBin device overwrites
      the bound number, which starts as None. */
  method BoundDeviceNumber(devices: seq<Device>) returns (dockDeviceNumber: Option<int>)
    ensures dockDeviceNumber == LastRelayNumber(devices)
  {
    dockDeviceNumber := None;
    var k := 0;
    while k < |devices|
      invariant 0 <= k <= |devices|
      invariant dockDeviceNumber == LastRelayNumber(devices[..k])
    {
      if devices[k].deviceType == Some(RelayBinType) {
        dockDeviceNumber := devices[k].deviceNumber;
      }
      assert devices[..k + 1][..k] == devices[..k];
      k := k + 1;
    }
    assert devices[..k] == devices;
  }

  /** The resolution loop of the constructor: find the first SnapIn with the
      dock's zigbeeId, take its first FirmwareState and its bound device
      number, and stop. */
  method ResolveBinding(data: Option<seq<SnapIn>>, zigbeeId: Option<string>) returns (r: Result<Binding, InitError>)
    ensures r == BindingSpec(data, zigbeeId)
  {
    if data.None? {
      return Err(NotRefreshed);
    }
    var snapIns := data.value;
    var i := 0;
    while i < |snapIns|
      invariant 0 <= i <= |snapIns|
      invariant forall j :: 0 <= j < i ==> snapIns[j].zigbeeId != zigbeeId
    {
      if snapIns[i].zigbeeId == zigbeeId {
        assert FindSnapIn(snapIns, zigbeeId) == Some(i);
        var firmwareState := FirstFirmwareState(snapIns[i].states);
        // `firmware_version` stays unbound (None) unless a FirmwareState is found
        var firmwareVersion: Option<Value> := None;
        if firmwareState.Some? {
          firmwareVersion := FirmwareVersion(snapIns[i].states[firmwareState.value]);
          if firmwareVersion.None? {
            return Err(FirmwareDataInvalid);
          }
        }
        var dockDeviceNumber := BoundDeviceNumber(snapIns[i].devices);
        // `break`; then `sw_version=firmware_version` needs the name bound
        if firmwareVersion.None? {
          return Err(FirmwareUnbound);
        }
        return Ok(Binding(dockDeviceNumber, firmwareVersion.value));
      }
      i := i + 1;
    }
    return Err(FirmwareUnbound);
  }

  /** The unique id `streda_<snapInId>_relay_<dock device number>`. */
  function UniqueId(snapInId: Option<string>, dockDeviceNumber: Option<int>): string
  {
    Domain + "_" + StrText(snapInId) + "_relay_" + IntText(dockDeviceNumber)
  }

  /** The unique id is built while the device number is still None, so it
      never carries the resolved number: it differs from the id that number
      would give. */
  lemma UniqueIdMissesBinding(snapInId: Option<string>, n: int)
    ensures UniqueId(snapInId, None) != UniqueId(snapInId, Some(n))
  {
    var prefix := Domain + "_" + StrText(snapInId) + "_relay_";
    assert UniqueId(snapInId, None)[|prefix|..] == IntText(None);
    assert UniqueId(snapInId, Some(n))[|prefix|..] == IntText(Some(n));
    IntTextRoundTrip(None);
    IntTextRoundTrip(Some(n));
  }

  // ---------------------------------------------------------------------------
  // Reading the state (snap_in_data, is_on)
  // ---------------------------------------------------------------------------

  /** snap_in_data: the first SnapIn with this zigbeeId, None standing for `{}`. */
  function SnapInData(tree: seq<SnapIn>, zigbeeId: Option<string>): (r: Option<SnapIn>)
    ensures r.None? <==> forall j :: 0 <= j < |tree| ==> tree[j].zigbeeId != zigbeeId
    ensures r.Some? ==> exists i :: FirstWith(tree, zigbeeId, i) && r.value == tree[i]
  {
    match FindSnapIn(tree, zigbeeId)
    case None => None
    case Some(i) =>
      assert FirstWith(tree, zigbeeId, i);
      Some(tree[i])
  }

  /** The states the `is_on` loops visit: those of every RelayBin device, in order. */
  function RelayStates(devices: seq<Device>): seq<State>
    decreases |devices|
  {
    if devices == [] then []
    else
      var n := |devices| - 1;
      RelayStates(devices[..n]) + (if IsRelayDevice(devices[n]) then devices[n].states else [])
  }

  lemma {:induction false} RelayStatesAppend(a: seq<Device>, b: seq<Device>)
    ensures RelayStates(a + b) == RelayStates(a) + RelayStates(b)
    decreases |b|
  {
    if b != [] {
      var n := |b| - 1;
      assert (a + b)[..|a + b| - 1] == a + b[..n];
      assert (a + b)[|a + b| - 1] == b[n];
      RelayStatesAppend(a, b[..n]);
      assert RelayStates(b) == RelayStates(b[..n]) + (if IsRelayDevice(b[n]) then b[n].states else []);
    } else {
      assert a + b == a;
    }
  }

  /** No visited PowerState lacks its "data" (reading it would raise). */
  predicate PowerDataPresent(states: seq<State>)
  {
    forall k :: 0 <= k < |states| && states[k].stateType == Some(PowerStateType) ==> states[k].Fields().Some?
  }

  /** The verdict of one visited state: a PowerState whose data.state is "ON". */
  predicate ReadsOn(st: State)
  {
    st.stateType == Some(PowerStateType) && st.Fields().Some? && Get(st.Fields().value, "state") == JStr("ON")
  }

  /** Why is_on raises: the coordinator has no data, a visited PowerState has
      no "data", or no state was visited so `state` is unbound. */
  datatype ReadError = NoData | MissingData | UnboundState

  /** is_on over the visited states: only the LAST visited state decides. */
  function ScanSpec(states: seq<State>): (r: Result<bool, ReadError>)
    ensures r.Ok? <==> PowerDataPresent(states) && states != []
    ensures r == Ok(true) <==> PowerDataPresent(states) && states != [] && ReadsOn(states[|states| - 1])
  {
    if !PowerDataPresent(states) then Err(MissingData)
    else if states == [] then Err(UnboundState)
    else Ok(ReadsOn(states[|states| - 1]))
  }

  /** is_on of the entity with this zigbeeId over the coordinator's data. */
  function IsOnSpec(data: Option<seq<SnapIn>>, zigbeeId: Option<string>): (r: Result<bool, ReadError>)
    ensures data.None? ==> r == Err(NoData)
    // an unknown zigbeeId reads `{}`: nothing is visited and `state` is unbound
    ensures data.Some? && SnapInData(data.value, zigbeeId).None? ==> r == Err(UnboundState)
    ensures data.Some? && SnapInData(data.value, zigbeeId).Some? ==>
              r == ScanSpec(RelayStates(SnapInData(data.value, zigbeeId).value.devices))
  {
    if data.None? then Err(NoData)
    else match SnapInData(data.value, zigbeeId)
      case None => ScanSpec([])
      case Some(snapIn) => ScanSpec(RelayStates(snapIn.devices))
  }

  /** What the variable `state` holds in the is_on loops: nothing yet, a
      state record, or the value read from a PowerState's data. */
  datatype Slot = Unbound | Record(st: State) | Field(v: Value)

  /** The value of `state` after visiting `seen`. */
  function SlotAfter(seen: seq<State>): Slot
  {
    if seen == [] then Unbound
    else
      var st := seen[|seen| - 1];
      if st.stateType == Some(PowerStateType) && st.Fields().Some? then Field(Get(st.Fields().value, "state"))
      else Record(st)
  }

  /** `state == "ON"` for whatever `state` holds at the end. */
  function SlotVerdict(slot: Slot): Result<bool, ReadError>
  {
    match slot
    case Unbound => Err(UnboundState)
    case Record(_) => Ok(false)
    case Field(v) => Ok(v == JStr("ON"))
  }

  /** The inner `for state in device.get("states", [])` loop, carrying on
      from `state0`, the value `state` has after the states `seen`. */
  method VisitStates(ghost seen: seq<State>, states: seq<State>, state0: Slot) returns (r: Result<Slot, ReadError>)
    requires PowerDataPresent(seen) && state0 == SlotAfter(seen)
    ensures r.Ok? <==> PowerDataPresent(seen + states)
    ensures r.Ok? ==> r.value == SlotAfter(seen + states)
    ensures r.Err? ==> r.error == MissingData
  {
    var state := state0;
    var s := 0;
    while s < |states|
      invariant 0 <= s <= |states|
      invariant PowerDataPresent(seen + states[..s])
      invariant state == SlotAfter(seen + states[..s])
    {
      assert seen + states[..s + 1] == (seen + states[..s]) + [states[s]];
      state := Record(states[s]);
      if states[s].stateType == Some(PowerStateType) {
        if states[s].Fields().None? {
          // `state.get("data").get("state")` on a missing "data" raises
          assert (seen + states)[|seen| + s] == states[s];
          return Err(MissingData);
        }
        state := Field(Get(states[s].Fields().value, "state"));
      }
      s := s + 1;
    }
    assert states[..s] == states;
    return Ok(state);
  }

  lemma PowerDataPrefix(a: seq<State>, b: seq<State>)
    ensures PowerDataPresent(a + b) ==> PowerDataPresent(a)
  {
    assert forall k :: 0 <= k < |a| ==> (a + b)[k] == a[k];
  }

  /** is_on reads the value `state` holds once every state has been visited. */
  lemma SlotVerdictIsScan(states: seq<State>)
    requires PowerDataPresent(states)
    ensures SlotVerdict(SlotAfter(states)) == ScanSpec(states)
  {
  }

  /** The loops of is_on over the devices of a SnapIn: the states of every
      RelayBin device overwrite `state` in turn, and the last value decides. */
  method ScanDevices(devices: seq<Device>) returns (r: Result<bool, ReadError>)
    ensures r == ScanSpec(RelayStates(devices))
  {
    var state := Unbound;
    var d := 0;
    while d < |devices|
      invariant 0 <= d <= |devices|
      invariant PowerDataPresent(RelayStates(devices[..d]))
      invariant state == SlotAfter(RelayStates(devices[..d]))
    {
      var device := devices[d];
      assert devices[..d + 1][..d] == devices[..d];
      if device.deviceType == Some(RelayBinType) {
        var visited := VisitStates(RelayStates(devices[..d]), device.states, state);
        if visited.Err? {
          // the state that raised is also visited by the whole walk
          assert RelayStates(devices[..d + 1]) == RelayStates(devices[..d]) + device.states;
          RelayStatesAppend(devices[..d + 1], devices[d + 1..]);
          assert devices[..d + 1] + devices[d + 1..] == devices;
          PowerDataPrefix(RelayStates(devices[..d + 1]), RelayStates(devices[d + 1..]));
          return Err(MissingData);
        }
        state := visited.value;
      } else {
        assert RelayStates(devices[..d + 1]) == RelayStates(devices[..d]);
      }
      d := d + 1;
    }
    assert devices[..d] == devices;
    SlotVerdictIsScan(RelayStates(devices));
    return SlotVerdict(state);
  }

  /** The order of a device's states matters: a FirmwareState listed after an
      "ON" PowerState makes the light read as off. */
  lemma IsOnReadsOnlyLastVisited()
    ensures var on := State(Some(PowerStateType), Some(JObj(map["state" := JStr("ON")])));
            var fw := State(Some(FirmwareStateType), Some(JObj(map["firmwareVersion" := JStr("1.2")])));
            var tree := [SnapIn(Some("Z1"), [Device(Some(1), Some(RelayBinType), [on, fw])], [fw])];
            && IsOnSpec(Some(tree), Some("Z1")) == Ok(false)
            && IsOnSpec(Some([SnapIn(Some("Z1"), [Device(Some(1), Some(RelayBinType), [fw, on])], [fw])]), Some("Z1")) == Ok(true)
  {
    var on := State(Some(PowerStateType), Some(JObj(map["state" := JStr("ON")])));
    var fw := State(Some(FirmwareStateType), Some(JObj(map["firmwareVersion" := JStr("1.2")])));
    var d1 := Device(Some(1), Some(RelayBinType), [on, fw]);
    var d2 := Device(Some(1), Some(RelayBinType), [fw, on]);
    assert RelayStates([d1]) == RelayStates([d1][..0]) + d1.states;
    assert RelayStates([d2]) == RelayStates([d2][..0]) + d2.states;
  }

  /** A push update that reaches the bound device turns the light's reading
      from off to on. */
  lemma PushUpdateTurnsOn()
    ensures var off := State(Some(PowerStateType), Some(JObj(map["state" := JStr("OFF")])));
            var tree := [SnapIn(Some("Z1"), [Device(Some(1), Some(RelayBinType), [off])], [])];
            var u := Update(Some("Z1"), Some(1), Some(StatePatch(Some(PowerStateType), map["state" := JStr("ON")])));
            && IsOnSpec(Some(tree), Some("Z1")) == Ok(false)
            && Coordinator.ApplyUpdates(tree, [u]).Merged?
            && IsOnSpec(Some(Coordinator.ApplyUpdates(tree, [u]).tree), Some("Z1")) == Ok(true)
  {
    var off := State(Some(PowerStateType), Some(JObj(map["state" := JStr("OFF")])));
    var tree := [SnapIn(Some("Z1"), [Device(Some(1), Some(RelayBinType), [off])], [])];
    var u := Update(Some("Z1"), Some(1), Some(StatePatch(Some(PowerStateType), map["state" := JStr("ON")])));
    Coordinator.ApplyOneHit(tree, u, 0, 0, 0);
    var t := Coordinator.PatchState(tree, 0, 0, 0, map["state" := JStr("ON")]);
    assert Coordinator.ApplyUpdates(tree, [u]) == Coordinator.Merged(t);
    assert RelayStates(tree[0].devices) == RelayStates(tree[0].devices[..0]) + tree[0].devices[0].states;
    assert RelayStates(t[0].devices) == RelayStates(t[0].devices[..0]) + t[0].devices[0].states;
    assert Get(t[0].devices[0].states[0].Fields().value, "state") == JStr("ON");
  }

  /** When two SnapIns share a zigbeeId, a push update goes to the last of them
      while the entity reads the first: the entity never sees the update. */
  lemma ShadowedSnapInHidesUpdates(tree: seq<SnapIn>, zigbeeId: string, i: nat, j: nat, u: Update)
    requires i < j < |tree| && tree[i].zigbeeId == Some(zigbeeId) && tree[j].zigbeeId == Some(zigbeeId)
    requires u.zigbeeId == Some(zigbeeId)
    requires Coordinator.ApplyUpdates(tree, [u]).Merged?
    ensures var t := Coordinator.ApplyUpdates(tree, [u]).tree;
            && SnapInData(t, Some(zigbeeId)) == SnapInData(tree, Some(zigbeeId))
            && IsOnSpec(Some(t), Some(zigbeeId)) == IsOnSpec(Some(tree), Some(zigbeeId))
  {
    var t := Coordinator.ApplyUpdates(tree, [u]).tree;
    var step := Coordinator.ApplyOne(tree, u);
    if step.Skip? {
      assert [u][1..] == [];
      assert t == tree;
    } else {
      assert t == step.tree;
      assert forall k :: 0 <= k < |tree| ==> t[k].zigbeeId == tree[k].zigbeeId;
      // the entity's SnapIn is not the last one carrying the zigbeeId, so it is untouched
      var first := FindSnapIn(tree, Some(zigbeeId)).value;
      assert first < j && tree[j].zigbeeId == u.zigbeeId;
      assert t[first] == tree[first];
      FindSnapInByIds(t, tree, Some(zigbeeId));
    }
  }

  /** Where the first SnapIn with a zigbeeId sits depends on the zigbeeIds alone. */
  lemma FindSnapInByIds(a: seq<SnapIn>, b: seq<SnapIn>, zigbeeId: Option<string>)
    requires |a| == |b| && forall k :: 0 <= k < |a| ==> a[k].zigbeeId == b[k].zigbeeId
    ensures FindSnapIn(a, zigbeeId) == FindSnapIn(b, zigbeeId)
  {
    var ra := FindSnapIn(a, zigbeeId);
    var rb := FindSnapIn(b, zigbeeId);
    if ra.Some? {
      assert b[ra.value].zigbeeId == zigbeeId;
    }
    if rb.Some? {
      assert a[rb.value].zigbeeId == zigbeeId;
    }
  }

  // ---------------------------------------------------------------------------
  // The entity
  // ---------------------------------------------------------------------------

  /** A RelayBin entity. Its identity and binding are fixed at construction;
      its state is read from the coordinator's tree on demand. */
  class RelayBin {
    const coordinator: Coordinator.DataCoordinator
    const zigbeeId: Option<string>
    const snapInId: Option<string>
    const dockNumber: Option<int>
    const deviceNumber: Option<int>
    const roomName: Option<string>
    const roomId: Value
    const name: string
    const uniqueId: string
    const firmwareVersion: Value

    /** __init__, with the resolution loop's outcome passed in. */
    constructor (coordinator: Coordinator.DataCoordinator, room: Room, dock: Dock, binding: Binding)
      ensures this.coordinator == coordinator
      ensures zigbeeId == dock.zigbeeId && snapInId == dock.snapInId && dockNumber == dock.number
      ensures roomName == room.roomName && roomId == room.roomId
      ensures name == StrText(room.roomName) + " Ceiling Light"
      ensures uniqueId == UniqueId(dock.snapInId, None)
      ensures deviceNumber == binding.deviceNumber && firmwareVersion == binding.firmwareVersion
    {
      this.coordinator := coordinator;
      zigbeeId := dock.zigbeeId;
      snapInId := dock.snapInId;
      dockNumber := dock.number;
      var dockDeviceNumber: Option<int> := None;  // to be filled later
      roomName := room.roomName;
      roomId := room.roomId;
      name := StrText(room.roomName) + " Ceiling Light";
      uniqueId := UniqueId(dock.snapInId, dockDeviceNumber);
      dockDeviceNumber := binding.deviceNumber;
      deviceNumber := dockDeviceNumber;
      firmwareVersion := binding.firmwareVersion;
    }

    /** is_on: read the entity's SnapIn (`{}` when none) and walk its devices. */
    method IsOn() returns (r: Result<bool, ReadError>)
      ensures r == IsOnSpec(coordinator.data, zigbeeId)
    {
      var data := coordinator.data;
      if data.None? {
        return Err(NoData);
      }
      var snapIn := SnapInData(data.value, zigbeeId);
      var devices := if snapIn.Some? then snapIn.value.devices else [];
      r := ScanDevices(devices);
    }

    /** The request a toggle sends: the dock number and bound device number, unchanged. */
    function ToggleSent(): seq<Api.Event>
      reads coordinator.apiClient
    {
      [Api.Sent(Api.CommandRequest(coordinator.apiClient.apiToken, coordinator.apiClient.locationId,
                                   Api.TogglePayload(dockNumber, deviceNumber)))]
    }

    /** toggle: forward to the API client; its result is discarded. */
    method Toggle(reply: Api.Reply)
      modifies coordinator.apiClient`events
      ensures coordinator.apiClient.events == old(coordinator.apiClient.events) + ToggleSent()
    {
      var _ := coordinator.apiClient.ToggleLight(dockNumber, deviceNumber, reply);
    }

    /** async_turn_on: toggle iff the light reads off; an is_on error propagates. */
    method AsyncTurnOn(reply: Api.Reply) returns (err: Option<ReadError>)
      modifies coordinator.apiClient`events
      ensures var reading := IsOnSpec(coordinator.data, zigbeeId);
              && (reading.Err? ==> err == Some(reading.error) && coordinator.apiClient.events == old(coordinator.apiClient.events))
              && (reading == Ok(true) ==> err == None && coordinator.apiClient.events == old(coordinator.apiClient.events))
              && (reading == Ok(false) ==> err == None && coordinator.apiClient.events == old(coordinator.apiClient.events) + ToggleSent())
    {
      var isOn := IsOn();
      if isOn.Err? {
        return Some(isOn.error);
      }
      if !isOn.value {
        Toggle(reply);
      }
      return None;
    }

    /** async_turn_off: toggle iff the light reads on; an is_on error propagates. */
    method AsyncTurnOff(reply: Api.Reply) returns (err: Option<ReadError>)
      modifies coordinator.apiClient`events
      ensures var reading := IsOnSpec(coordinator.data, zigbeeId);
              && (reading.Err? ==> err == Some(reading.error) && coordinator.apiClient.events == old(coordinator.apiClient.events))
              && (reading == Ok(false) ==> err == None && coordinator.apiClient.events == old(coordinator.apiClient.events))
              && (reading == Ok(true) ==> err == None && coordinator.apiClient.events == old(coordinator.apiClient.events) + ToggleSent())
    {
      var isOn := IsOn();
      if isOn.Err? {
        return Some(isOn.error);
      }
      if isOn.value {
        Toggle(reply);
      }
      return None;
    }
  }

  /** Entity `e` was built for relay dock `p` with binding `b`. */
  predicate Describes(e: RelayBin, coordinator: Coordinator.DataCoordinator, p: (Room, Dock), b: Binding)
  {
    && e.coordinator == coordinator
    && e.zigbeeId == p.1.zigbeeId && e.snapInId == p.1.snapInId && e.dockNumber == p.1.number
    && e.roomName == p.0.roomName && e.uniqueId == UniqueId(p.1.snapInId, None)
    && e.deviceNumber == b.deviceNumber && e.firmwareVersion == b.firmwareVersion
  }

  /** `entities` are the entities of `relays`, one each, in order, every
      binding having resolved. */
  predicate Built(entities: seq<RelayBin>, coordinator: Coordinator.DataCoordinator,
                  data: Option<seq<SnapIn>>, relays: seq<(Room, Dock)>)
  {
    && |entities| == |relays|
    && forall k :: 0 <= k < |relays| ==>
         BindingSpec(data, relays[k].1.zigbeeId).Ok? &&
         Describes(entities[k], coordinator, relays[k], BindingSpec(data, relays[k].1.zigbeeId).value)
  }

  /** async_setup_entry: one entity per relay dock, room by room; the first
      construction that raises aborts the setup and no entity is added. */
  method AsyncSetupEntry(coordinator: Coordinator.DataCoordinator, system: seq<Room>)
    returns (r: Result<seq<RelayBin>, InitError>)
    ensures var relays := RelayDocks(system);
            r.Ok? <==> forall k :: 0 <= k < |relays| ==> BindingSpec(coordinator.data, relays[k].1.zigbeeId).Ok?
    ensures r.Ok? ==> Built(r.value, coordinator, coordinator.data, RelayDocks(system))
    ensures var relays := RelayDocks(system);
            r.Err? ==> exists k :: 0 <= k < |relays| && BindingSpec(coordinator.data, relays[k].1.zigbeeId) == Err(r.error)
  {
    var data := coordinator.data;
    var entities: seq<RelayBin> := [];
    var ri := 0;
    while ri < |system|
      invariant 0 <= ri <= |system|
      invariant Built(entities, coordinator, data, RelayDocks(system[..ri]))
    {
      var room := system[ri];
      var built := SetupRoom(coordinator, data, room, entities, RelayDocks(system[..ri]));
      if built.Err? {
        ghost var di :| 0 <= di < |room.docks| && IsRelayDock(room.docks[di]) &&
                  BindingSpec(data, room.docks[di].zigbeeId) == Err(built.error);
        RelayDockAt(system, ri, di);
        return Err(built.error);
      }
      entities := built.value;
      RelayDocksStep(system, ri);
      ri := ri + 1;
    }
    assert system[..ri] == system;
    return Ok(entities);
  }

  /** The inner `for dock in room.get("docks", [])` loop: append an entity
      for each relay dock of one room to those built so far. */
  method SetupRoom(coordinator: Coordinator.DataCoordinator, data: Option<seq<SnapIn>>, room: Room,
                   entities0: seq<RelayBin>, ghost before: seq<(Room, Dock)>)
    returns (r: Result<seq<RelayBin>, InitError>)
    requires Built(entities0, coordinator, data, before)
    ensures r.Ok? ==> Built(r.value, coordinator, data, before + RoomRelayDocks(room, room.docks))
    ensures r.Err? ==> exists di :: 0 <= di < |room.docks| && IsRelayDock(room.docks[di]) &&
                                    BindingSpec(data, room.docks[di].zigbeeId) == Err(r.error)
  {
    var entities := entities0;
    var di := 0;
    while di < |room.docks|
      invariant 0 <= di <= |room.docks|
      invariant Built(entities, coordinator, data, before + RoomRelayDocks(room, room.docks[..di]))
    {
      var dock := room.docks[di];
      ghost var done := RoomRelayDocks(room, room.docks[..di]);
      RoomRelayDocksStep(room, room.docks, di);
      if dock.dockCode == Some(RelayDockCode) {
        var binding := ResolveBinding(data, dock.zigbeeId);
        if binding.Err? {
          return Err(binding.error);
        }
        var entity := new RelayBin(coordinator, room, dock, binding.value);
        BuiltAppend(entities, entity, coordinator, data, before + done, (room, dock));
        assert (before + done) + [(room, dock)] == before + (done + [(room, dock)]);
        entities := entities + [entity];
      } else {
        assert done + [] == done;
      }
      di := di + 1;
    }
    assert room.docks[..di] == room.docks;
    return Ok(entities);
  }

  lemma BuiltAppend(entities: seq<RelayBin>, e: RelayBin, coordinator: Coordinator.DataCoordinator,
                    data: Option<seq<SnapIn>>, relays: seq<(Room, Dock)>, p: (Room, Dock))
    requires Built(entities, coordinator, data, relays)
    requires BindingSpec(data, p.1.zigbeeId).Ok? && Describes(e, coordinator, p, BindingSpec(data, p.1.zigbeeId).value)
    ensures Built(entities + [e], coordinator, data, relays + [p])
  {
  }

  lemma RelayDocksStep(system: seq<Room>, ri: nat)
    requires ri < |system|
    ensures RelayDocks(system[..ri + 1]) == RelayDocks(system[..ri]) + RoomRelayDocks(system[ri], system[ri].docks)
  {
    assert system[..ri + 1][..ri] == system[..ri];
  }

  lemma RoomRelayDocksStep(room: Room, docks: seq<Dock>, di: nat)
    requires di < |docks|
    ensures RoomRelayDocks(room, docks[..di + 1]) ==
              RoomRelayDocks(room, docks[..di]) + (if IsRelayDock(docks[di]) then [(room, docks[di])] else [])
  {
    assert docks[..di + 1][..di] == docks[..di];
  }

  /** Relay dock `di` of room `ri` is the entity at position k of the
      selection, k counting the relay docks before it. */
  lemma RelayDockAt(system: seq<Room>, ri: nat, di: nat)
    requires ri < |system| && di < |system[ri].docks| && IsRelayDock(system[ri].docks[di])
    ensures var k := |RelayDocks(system[..ri])| + |RoomRelayDocks(system[ri], system[ri].docks[..di])|;
            k < |RelayDocks(system)| && RelayDocks(system)[k] == (system[ri], system[ri].docks[di])
  {
    var room := system[ri];
    var before := RelayDocks(system[..ri]);
    var inRoom := RoomRelayDocks(room, room.docks[..di]);
    RelayDocksAppend(system[..ri + 1], system[ri + 1..]);
    assert system[..ri + 1] + system[ri + 1..] == system;
    RelayDocksStep(system, ri);
    RoomRelayDocksStep(room, room.docks, di);
    RoomRelayDocksPrefix(room, room.docks, di + 1);
    var whole := RoomRelayDocks(room, room.docks);
    assert whole[|inRoom|] == (room, room.docks[di]);
    assert RelayDocks(system[..ri + 1]) == before + whole;
    assert RelayDocks(system[..ri + 1])[|before| + |inRoom|] == (room, room.docks[di]);
  }

  /** The relay docks of a prefix of a room's docks lead those of the whole room. */
  lemma {:induction false} RoomRelayDocksPrefix(room: Room, docks: seq<Dock>, m: nat)
    requires m <= |docks|
    ensures |RoomRelayDocks(room, docks[..m])| <= |RoomRelayDocks(room, docks)|
    ensures RoomRelayDocks(room, docks)[..|RoomRelayDocks(room, docks[..m])|] == RoomRelayDocks(room, docks[..m])
    decreases |docks| - m
  {
    if m < |docks| {
      RoomRelayDocksPrefix(room, docks, m + 1);
      assert docks[..m + 1][..m] == docks[..m];
    } else {
      assert docks[..m] == docks;
    }
  }
}
