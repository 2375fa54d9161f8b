/** The data coordinator: the push-update merge into the cached device-state
    tree (apply_signalr_updates), the handlers around it, the poll wrapper,
    and the lifecycle of the push-channel handle. */
module Coordinator {
  import opened Json
  import opened Tree
  import Api

  /** `snapin_index`: each truthy zigbeeId mapped to the position of the LAST
      SnapIn carrying it; SnapIns with a falsy zigbeeId are not indexed. */
  function SnapInIndex(tree: seq<SnapIn>): (index: map<string, nat>)
    ensures forall z :: z in index ==> z != "" && index[z] < |tree| && tree[index[z]].zigbeeId == Some(z)
    ensures forall z, j :: z in index && index[z] < j < |tree| ==> tree[j].zigbeeId != Some(z)
    ensures forall j :: 0 <= j < |tree| && Present(tree[j].zigbeeId) ==> tree[j].zigbeeId.value in index
    decreases |tree|
  {
    if tree == [] then map[]
    else
      var n := |tree| - 1;
      var prefix := SnapInIndex(tree[..n]);
      assert forall j :: 0 <= j < n ==> tree[..n][j] == tree[j];
      if Present(tree[n].zigbeeId) then prefix[tree[n].zigbeeId.value := n] else prefix
  }

  /** `state["data"].update(patch)` on one state record, everything else kept. */
  function PatchState(tree: seq<SnapIn>, i: nat, d: nat, s: nat, patch: map<string, Value>): (t: seq<SnapIn>)
    requires i < |tree| && d < |tree[i].devices| && s < |tree[i].devices[d].states|
    requires tree[i].devices[d].states[s].Fields().Some?
    ensures SameShape(tree, t)
    // nothing outside the one record changes
    ensures forall j :: 0 <= j < |tree| && j != i ==> t[j] == tree[j]
    ensures forall e :: 0 <= e < |tree[i].devices| && e != d ==> t[i].devices[e] == tree[i].devices[e]
    ensures forall q :: 0 <= q < |tree[i].devices[d].states| && q != s ==>
              t[i].devices[d].states[q] == tree[i].devices[d].states[q]
    // shallow merge: the patch's keys win, every other old key keeps its value
    ensures var before := tree[i].devices[d].states[s].Fields().value;
            var after := t[i].devices[d].states[s].Fields().value;
            && after.Keys == before.Keys + patch.Keys
            && (forall k :: k in patch ==> after[k] == patch[k])
            && (forall k :: k in before && k !in patch ==> after[k] == before[k])
  {
    var snapIn := tree[i];
    var device := snapIn.devices[d];
    var state := device.states[s];
    var merged := state.(data := Some(JObj(state.Fields().value + patch)));
    tree[i := snapIn.(devices := snapIn.devices[d := device.(states := device.states[s := merged])])]
  }

  /** What processing one update does: `continue`, `return` (with the tree
      after any patch), or raise because the matched state has no "data". */
  datatype StepResult = Skip | Stop(tree: seq<SnapIn>) | Raise

  /** The result of apply_signalr_updates: the tree afterwards, or the
      exception it raised (the tree is then untouched). */
  datatype MergeResult = Merged(tree: seq<SnapIn>) | MergeRaised

  /** The body of the `for update in updates` loop, for one update. */
  function ApplyOne(tree: seq<SnapIn>, u: Update): (r: StepResult)
    // a falsy zigbeeId or deviceState: skipped
    ensures !(Present(u.zigbeeId) && u.deviceState.Some?) ==> r == Skip
    // a zigbeeId no SnapIn carries: skipped
    ensures (forall j :: 0 <= j < |tree| ==> tree[j].zigbeeId != u.zigbeeId) ==> r == Skip
    ensures r.Stop? ==> SameShape(tree, r.tree)
    // only the last SnapIn carrying the update's zigbeeId can change
    ensures r.Stop? ==> forall j :: 0 <= j < |tree| && r.tree[j] != tree[j] ==>
              tree[j].zigbeeId == u.zigbeeId && forall k :: j < k < |tree| ==> tree[k].zigbeeId != u.zigbeeId
  {
    if !(Present(u.zigbeeId) && u.deviceState.Some?) then Skip
    else
      var index := SnapInIndex(tree);
      var z := u.zigbeeId.value;
      if z !in index then Skip
      else
        var i := index[z];
        match FindDevice(tree[i].devices, u.deviceNumber)
        case None => Skip
        case Some(d) =>
          var patch := u.deviceState.value;
          match FindState(tree[i].devices[d].states, patch.stateType)
          case None => Stop(tree)
          case Some(s) =>
            if tree[i].devices[d].states[s].Fields().None? then Raise
            else Stop(PatchState(tree, i, d, s, patch.data))
  }

  /** apply_signalr_updates as written: updates are processed in order, and
      the first one that reaches a known device ends the batch. */
  function ApplyUpdates(tree: seq<SnapIn>, updates: seq<Update>): (r: MergeResult)
    ensures r.Merged? ==> SameShape(tree, r.tree)
    decreases |updates|
  {
    if updates == [] then Merged(tree)
    else match ApplyOne(tree, updates[0])
      case Skip => ApplyUpdates(tree, updates[1..])
      case Stop(t) => Merged(t)
      case Raise => MergeRaised
  }

  /** An update reaching device `d` of SnapIn `i` (the last SnapIn with its
      zigbeeId, the first device with its number) patches the first state of
      its type, by a shallow merge, and nothing else. */
  lemma ApplyOneHit(tree: seq<SnapIn>, u: Update, i: nat, d: nat, s: nat)
    requires Present(u.zigbeeId) && u.deviceState.Some?
    requires i < |tree| && tree[i].zigbeeId == u.zigbeeId
    requires forall j :: i < j < |tree| ==> tree[j].zigbeeId != u.zigbeeId
    requires d < |tree[i].devices| && tree[i].devices[d].deviceNumber == u.deviceNumber
    requires forall e :: 0 <= e < d ==> tree[i].devices[e].deviceNumber != u.deviceNumber
    requires s < |tree[i].devices[d].states| && tree[i].devices[d].states[s].stateType == u.deviceState.value.stateType
    requires forall q :: 0 <= q < s ==> tree[i].devices[d].states[q].stateType != u.deviceState.value.stateType
    ensures tree[i].devices[d].states[s].Fields().None? ==> ApplyOne(tree, u) == Raise
    ensures tree[i].devices[d].states[s].Fields().Some? ==>
              ApplyOne(tree, u) == Stop(PatchState(tree, i, d, s, u.deviceState.value.data))
  {
    var index := SnapInIndex(tree);
    var z := u.zigbeeId.value;
    assert z in index;
    assert index[z] == i;
    var found := FindDevice(tree[i].devices, u.deviceNumber);
    assert found == Some(d);
    var states := tree[i].devices[d].states;
    var matched := FindState(states, u.deviceState.value.stateType);
    assert matched == Some(s);
  }

  /** A known device with no state of the update's type: no record is
      created, the tree is unchanged, and the batch still ends. */
  lemma ApplyOneStateMissing(tree: seq<SnapIn>, u: Update, i: nat, d: nat)
    requires Present(u.zigbeeId) && u.deviceState.Some?
    requires i < |tree| && tree[i].zigbeeId == u.zigbeeId
    requires forall j :: i < j < |tree| ==> tree[j].zigbeeId != u.zigbeeId
    requires d < |tree[i].devices| && tree[i].devices[d].deviceNumber == u.deviceNumber
    requires forall e :: 0 <= e < d ==> tree[i].devices[e].deviceNumber != u.deviceNumber
    requires forall q :: 0 <= q < |tree[i].devices[d].states| ==>
               tree[i].devices[d].states[q].stateType != u.deviceState.value.stateType
    ensures ApplyOne(tree, u) == Stop(tree)
  {
    var index := SnapInIndex(tree);
    var z := u.zigbeeId.value;
    assert index[z] == i;
    var found := FindDevice(tree[i].devices, u.deviceNumber);
    assert found == Some(d);
  }

  /** A known zigbeeId whose SnapIn has no device with the update's number:
      skipped, like an unknown zigbeeId. */
  lemma ApplyOneDeviceMissing(tree: seq<SnapIn>, u: Update, i: nat)
    requires Present(u.zigbeeId) && u.deviceState.Some?
    requires i < |tree| && tree[i].zigbeeId == u.zigbeeId
    requires forall j :: i < j < |tree| ==> tree[j].zigbeeId != u.zigbeeId
    requires forall e :: 0 <= e < |tree[i].devices| ==> tree[i].devices[e].deviceNumber != u.deviceNumber
    ensures ApplyOne(tree, u) == Skip
  {
    var index := SnapInIndex(tree);
    var z := u.zigbeeId.value;
    assert index[z] == i;
  }

  /** The batch ends at the first update that is not skipped: its outcome is
      the outcome of the whole batch, and no later update is looked at. */
  lemma {:induction false} ApplyUpdatesStopsAtFirstHit(tree: seq<SnapIn>, updates: seq<Update>, k: nat, rest: seq<Update>)
    requires k < |updates|
    requires forall j :: 0 <= j < k ==> ApplyOne(tree, updates[j]).Skip?
    requires !ApplyOne(tree, updates[k]).Skip?
    ensures ApplyUpdates(tree, updates) == ApplyUpdates(tree, updates[..k + 1] + rest)
    ensures ApplyUpdates(tree, updates) ==
              if ApplyOne(tree, updates[k]).Raise? then MergeRaised else Merged(ApplyOne(tree, updates[k]).tree)
    decreases k
  {
    var other := updates[..k + 1] + rest;
    assert other[0] == updates[0];
    if k > 0 {
      assert ApplyOne(tree, updates[0]).Skip?;
      forall j | 0 <= j < k - 1
        ensures ApplyOne(tree, updates[1..][j]).Skip?
      {
        assert updates[1..][j] == updates[j + 1];
      }
      assert updates[1..][k - 1] == updates[k];
      assert updates[1..][..k] + rest == other[1..];
      ApplyUpdatesStopsAtFirstHit(tree, updates[1..], k - 1, rest);
      assert ApplyUpdates(tree, updates) == ApplyUpdates(tree, updates[1..]);
      assert ApplyUpdates(tree, other) == ApplyUpdates(tree, other[1..]);
    }
  }

  /** A batch in which every update is skipped leaves the tree as it was. */
  lemma {:induction false} ApplyUpdatesAllSkipped(tree: seq<SnapIn>, updates: seq<Update>)
    requires forall j :: 0 <= j < |updates| ==> ApplyOne(tree, updates[j]).Skip?
    ensures ApplyUpdates(tree, updates) == Merged(tree)
    decreases |updates|
  {
    if updates != [] {
      ApplyUpdatesAllSkipped(tree, updates[1..]);
    }
  }

  /** The merge of a single PowerState update: the state becomes "ON" and
      the record's other keys survive. */
  lemma PowerUpdateMerges()
    ensures
      var before := [SnapIn(Some("Z1"), [Device(Some(1), Some("RelayBin"),
                        [State(Some("PowerState"), Some(JObj(map["state" := JStr("OFF"), "since" := JNum(7)])))])], [])];
      var u := Update(Some("Z1"), Some(1), Some(StatePatch(Some("PowerState"), map["state" := JStr("ON")])));
      ApplyUpdates(before, [u]) ==
        Merged([SnapIn(Some("Z1"), [Device(Some(1), Some("RelayBin"),
                  [State(Some("PowerState"), Some(JObj(map["state" := JStr("ON"), "since" := JNum(7)])))])], [])])
  {
    var before := [SnapIn(Some("Z1"), [Device(Some(1), Some("RelayBin"),
                      [State(Some("PowerState"), Some(JObj(map["state" := JStr("OFF"), "since" := JNum(7)])))])], [])];
    var u := Update(Some("Z1"), Some(1), Some(StatePatch(Some("PowerState"), map["state" := JStr("ON")])));
    ApplyOneHit(before, u, 0, 0, 0);
    assert ApplyUpdates(before, [u]) == Merged(PatchState(before, 0, 0, 0, map["state" := JStr("ON")]));
    var merged := map["state" := JStr("OFF"), "since" := JNum(7)] + map["state" := JStr("ON")];
    assert merged == map["state" := JStr("ON"), "since" := JNum(7)];
    var st := before[0].devices[0].states[0].(data := Some(JObj(merged)));
    var dev := before[0].devices[0].(states := before[0].devices[0].states[0 := st]);
    assert before[0].devices[0].states[0 := st] == [st];
    assert before[0].devices[0 := dev] == [dev];
    assert before[0 := before[0].(devices := [dev])] == [before[0].(devices := [dev])];
    assert PatchState(before, 0, 0, 0, map["state" := JStr("ON")])
        == [SnapIn(Some("Z1"), [Device(Some(1), Some("RelayBin"), [State(Some("PowerState"), Some(JObj(merged)))])], [])];
  }

  /** One message carrying updates for two known devices changes only the
      first: the second SnapIn keeps its old power state. */
  lemma SecondUpdateInBatchIgnored()
    ensures
      var off := State(Some("PowerState"), Some(JObj(map["state" := JStr("OFF")])));
      var before := [SnapIn(Some("Z1"), [Device(Some(1), Some("RelayBin"), [off])], []),
                     SnapIn(Some("Z2"), [Device(Some(1), Some("RelayBin"), [off])], [])];
      var patch := Some(StatePatch(Some("PowerState"), map["state" := JStr("ON")]));
      var batch := [Update(Some("Z1"), Some(1), patch), Update(Some("Z2"), Some(1), patch)];
      ApplyUpdates(before, batch).Merged? && ApplyUpdates(before, batch).tree[1] == before[1]
  {
    var off := State(Some("PowerState"), Some(JObj(map["state" := JStr("OFF")])));
    var before := [SnapIn(Some("Z1"), [Device(Some(1), Some("RelayBin"), [off])], []),
                   SnapIn(Some("Z2"), [Device(Some(1), Some("RelayBin"), [off])], [])];
    var patch := Some(StatePatch(Some("PowerState"), map["state" := JStr("ON")]));
    var batch := [Update(Some("Z1"), Some(1), patch), Update(Some("Z2"), Some(1), patch)];
    ApplyOneHit(before, batch[0], 0, 0, 0);
    ApplyUpdatesStopsAtFirstHit(before, batch, 0, []);
  }

  /** The body of the `for update in updates` loop: look the update up and,
      on a hit, patch the first state of its type in place. */
  method ProcessUpdate(fullState: seq<SnapIn>, snapinIndex: map<string, nat>, update: Update) returns (step: StepResult)
    requires snapinIndex == SnapInIndex(fullState)
    ensures step == ApplyOne(fullState, update)
  {
    if !(Present(update.zigbeeId) && update.deviceState.Some?) {
      return Skip;
    }
    var zigbeeId := update.zigbeeId.value;
    if zigbeeId !in snapinIndex {
      return Skip;
    }
    var snapin := fullState[snapinIndex[zigbeeId]];
    var device := FindDevice(snapin.devices, update.deviceNumber);
    if device.None? {
      return Skip;
    }
    var patch := update.deviceState.value;
    var states := snapin.devices[device.value].states;
    var tree := fullState;
    var s := 0;
    while s < |states|
      invariant 0 <= s <= |states|
      invariant forall q :: 0 <= q < s ==> states[q].stateType != patch.stateType
    {
      if states[s].stateType == patch.stateType {
        assert FindState(states, patch.stateType) == Some(s);
        if states[s].Fields().None? {
          return Raise;
        }
        tree := PatchState(fullState, snapinIndex[zigbeeId], device.value, s, patch.data);
        break;
      }
      s := s + 1;
    }
    assert s == |states| ==> FindState(states, patch.stateType).None?;
    return Stop(tree);
  }

  /** apply_signalr_updates, executed: build the SnapIn index, then walk the
      updates until one is not skipped; the tree it mutates in place is
      returned. */
  method ApplySignalrUpdates(fullState: seq<SnapIn>, updates: seq<Update>) returns (r: MergeResult)
    ensures r == ApplyUpdates(fullState, updates)
  {
    // Index SnapIns by zigbeeId
    var snapinIndex: map<string, nat> := map[];
    var i := 0;
    while i < |fullState|
      invariant 0 <= i <= |fullState|
      invariant snapinIndex == SnapInIndex(fullState[..i])
    {
      var zigbeeId := fullState[i].zigbeeId;
      if Present(zigbeeId) {
        snapinIndex := snapinIndex[zigbeeId.value := i];
      }
      assert fullState[..i + 1][..i] == fullState[..i];
      i := i + 1;
    }
    assert fullState[..i] == fullState;

    var k := 0;
    while k < |updates|
      invariant 0 <= k <= |updates|
      invariant ApplyUpdates(fullState, updates[k..]) == ApplyUpdates(fullState, updates)
    {
      assert updates[k..][0] == updates[k] && updates[k..][1..] == updates[k + 1..];
      var step := ProcessUpdate(fullState, snapinIndex, updates[k]);
      k := k + 1;
      match step
      case Skip =>
      case Stop(tree) => return Merged(tree);
      case Raise => return MergeRaised;
    }
    return Merged(fullState);
  }

  /** The push-channel handle, built with the negotiated access token. */
  datatype HubConnection = HubConnection(accessToken: Value)

  /** What `_async_update_data` raises when the fetch fails. */
  datatype UpdateError = UpdateFailed

  /** DataCoordinator: owns the cached tree (`data["device_states"]`, None
      before the first refresh) and the push-channel handle; `published`
      counts the `async_set_updated_data` notifications to the entities. */
  class DataCoordinator {
    const apiClient: Api.StredaApiClient
    const locationId: string
    var data: Option<seq<SnapIn>>
    var hubConnection: Option<HubConnection>
    var published: nat
    /** Handles whose `stop` was called, in order. */
    var stopped: seq<HubConnection>

    constructor (apiClient: Api.StredaApiClient, locationId: string)
      ensures this.apiClient == apiClient && this.locationId == locationId
      ensures data.None? && hubConnection.None? && published == 0 && stopped == []
    {
      this.apiClient := apiClient;
      this.locationId := locationId;
      data := None;
      hubConnection := None;
      published := 0;
      stopped := [];
    }

    /** _async_update_data: a fetched tree replaces the cache wholesale and is
        published; a failed fetch raises UpdateFailed and keeps the last data. */
    method AsyncUpdateData(fetched: Result<seq<SnapIn>, Api.RequestError>) returns (r: Result<seq<SnapIn>, UpdateError>)
      modifies this`data, this`published
      ensures fetched.Ok? ==> data == Some(fetched.value) && published == old(published) + 1 && r == Ok(fetched.value)
      ensures fetched.Err? ==> data == old(data) && published == old(published) && r == Err(UpdateFailed)
    {
      if fetched.Err? {
        return Err(UpdateFailed);
      }
      data := Some(fetched.value);
      published := published + 1;
      return Ok(fetched.value);
    }

    /** async_start_signalr: load the tree, then build the handle with the
        negotiated token (whatever it is, even "" or False); `startFails`
        stands for `hub_connection.start` raising, after the handle is set. */
    method AsyncStartSignalr(fetched: Result<seq<SnapIn>, Api.RequestError>, accessToken: Value, startFails: bool)
      returns (ok: bool)
      modifies this`data, this`published, this`hubConnection
      ensures fetched.Err? ==> !ok && data == old(data) && published == old(published) && hubConnection == old(hubConnection)
      ensures fetched.Ok? ==>
                && data == Some(fetched.value) && published == old(published) + 1
                && hubConnection == Some(HubConnection(accessToken))
                && ok == !startFails
    {
      if fetched.Err? {
        return false;
      }
      data := Some(fetched.value);
      published := published + 1;
      hubConnection := Some(HubConnection(accessToken));
      return !startFails;
    }

    /** _handle_device_update: merge a push message into the cached tree and
        publish it; any exception (no data yet, a state without data) is
        logged and leaves everything as it was. */
    method HandleDeviceUpdate(message: seq<Update>)
      modifies this`data, this`published
      ensures old(data).None? ==> data == old(data) && published == old(published)
      ensures old(data).Some? && ApplyUpdates(old(data).value, message).Merged? ==>
                data == Some(ApplyUpdates(old(data).value, message).tree) && published == old(published) + 1
      ensures old(data).Some? && ApplyUpdates(old(data).value, message).MergeRaised? ==>
                data == old(data) && published == old(published)
    {
      if data.None? {
        return;
      }
      var current := data.value;
      var merged := ApplySignalrUpdates(current, message);
      if merged.MergeRaised? {
        return;
      }
      data := Some(merged.tree);
      published := published + 1;
    }

    /** async_stop_signalr: stop the handle if there is one; afterwards there
        is none. A stop that raises is caught and logged, and `finally` clears
        the handle all the same, so both outcomes end in this state. */
    method AsyncStopSignalr()
      modifies this`hubConnection, this`stopped
      ensures hubConnection.None?
      ensures old(hubConnection).None? ==> stopped == old(stopped)
      ensures old(hubConnection).Some? ==> stopped == old(stopped) + [old(hubConnection).value]
    {
      if hubConnection.Some? {
        stopped := stopped + [hubConnection.value];
        hubConnection := None;
      }
    }
  }
}
