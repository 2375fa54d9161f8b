# Streda lights integration: a verified model of its core

This project is a Dafny model of the core of the Streda Home Assistant integration. The integration drives ceiling-light relay docks ("RelayBin" devices inside "SnapIn" modules). Three parts are modelled:

- **The push-update merge** (`custom_components/streda/coordinator.py`). The coordinator keeps the device-state tree as a cached list of SnapIns, each with Devices, each with States. `apply_signalr_updates` routes each push record to one state of that tree by `zigbeeId`, then `deviceNumber`, then state `type`, and shallow-merges the record's data into it in place. Around it sit `_handle_device_update`, the poll wrapper `_async_update_data`, and the life cycle of the push-channel handle (`async_start_signalr`, `async_stop_signalr`).
- **The credential state machine of `StredaApiClient`** (`custom_components/streda/api.py`). A refresh token is exchanged for an id token, and the id token for an API token with an expiry. This part covers the one-hour validity window, re-authentication, the location check, the device-state fetch, the SignalR negotiate call and the toggle command body.
- **The switch adapter** (`custom_components/streda/switch.py`). It selects the relay docks and creates one `RelayBin` entity per dock. Each entity binds to a device number and a firmware version at construction. It reads `is_on` from the tree and guards turn-on and turn-off with `is_on`.

HTTP replies and clock readings are inputs:

- A reply is `Reply = TransportError | Response(status, body)`. The body is `None` when it is not JSON.
- Time is integer seconds.

Every request the client sends, and every call of the refresh-token persistence callback, is appended to one event log, `events`. Contracts can therefore state both what was sent and in what order.

Files:

| file | module | contents |
|---|---|---|
| `json.dfy` | `Json` | decoded JSON values, `dict.get`, Python truthiness, `str()` of ints and its inverse |
| `tree.dfy` | `Tree` | SnapIn / Device / State / update records; first-match searches |
| `coordinator.dfy` | `Coordinator` | the merge (spec function and executed method), `DataCoordinator` class |
| `api.dfy` | `Api` | one step function per client operation, `StredaApiClient` class executing them |
| `switch.dfy` | `Switch` | dock selection, binding, `is_on`, `RelayBin` class, `async_setup_entry` |

Several behaviours of the code differ from what its names and docstrings suggest. The model follows the code in each case:

- **One update per batch.** The `return` at coordinator.py:200 sits inside the update loop. A batch therefore stops after the first update that reaches a known device, whether or not a state of its type existed. The docstring ("applying SignalR updates") suggests that every update of the batch is applied. `ApplyUpdatesStopsAtFirstHit` and `SecondUpdateInBatchIgnored` state the code's behaviour.
- **Success is status < 400.** `raise_for_status` only raises for a status of 400 or more, so "success" means any status below 400, not only 2xx.
- **Token and expiry are not kept together.** A login reply without a token clears the API token and keeps the old expiry, so a stale expiry can make a missing token look valid. `LostTokenKeepsValidExpiry` shows the consequence.
- **is_on and construction can raise.** `is_on` raises on an unbound local variable when no state is visited. Construction raises when the matching SnapIn has no FirmwareState, and also when that FirmwareState's "data" is null or not a mapping (only a missing "data" key falls back to `{}` and reads "unknown"). The model returns these as errors (`UnboundState`, `FirmwareUnbound`, `FirmwareDataInvalid`).
- **The unique id never carries the device number.** It is built before the device number is resolved, so it always ends in `_relay_None`.

## Model

| member | source | states |
|---|---|---|
| `Json.IntTextRoundTrip` | custom_components/streda/api.py:286 | the text `str(n)` of an optional int reads back as that int, and "None" reads back as no number |
| `Tree.FindSnapIn` | custom_components/streda/switch.py:105-108 | the result is the index of the first SnapIn with the zigbeeId; None exactly when no SnapIn has it |
| `Tree.FindDevice` | custom_components/streda/coordinator.py:186-188 | `next(d for d in devices if d.get("deviceNumber") == n)`: the first device with that number, or None when no device has it |
| `Tree.FindState` | custom_components/streda/coordinator.py:196-197 | the first state of the given type, or None when no state has it |
| `Coordinator.SnapInIndex` | custom_components/streda/coordinator.py:165-170 | SnapIns with a falsy zigbeeId are not indexed; every truthy zigbeeId maps to the LAST SnapIn carrying it |
| `Coordinator.PatchState` | custom_components/streda/coordinator.py:198 | `data.update(patch)`: patch keys win, every other old key keeps its value, no key is lost; nothing outside that one state changes and the tree keeps its shape |
| `Coordinator.ApplyOne` | custom_components/streda/coordinator.py:172-200 | an update without a truthy zigbeeId or deviceState, or with a zigbeeId no SnapIn has, is skipped; a hit keeps the tree's shape and changes only the last SnapIn with the update's zigbeeId |
| `Coordinator.ApplyUpdates` | custom_components/streda/coordinator.py:158-200 | the merged tree has the same lengths, order, identifiers and state types as before |
| `Coordinator.ApplyOneHit` | custom_components/streda/coordinator.py:192-199 | an update reaching a device patches exactly the first state of its type, in the last SnapIn with its zigbeeId and the first device with its number; a state without "data" raises |
| `Coordinator.ApplyOneStateMissing` | custom_components/streda/coordinator.py:195-200 | a known device with no state of the update's type: no state is created, the tree is unchanged, and the batch still ends |
| `Coordinator.ApplyOneDeviceMissing` | custom_components/streda/coordinator.py:184-190 | a known SnapIn without a device of the update's number: the update is skipped like an unknown zigbeeId |
| `Coordinator.ApplyUpdatesStopsAtFirstHit` | custom_components/streda/coordinator.py:200 | the first update that is not skipped decides the whole batch; whatever follows it is never looked at |
| `Coordinator.ApplyUpdatesAllSkipped` | custom_components/streda/coordinator.py:172-190 | a batch of skipped updates leaves the tree as it was and raises nothing |
| `Coordinator.PowerUpdateMerges` | custom_components/streda/coordinator.py:192-198 | a PowerState "ON" patch on an "OFF" state with another key gives "ON" with the other key kept |
| `Coordinator.SecondUpdateInBatchIgnored` | custom_components/streda/coordinator.py:200 | a batch with updates for two known SnapIns changes only the first SnapIn |
| `Coordinator.ProcessUpdate` | custom_components/streda/coordinator.py:172-200 | the executed loop body (index lookup, device search, state loop with `break`) returns what `ApplyOne` specifies |
| `Coordinator.ApplySignalrUpdates` | custom_components/streda/coordinator.py:158-200 | the index-building loop and the update loop compute exactly `ApplyUpdates` |
| `Coordinator.DataCoordinator.constructor` | custom_components/streda/coordinator.py:20-37 | no data and no push-channel handle at start |
| `Coordinator.DataCoordinator.AsyncUpdateData` | custom_components/streda/coordinator.py:39-48 | a fetched tree replaces the cache and is published; a failed fetch raises UpdateFailed and keeps the old data |
| `Coordinator.DataCoordinator.AsyncStartSignalr` | custom_components/streda/coordinator.py:50-95 | a failed fetch changes nothing; otherwise the cache is replaced, the handle is built with the negotiated token, and the start's failure is reported |
| `Coordinator.DataCoordinator.HandleDeviceUpdate` | custom_components/streda/coordinator.py:133-145 | without data nothing happens; otherwise the cache becomes the merge of the message and is published, or stays unchanged when the merge raises |
| `Coordinator.DataCoordinator.AsyncStopSignalr` | custom_components/streda/coordinator.py:147-156 | without a handle nothing is stopped; with one it is stopped once; afterwards there is no handle, even if stopping raised |
| `Api.ReplyObject` | custom_components/streda/api.py:79-81 | a reply yields its mapping exactly when `raise_for_status` passes (status < 400) and the body decodes to a JSON object; the mapping is that object |
| `Api.B2cStep` | custom_components/streda/api.py:66-102 | the grant request carries the current refresh token; a failed reply changes nothing and persists nothing; a usable one overwrites both tokens, persists the new refresh token once (before the id-token check), and succeeds iff an id token came back |
| `Api.LoginStep` | custom_components/streda/api.py:104-134 | a usable reply always overwrites the API token; success iff a token and an integer lifetime came back, and then expiry = now + lifetime; otherwise the old expiry stays |
| `Api.ReauthStep` | custom_components/streda/api.py:57-64 | a valid token: no request, nothing changes, False; otherwise the credentials are those `LoginStep` leaves after `B2cStep` (new API token and expiry in place), the log is the grant's events then the login's, and the result is True whatever they returned |
| `Api.VerifyAccessStep` | custom_components/streda/api.py:162-198 | a failed grant ends the call with its effect; after a good grant the credentials are those the login leaves and the log is grant, login, then the location request only if the login succeeded (with the new API token); True iff both succeed and the location reply is neither 404, 403 nor a failure |
| `Api.DeviceStatesResult` | custom_components/streda/api.py:214-225 | a failed or undecodable reply raises; a JSON list is returned as is, anything else as [] |
| `Api.DeviceStatesStep` | custom_components/streda/api.py:200-225 | with an API token, exactly one fetch with that token; without one, verify_access runs first and the fetch uses the token it left |
| `Api.NegotiateStep` | custom_components/streda/api.py:136-160 | the result is a usable token exactly when the reply carried one; False when it did not; "" when the request failed |
| `Api.TogglePayload` | custom_components/streda/api.py:281-288 | action "ActionSwitch", switchAction "TOGGLE", the device number as given, and the dock number as decimal text that reads back as that number |
| `Api.ToggleStep` | custom_components/streda/api.py:268-303 | one command request with the payload and the current API token; credentials unchanged; True iff the request did not fail |
| `Api.ReauthPersistsOnceBeforeLogin` | custom_components/streda/api.py:83-92 | during re-authentication with a usable grant reply, the callback runs exactly once, with the rotated token, between the grant and the login |
| `Api.FailedGrantPersistsNothing` | custom_components/streda/api.py:79-84 | a failed grant never calls the callback and keeps the refresh token |
| `Api.LoginValidityWindow` | custom_components/streda/api.py:53-55 | after a login at t0 with lifetime d the token is valid at t iff t < t0 + d - 3600; a lifetime of an hour or less is never valid |
| `Api.LostTokenKeepsValidExpiry` | custom_components/streda/api.py:113-117 | a login reply without a token clears the API token but keeps a still-valid expiry, so re-authentication then does nothing |
| `Api.StredaApiClient.constructor` | custom_components/streda/api.py:24-40 | the refresh token is the given one; no id token, API token or expiry; empty log |
| `Api.StredaApiClient.VerifyTokenValidity` | custom_components/streda/api.py:42-55 | False when no expiry is set; otherwise True iff now is more than 3600 s before the expiry |
| `Api.StredaApiClient.AuthenticateB2c` | custom_components/streda/api.py:66-102 | the fields and the log change as `B2cStep` of the old credentials says |
| `Api.StredaApiClient.AuthenticateApi` | custom_components/streda/api.py:104-134 | the fields and the log change as `LoginStep` of the old credentials says |
| `Api.StredaApiClient.ReauthenticateIfNeeded` | custom_components/streda/api.py:57-64 | the fields, the log and the result are `ReauthStep` of the old credentials |
| `Api.StredaApiClient.GetSignalrAccessToken` | custom_components/streda/api.py:136-160 | one negotiate request with the API token; the token as `NegotiateStep` specifies |
| `Api.StredaApiClient.VerifyAccess` | custom_components/streda/api.py:162-198 | the fields, the log and the result are `VerifyAccessStep` of the old credentials |
| `Api.StredaApiClient.GetDeviceStates` | custom_components/streda/api.py:200-225 | the fields, the log and the result are `DeviceStatesStep` of the old credentials |
| `Api.StredaApiClient.ToggleLight` | custom_components/streda/api.py:268-303 | one command request appended to the log; the result as `ToggleStep` specifies |
| `Switch.RoomDocks` | custom_components/streda/switch.py:34 | every dock of a room, paired with that room, in order |
| `Switch.RelayDocksSelects` | custom_components/streda/switch.py:33-38 | every dock with code "BN1-C" gets exactly one entity per occurrence; no other dock gets any |
| `Switch.RelayDocksAppend` | custom_components/streda/switch.py:33-38 | entities come room by room in system order (the selection distributes over concatenation) |
| `Switch.LastRelayNumber` | custom_components/streda/switch.py:86-89 | the bound number is that of the LAST RelayBin device, None when there is none |
| `Switch.FirmwareVersion` | custom_components/streda/switch.py:83-85 | a present firmwareVersion is returned; "unknown" when "data" is missing or has no firmwareVersion; None (the `.get` raises) when "data" is null or not a mapping |
| `Switch.BindingSpec` | custom_components/streda/switch.py:70-98 | without data construction fails; it succeeds exactly when the FIRST SnapIn with the zigbeeId has a FirmwareState whose version can be read, and then binds its last RelayBin number and the version of its FIRST FirmwareState; no such FirmwareState leaves the name unbound, an unreadable one raises |
| `Switch.FirmwareDataMissingVersusNull` | custom_components/streda/switch.py:83-85 | a FirmwareState without "data" binds the version "unknown"; one whose "data" is null makes construction raise |
| `Switch.FirstFirmwareState` | custom_components/streda/switch.py:74-81 | the executed `next(...)` finds the first FirmwareState |
| `Switch.BoundDeviceNumber` | custom_components/streda/switch.py:86-89 | the executed device loop leaves `LastRelayNumber` |
| `Switch.ResolveBinding` | custom_components/streda/switch.py:69-98 | the executed resolution loop (search, `break`, unbound name) computes `BindingSpec` |
| `Switch.UniqueIdMissesBinding` | custom_components/streda/switch.py:57-67 | the unique id built with device number None differs from the one any resolved number would give |
| `Switch.SnapInData` | custom_components/streda/switch.py:101-108 | the first SnapIn with the entity's zigbeeId; `{}` (None) exactly when there is none |
| `Switch.ScanSpec` | custom_components/streda/switch.py:116-119 | a visited PowerState without data raises; nothing visited raises; otherwise True iff the LAST visited state is a PowerState whose data.state is "ON" |
| `Switch.IsOnSpec` | custom_components/streda/switch.py:110-119 | no coordinator data raises; an unknown zigbeeId visits nothing and raises; otherwise the scan over the RelayBin devices' states |
| `Switch.VisitStates` | custom_components/streda/switch.py:116-118 | the executed state loop, reassigning `state`, leaves the value `state` has after those states, or raises on a PowerState without data |
| `Switch.ScanDevices` | custom_components/streda/switch.py:114-119 | the executed device and state loops compute `ScanSpec` of the visited states |
| `Switch.IsOnReadsOnlyLastVisited` | custom_components/streda/switch.py:116-119 | an "ON" PowerState followed by a FirmwareState reads as off; the reverse order reads as on |
| `Switch.PushUpdateTurnsOn` | custom_components/streda/coordinator.py:192-200 | an "ON" push update for the bound device turns the entity's reading from off to on |
| `Switch.ShadowedSnapInHidesUpdates` | custom_components/streda/switch.py:104-107 | when two SnapIns share a zigbeeId, the merge patches the last one while the entity reads the first, so its reading never changes |
| `Switch.RelayBin.constructor` | custom_components/streda/switch.py:47-99 | identity from the dock, name "<room> Ceiling Light", unique id with device number None, device number and firmware version from the binding |
| `Switch.RelayBin.IsOn` | custom_components/streda/switch.py:110-119 | computes `IsOnSpec` of the coordinator's current data |
| `Switch.RelayBin.Toggle` | custom_components/streda/switch.py:127-131 | one toggle command with the entity's dock number and bound device number, unchanged |
| `Switch.RelayBin.AsyncTurnOn` | custom_components/streda/switch.py:133-136 | toggles exactly when is_on reads False; nothing is sent when it reads True or raises, and the error propagates |
| `Switch.RelayBin.AsyncTurnOff` | custom_components/streda/switch.py:138-141 | toggles exactly when is_on reads True; nothing is sent when it reads False or raises, and the error propagates |
| `Switch.SetupRoom` | custom_components/streda/switch.py:34-38 | the dock loop of one room appends one entity per relay dock, in order, or fails with the error of a relay dock of that room that did not bind |
| `Switch.AsyncSetupEntry` | custom_components/streda/switch.py:19-41 | succeeds iff every relay dock binds; it then builds one entity per relay dock, in order, each bound as `BindingSpec` says; otherwise the error of a relay dock that failed |

## Left out

- aiohttp transport, `async_timeout` bounds and JSON decoding: replies are inputs, and a body that is not JSON is `None`.
- Floating-point JSON numbers (numbers are integers), and Python's `1 == True` in comparisons of identifiers.
- The SignalR hub builder, its reconnect intervals, the open/close/error callbacks and the subscribe `send` (coordinator.py:57-91, 114-130). They are a thin wrapper over the signalrcore library.
- `call_soon_threadsafe` and `async_add_executor_job`: cross-thread scheduling. Concurrency between polling and push updates is not modelled; each operation runs alone.
- `_reconnect_signalr`: its one-second sleep and its restart are concurrency around `async_start_signalr`, which is modelled.
- `discover_system` and its `asyncio.gather`: the switch setup takes the discovered rooms and docks as an input.
- `custom_components/streda/__init__.py` and `config_flow.py` (Home Assistant setup glue and the UI form), including the "reconnect iff re-authenticated" line.
- Decoding the fetched JSON list into tree records: the coordinator takes the fetched tree, or the fetch error, as an input.
- Coordinator.ApplyOne: a device that is an empty mapping is falsy in Python and is skipped; the model treats every matched device as present.
- Coordinator.PatchState: a "data" value in a patch that is null or not a mapping (so `update` raises or accepts pairs) is not modelled; patch data is always a mapping.
- Api.LoginStep: `timedelta` overflow for huge lifetimes is not modelled.
- Switch.RelayBin.constructor: the `"Unknown"` default for a missing `room_name` cannot occur, because discovery always sets that key; the device-info record (`DeviceInfo`, `POSITION_DESCRIPTIONS`) and the icon are display metadata and are left out.
- Logging and the `DataUpdateCoordinator` base-class internals (listener scheduling, the second notification after a poll).
