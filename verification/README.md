# Refoss energy-meter adapter: a Dafny model

The Refoss adapter connects Refoss energy meters (models `em06`, `em06p` and `em16p`) on
the local network to an ioBroker host. The model covers the engine's core:

- **Discovery.** The discovery server (`lib/protocol/udp4.js`) listens for announcement
  datagrams, validates each one and registers every new device by its UUID. It then
  starts one device session per device.
- **Device sessions.** A session (`lib/protocol/base.js`) derives the device id and
  registers the model's datapoint catalog as host objects. Every 15 seconds it polls the
  device over HTTP and writes each datapoint's value. It also creates and updates the
  totals of merged channel groups.
- **Catalogs.** The model tables (`lib/devices/*.js`) and the model registry
  (`lib/datapoints.js`) define what a session registers and how it reads each value.
- **The adapter.** The adapter (`main.js`) tracks which devices are online, keeps the
  `info.connection` flag, checks liveness on a 15-second timer and shuts everything down
  on unload.

Module map:

| module | file | models |
|---|---|---|
| `Wrappers`, `Text`, `Json` | `wrappers.dfy`, `text.dfy`, `json.dfy` | `Option`; string helpers; JSON values, their truthiness and `===`, under which arrays and objects equal nothing |
| `Catalog` | `catalog.dfy` | quantities, datapoint definitions, JS objects as ordered dictionaries, `{...a, ...b}` and the per-channel catalog builder |
| `Em06`, `Em06p`, `Em16p` | `em06.dfy`, `em06p.dfy`, `em16p.dfy` | the three model tables |
| `Datapoints` | `datapoints.dfy` | `getDeviceTypeByClass` and `getDeviceByClass` |
| `Telemetry` | `telemetry.dfy` | the per-channel getters and the merge totals |
| `Store` | `store.dfy` | the host's object and state database, as a class |
| `DeviceSession` | `session.dfy` | the session class `Base` |
| `Discovery` | `discovery.dfy` | the datagram handler and the class `BaseServer` |
| `Adapter` | `adapter.dfy` | the adapter class `Refoss` |

How the model is built:

- **Imperative code is modelled as classes.** Code that updates fields or the host's
  database becomes a class with methods; each loop is a `while` loop. Every such method
  is proved equal to a specification function over values, and the lemmas are stated
  about those functions.
- **Externals are parameters.** These are:
  - the HTTP transport: a `fetch` oracle from request to optional answer;
  - the JSON parser;
  - the host's number normaliser `getNumFormate`;
  - the forbidden-character test `FORBIDDEN_CHARS`;
  - the shared default datapoints `refossdefaults`, and what a default's `init_funct(this)` computes when it reads the session rather than its snapshot (`sessionRead`);
  - the liveness probe.
- **Timers are flags.** A pending timer is a boolean, or a count of pending timers.

## Model

| member | source | states |
|---|---|---|
| `Datapoints.GetDeviceTypeByClass` | lib/datapoints.js:14-38 | a class is supported exactly when it is `em06`, `em06p` or `em16p` |
| `Datapoints.GetDeviceByClass` | lib/datapoints.js:21-29 | a catalog is returned exactly for a supported class name given as a string; anything else gives `undefined` |
| `Datapoints.ModelCatalogDistinct` | lib/datapoints.js:21-29 | each supported class has a model catalog, and its state ids are distinct |
| `Datapoints.ModelReadsSnapshot` | lib/devices/refossem06.js:54-66 | no datapoint of the three model tables reads the session: each reads the snapshot |
| `Datapoints.SessionReadsFromDefaults` | lib/datapoints.js:21-29 | a datapoint of a supported class that reads the session is the `refossdefaults` entry with that id |
| `Datapoints.DeviceByClassLookup` | lib/datapoints.js:21-29 | the merged catalog has distinct ids: the model's ids first in order, then the defaults' new ones; a default overrides the model entry with the same id |
| `Catalog.SpreadSemantics` | lib/datapoints.js:25-26 | `{...a, ...b}` holds the keys of both; `b` wins on a shared key; `a`'s keys keep their order at the front |
| `Catalog.ChannelCatalogDistinct` | lib/devices/refossem06p.js:79-111 | distinct dot-free channel labels and distinct `emKey`s give distinct `"{channel}.{emKey}"` ids, one per pair |
| `Catalog.ChannelCatalogLookup` | lib/devices/refossem06p.js:79-111 | every `"{channel}.{emKey}"` id maps to that quantity's definition, read from that channel's index |
| `Catalog.ChannelCatalogEntry` | lib/devices/refossem06p.js:82-94 | every entry polls `Appliance.Control.ElectricityX` with payload channel 0xffff and ack `electricity`, reading one of the listed channel indices |
| `Catalog.MergedCatalogLookup` | lib/devices/refossem06p.js:114-143 | every merged entry is found under its `emKey` and reads channel 0xffff |
| `Catalog.FilterMembers` | lib/devices/refossem06p.js:76 | the merge filter keeps exactly the quantities other than `factor` and `voltage` |
| `Catalog.FilterAppend` | lib/devices/refossem06p.js:76 | the merge filter distributes over concatenation, so it keeps the relative order |
| `Catalog.FilterKeepsDistinct` | lib/devices/refossem06p.js:76 | the merge filter keeps distinct `emKey`s distinct, for any table |
| `Em06.ChannelsBijection` | lib/devices/refossem06.js:3-10 | the six labels are distinct and dot-free, and their indices are a bijection onto 1..6 |
| `Em06.KeysFacts` | lib/devices/refossem06.js:12-48 | six quantities with distinct `emKey`s, none a day or week counter |
| `Em06.StatesDistinct` | lib/devices/refossem06.js:50-81 | the catalog holds 36 distinct state ids |
| `Em06.StatesLookup` | lib/devices/refossem06.js:50-81 | each `"{label}.{emKey}"` id maps to its quantity, read through `getEm06Electricity(Channels[label], apiKey)` |
| `Em06.StatesEntry` | lib/devices/refossem06.js:54-66 | every entry is in the `ElectricityX` group with the all-channel payload, reads a channel in 1..6, and has role `value.{apiKey}` |
| `Em06.StatesCommon` | lib/devices/refossem06.js:67-75 | every state is a read-only number with default 0; the power-factor states have unit `''` and every other state a non-empty unit |
| `Em06p.ChannelsBijection` | lib/devices/refossem06p.js:3-10 | the six labels are distinct and dot-free, and their indices are a bijection onto 1..6 |
| `Em06p.KeysFacts` | lib/devices/refossem06p.js:13-73 | ten quantities with distinct `emKey`s; month-returned reads `mConsumeRe` |
| `Em06p.MergedKeysInOrder` | lib/devices/refossem06p.js:76 | `mergedKeysArr` is `keysArr` without `factor` and `voltage`, in order: eight quantities |
| `Em06p.MergedKeysExclude` | lib/devices/refossem06p.js:76 | every merged quantity is a quantity of `keysArr` other than `factor` and `voltage` |
| `Em06p.MergedKeysDistinct` | lib/devices/refossem06p.js:76 | the merged quantities have distinct `emKey`s |
| `Em06p.StatesDistinct` | lib/devices/refossem06p.js:79-111 | the catalog holds 60 distinct state ids |
| `Em06p.StatesLookup` | lib/devices/refossem06p.js:79-111 | each `"{label}.{emKey}"` id maps to its quantity, read through `getElectricity(Channels[label], apiKey)` |
| `Em06p.StatesEntry` | lib/devices/refossem06p.js:82-96 | every entry is in the `ElectricityX` group with the all-channel payload and reads a channel in 1..6 |
| `Em06p.MergedStatesFacts` | lib/devices/refossem06p.js:114-143 | the merged catalog holds 8 distinct ids, the merged `emKey`s, each read through `getElectricity(0xffff, apiKey)` |
| `Em16p.ChannelsShape` | lib/devices/refossem16p.js:3-22 | label `i` is bank `A`, `B` or `C` followed by a digit 1..6, and its index is `i + 1` |
| `Em16p.ChannelsBijection` | lib/devices/refossem16p.js:3-22 | the eighteen labels are distinct and dot-free |
| `Em16p.KeysFacts` | lib/devices/refossem16p.js:24-86 | ten quantities with distinct `emKey`s; month-returned reads `mConsumeX` |
| `Em16p.MergedKeysInOrder` | lib/devices/refossem16p.js:87 | `mergedKeysArr` is `keysArr` without `factor` and `voltage`, in order |
| `Em16p.MergedKeysExclude` | lib/devices/refossem16p.js:87 | every merged quantity is a quantity of `keysArr` other than `factor` and `voltage` |
| `Em16p.MergedKeysDistinct` | lib/devices/refossem16p.js:87 | the merged quantities have distinct `emKey`s |
| `Em16p.StatesDistinct` | lib/devices/refossem16p.js:89-119 | the catalog holds 180 distinct state ids |
| `Em16p.StatesLookup` | lib/devices/refossem16p.js:89-119 | each `"{label}.{emKey}"` id maps to its quantity, read through `getElectricity(Channels[label], apiKey)` |
| `Em16p.StatesEntry` | lib/devices/refossem16p.js:92-105 | every entry is in the `ElectricityX` group with the all-channel payload and reads a channel in 1..18 |
| `Em16p.MergedStatesFacts` | lib/devices/refossem16p.js:121-150 | the merged catalog holds 8 distinct ids, each read through `getElectricity(0xffff, apiKey)` |
| `Telemetry.FindRecordIndex` | lib/protocol/base.js:241-244 | the record search matches record `k - 1` exactly when the channel is the number `k` |
| `Telemetry.ChannelRecord` | lib/protocol/base.js:241-244 | an integer channel `c` finds record `c - 1` when `1 <= c <= length`, and nothing otherwise |
| `Telemetry.ElectricityAt` | lib/protocol/base.js:241-254 | a channel with a record yields that record's normalised field, or the raw `factor`; a channel without one yields `undefined` |
| `Telemetry.Em06SignSplit` | lib/protocol/base.js:213-234 | em06 `mConsume` reads `max(v, 0)` and `mConsumeRe` reads `max(-v, 0)` of the signed month counter `v`; both are non-negative, at most one is non-zero, and their difference is `v` |
| `Telemetry.Em06AgreesElsewhere` | lib/protocol/base.js:213-234 | outside the month counters the em06 getter reads exactly what `getElectricity` reads |
| `Telemetry.MergeByChannels` | lib/protocol/base.js:427-470 | the loop computes the merge total specification |
| `Telemetry.MergeIsSum` | lib/protocol/base.js:427-470 | a merge total other than `factor` is the sum of the listed channels' present values; it is 0 for a missing list |
| `Telemetry.FactorIsMean` | lib/protocol/base.js:427-470 | the `factor` total is the mean of the listed channels' numeric factors, or 0 when there is none |
| `Telemetry.MergeAdditive` | lib/protocol/base.js:427-470 | totals other than `factor` add up over concatenated channel lists; a channel listed twice counts twice |
| `Telemetry.AbsentFieldTotalsZero` | lib/protocol/base.js:427-470 | a type that no record defines totals 0 |
| `Telemetry.FindByName` | lib/protocol/base.js:486-488 | the entry found is the first one whose `mergeName` is `===` to the one sought, as `find` returns; with none found, no entry's name is |
| `Telemetry.MergeElectricity` | lib/protocol/base.js:478-529 | the loop computes `getMergeElectricity` as written |
| `Telemetry.EntryTallyTotals` | lib/protocol/base.js:495-526 | the entry loop sums the entries' contributions and counts them for `factor` |
| `Telemetry.FactorMeanDividesByAllEntries` | lib/protocol/base.js:522-526 | as written, one factor 0.8 and one entry without a factor give 0.4; the corrected mean is 0.8 |
| `Telemetry.CorrectedTotals` | lib/protocol/base.js:495-526 | corrected, the total is the entries' sum, and for `factor` the mean over entries that have one |
| `Store.Upserted` | lib/protocol/base.js:119-124 | `setOrUpdateObject` creates or replaces exactly one object, and writes its state only when a value is given |
| `Store.WithState` | lib/protocol/base.js:416 | `setStateAsync` writes exactly one state and no object |
| `Store.Deleted` | lib/protocol/base.js:340-344 | `delObjectAsync` removes exactly one object and keeps every state |
| `Store.UpsertIdempotent` | lib/protocol/base.js:119-124 | repeating an identical `setOrUpdateObject` changes nothing |
| `Store.DeleteIdempotent` | lib/protocol/base.js:340-344 | deleting twice is deleting once; deleting an absent object changes nothing |
| `DeviceSession.Name2Id` | lib/protocol/base.js:197-199 | `name2id` replaces exactly the forbidden characters with `_`, one for one, so the length is kept (see "## Left out" on `FORBIDDEN_CHARS`) |
| `DeviceSession.Name2IdClean` | lib/protocol/base.js:197-199 | when `_` is allowed the result holds no forbidden character, and `name2id` is idempotent |
| `DeviceSession.DeviceIdOf` | lib/protocol/base.js:187-190 | an id exists exactly when the MAC is a string; its length is `refoss` + class + `#` + the MAC without colons |
| `DeviceSession.DeviceIdPlain` | lib/protocol/base.js:187-190 | without forbidden characters the id is `refoss{class}#{mac without colons}` itself |
| `DeviceSession.GroupsOfSpec` | lib/protocol/base.js:87-99 | every polled state lands in the group of its own namespace and no other, in catalog order; there is one group per polled namespace |
| `DeviceSession.SingleGroup` | lib/protocol/base.js:87-99 | a catalog whose states share one namespace is one group holding all of them in order |
| `DeviceSession.ModelPolledTogether` | lib/protocol/base.js:87-99 | each model catalog is one `ElectricityX` group polled with the all-channel payload and ack `electricity` |
| `DeviceSession.CreateWritesFacts` | lib/protocol/base.js:45-129 | registration keeps every object and creates the device object and one object per state id; before the first snapshot it writes a state value only for a state whose `init_funct` reads the session, and none when there is no such state |
| `DeviceSession.EmptySnapshotUndefined` | lib/protocol/base.js:101-116 | before any snapshot a snapshot getter yields `undefined`, while a session-reading `init_funct(this)` yields what it reads from the session |
| `DeviceSession.CreateKeysFacts` | lib/protocol/base.js:347-373 | creating a group's quantities keeps every object and state, adds exactly the missing ids, and gives each new one the value 0 |
| `DeviceSession.CreateKeysPresent` | lib/protocol/base.js:351-353 | once every quantity exists, creating them again changes nothing |
| `DeviceSession.FlatIdNotMerge` | lib/protocol/base.js:338-348 | the old flat `Total-{name}` id never collides with a `Total-{name}.{emKey}` id |
| `DeviceSession.CreateForFacts` | lib/protocol/base.js:330-374 | without a name nothing changes; otherwise the flat object is gone, every merged quantity's id exists, and other objects are kept |
| `DeviceSession.CreateForIdempotent` | lib/protocol/base.js:330-374 | running one group's creation twice is running it once |
| `DeviceSession.CreateDynamicStates` | lib/protocol/base.js:321-382 | creation over all groups keeps existing state values, and every new value is 0 |
| `DeviceSession.EmptySnapshotTotal` | lib/protocol/base.js:427-470 | with no snapshot every merge total is 0 |
| `DeviceSession.UpdateKeysFacts` | lib/protocol/base.js:401-417 | the update creates no object, writes only ids whose objects exist, and writes 0 before any snapshot |
| `DeviceSession.UpdateKeysValue` | lib/protocol/base.js:401-417 | each existing `Total-{name}.{emKey}` ends up holding the group's total of that quantity |
| `DeviceSession.MergeStateIdInjective` | lib/protocol/base.js:402 | two merge state ids of the same group differ when their `emKey`s do |
| `DeviceSession.UpdateKeysUntouched` | lib/protocol/base.js:401-417 | quantities with other `emKey`s leave `Total-{name}.{emKey}` alone |
| `DeviceSession.UpdateForValue` | lib/protocol/base.js:396-418 | a named group's update writes to each existing merged id the merge total over the group's channels |
| `DeviceSession.UpdateDynamicFacts` | lib/protocol/base.js:387-419 | the update over all groups creates no object, and every changed state exists as an object |
| `DeviceSession.MonthReturnedTotalOnEm16p` | lib/protocol/base.js:269-273 | merge totals use em06p's quantities, so em16p's month-returned total, read from `mConsumeRe`, is 0 |
| `DeviceSession.FirstCycleTotalsZero` | lib/protocol/base.js:139-141 | merge totals are computed before the cycle's snapshot arrives, so on the first cycle they are 0 |
| `DeviceSession.HttpGated` | lib/protocol/base.js:135-138 | offline or without an IP, `httpState` sends nothing, writes nothing and only arms the timer |
| `DeviceSession.FailedGroupWritesNothing` | lib/protocol/base.js:145-176 | a group whose request fails keeps the old snapshot and writes no datapoint |
| `DeviceSession.WriteMembersFrame` | lib/protocol/base.js:158-173 | the member loop writes only its members' ids, and only datapoint objects |
| `DeviceSession.MemberValueOfModel` | lib/protocol/base.js:158-173 | a model datapoint whose channel has a record is written with its getter's value |
| `DeviceSession.StartFields` | lib/protocol/base.js:17-39 | a new session holds the announcement's ip and uuid and no snapshot; with an id it holds the model catalog, its namespace groups and a pending first poll; without one, nothing |
| `DeviceSession.StartWritesFacts` | lib/protocol/base.js:17-39 | starting a session keeps every object, and every state value but those of states that read the session; with an id it creates one object per catalog state, and the device object when the catalog is non-empty |
| `DeviceSession.SnapshotDefaultsWriteNoState` | lib/protocol/base.js:101-116 | when no default datapoint reads the session, a new session writes no state value at all |
| `DeviceSession.Base.constructor` | lib/protocol/base.js:17-39 | the session ends in its start fields, with the first poll pending exactly when it has an id, and the store holds its registration writes |
| `DeviceSession.Base.CreateObjects` | lib/protocol/base.js:45-129 | `createObjects` resolves the catalog, groups it, and writes what the registration specification writes |
| `DeviceSession.Base.RegisterCatalog` | lib/protocol/base.js:84-125 | the catalog loop builds the namespace groups and the registration writes |
| `DeviceSession.Base.RegisterState` | lib/protocol/base.js:85-124 | one catalog state's objects and initial value |
| `DeviceSession.Base.HttpState` | lib/protocol/base.js:134-182 | `httpState` moves session and store exactly as its specification does; its `online` argument is the session's `isOnline()` (lib/protocol/base.js:135, lib/protocol/base.js:542-544), which `Adapter.Refoss.DeviceStatusUpdate` computes as `Adapter.Refoss.IsOnline` of the id and hands on through `Adapter.Refoss.Repoll` |
| `DeviceSession.Base.PollTimerFires` | lib/protocol/base.js:179-181 | the poll timer fires, is no longer pending, and `httpState` runs |
| `DeviceSession.Base.PollOneGroup` | lib/protocol/base.js:145-176 | one group's request, snapshot and writes |
| `DeviceSession.Base.WriteGroupMembers` | lib/protocol/base.js:158-173 | the member loop of one group |
| `DeviceSession.Base.ProcessChannelMergeRequest` | lib/protocol/base.js:278-316 | the merge request stores a non-empty `control` list and runs creation and update; otherwise it changes nothing |
| `DeviceSession.Base.CreateDynamicMergeChannelDataPoints` | lib/protocol/base.js:321-382 | the creation loop over the merge groups |
| `DeviceSession.Base.CreateMergeKeys` | lib/protocol/base.js:347-373 | the creation loop over the merged quantities |
| `DeviceSession.Base.UpdateDynamicMergeChannelDataPoints` | lib/protocol/base.js:387-419 | the update loop over the merge groups |
| `DeviceSession.Base.UpdateMergeKeys` | lib/protocol/base.js:401-417 | the update loop over the merged quantities |
| `DeviceSession.Base.Destroy` | lib/protocol/base.js:548-564 | every field but `deveiceInfo` is reset and the timer cleared; the old id is returned for the offline report |
| `Discovery.SanitizeFacts` | lib/protocol/udp4.js:193-195 | sanitising keeps the length, keeps allowed characters in place, and turns every other character into `_` |
| `Discovery.SanitizeFixed` | lib/protocol/udp4.js:193-195 | a name of allowed characters is its own sanitised form |
| `Discovery.SanitizeIdempotent` | lib/protocol/udp4.js:193-195 | sanitising twice is sanitising once |
| `Discovery.HexRunIff` | lib/protocol/udp4.js:203-206 | the hex-run test holds exactly for `n` hex digits |
| `Discovery.UuidIff` | lib/protocol/udp4.js:203-206 | a UUID is valid exactly when it has 32 hex digits, in either case |
| `Discovery.DeviceExists` | lib/protocol/udp4.js:183-185 | a class exists exactly when it is `em06`, `em06p` or `em16p` |
| `Discovery.SupportedNamesAllowed` | lib/protocol/udp4.js:183-195 | supported names hold only allowed characters and no `_` |
| `Discovery.RawNameIsSanitized` | lib/protocol/udp4.js:144-156 | a string class whose sanitised form is supported is already sanitised, so the session resolves its catalog |
| `Discovery.BlankDropped` | lib/protocol/udp4.js:105-108 | an empty or blank datagram is dropped as empty |
| `Discovery.AddedIff` | lib/protocol/udp4.js:105-168 | a datagram is added exactly when it is a braced JSON object with a truthy `devName`, a valid `uuid`, a supported sanitised class and a UUID that `includes` finds in no registered entry |
| `Discovery.AdmitKeepsDistinct` | lib/protocol/udp4.js:152-168 | the registered UUID list never holds two `===` entries |
| `Discovery.ReannounceIsDuplicate` | lib/protocol/udp4.js:152-168 | the same datagram announced again, with a string (or other scalar) UUID, is a duplicate |
| `Discovery.ReannounceCompositeAddedAgain` | lib/protocol/udp4.js:144-159 | with an array UUID, which `includes` compares by identity, the same datagram is added again, and the list grows on every announcement |
| `Discovery.AddedResolvesModel` | lib/protocol/udp4.js:152-168 | an added announcement with a string class starts a session that resolves a model catalog |
| `Discovery.RegisterAllFacts` | lib/protocol/udp4.js:67-82 | starting the known devices' sessions keeps every object and every state value but those of states that read their session, and creates an object for every catalog state of every device with an id |
| `Discovery.BaseServer.constructor` | lib/protocol/udp4.js:67-82 | one distinct session per known device, in order, each in its start fields, with its UUID registered; the store holds every session's registration writes, in order |
| `Discovery.BaseServer.AddSession` | lib/protocol/udp4.js:157-159 | the UUID is appended, a new session distinct from the others is appended in its start fields, and the store gains exactly its registration writes |
| `Discovery.BaseServer.OnMessage` | lib/protocol/udp4.js:92-170 | the handler's outcome is the classification; only an addition registers the UUID and appends a new distinct session in its start fields, whose registration is the store's only change; otherwise sessions and store are unchanged |
| `Discovery.BaseServer.Destroy` | lib/protocol/udp4.js:210-215 | every session is destroyed and reset; report `i` is session `i`'s id before the reset |
| `Adapter.OnlineIdInjective` | main.js:142-143 | different devices have different `.online` ids |
| `Adapter.IdsDistinct` | main.js:76-99 | the online, hostname and connection ids never collide |
| `Adapter.OnlineWrittenFacts` | main.js:139-151 | after a report the stored online state is the status, nothing else changes, and a repeated write is a no-op |
| `Adapter.TrackedFacts` | main.js:154-160 | after a report the device is tracked exactly when the status says so, no other device changes, and the count changes exactly when its membership did |
| `Adapter.ConnectionWrittenFacts` | main.js:162-172 | `info.connection` is written exactly when the count changed, as count > 0, and nothing else changes |
| `Adapter.RepeatedReportIsNoop` | main.js:130-173 | a second identical report writes no online state, starts no re-poll, keeps the set and writes no connection flag |
| `Adapter.FirstWithId` | main.js:144-146 | the session search finds a session exactly when one has the id, and finds the first such one |
| `Adapter.RepollAsWrittenGated` | main.js:142-151 | as written, a device not yet counted online is re-polled with `isOnline` false, so nothing is requested |
| `Adapter.RepollCorrectedRequests` | main.js:142-160 | once the report is tracked first, a session with an ip re-polls for real: it stores the merge answer's non-empty `control` list, runs the groups' requests on the merged state, and arms the timer when it has groups |
| `Adapter.AliveAfterOnlineWrite` | main.js:76-99 | writing an online state changes no device's aliveness |
| `Adapter.InitFoldSet` | main.js:76-99 | the loop never removes a device and adds exactly the cached devices found alive |
| `Adapter.InitFoldFrame` | main.js:76-99 | the loop writes nothing but online states |
| `Adapter.InitFoldWrites` | main.js:76-99 | every cached device's online state ends up equal to its aliveness |
| `Adapter.InitOnlineFacts` | main.js:76-99 | `initOnlineStatus` adds exactly the alive cached devices, removes none, and sets `info.connection` to count > 0 |
| `Adapter.ProbesFacts` | main.js:103-129 | a device is probed exactly when it is cached with a truthy hostname, and with that hostname |
| `Adapter.Registered` | main.js:179-186 | registering ignores an empty id, adds a new one once, and keeps the list free of duplicates |
| `Adapter.RegisterIdempotent` | main.js:179-186 | registering the same id twice is registering it once |
| `Adapter.Refoss.constructor` | main.js:15-30 | the adapter starts loaded, with nothing online, nothing cached, no timer and no server |
| `Adapter.Refoss.RegisterDeviceId` | main.js:179-186 | `registerDeviceId` updates the cached list as the registration specification says |
| `Adapter.Refoss.IsOnline` | main.js:187-189 | a device counts as online exactly when its id is a key of `onlineDevices`, and then that set is not empty (so the connection flag reads true) |
| `Adapter.Refoss.Repoll` | main.js:144-151 | the first session with the id, if any, runs `httpState` with the given online flag |
| `Adapter.Refoss.DeviceStatusUpdate` | main.js:130-173 | as written: the online state, then the re-poll with the old online set, then the set and the connection flag; unloaded or empty-id reports change nothing |
| `Adapter.Refoss.DeviceStatusUpdateCorrected` | main.js:130-173 | the set and the connection flag are updated before the re-poll, which then runs with the device online |
| `Adapter.Refoss.WriteOnline` | main.js:139-143 | the online state is written only when it differs from the stored one |
| `Adapter.Refoss.TrackStatus` | main.js:154-172 | the set is updated, so afterwards the reporting device is online exactly when its status is true and every other device is as before, and the connection flag is written when the count changed |
| `Adapter.Refoss.RecordStatus` | main.js:139-172 | the online state, the set and the connection flag of one report |
| `Adapter.Refoss.InitOnlineStatus` | main.js:76-99 | the loop computes the `initOnlineStatus` specification |
| `Adapter.Refoss.OnlineStatusCheck` | main.js:103-129 | a pending timer is cleared, the probes are listed, and exactly one new timer is armed |
| `Adapter.Refoss.OnlineCheckFires` | main.js:125-128 | the 15-second timer fires and the check runs again, leaving one timer pending |
| `Adapter.Refoss.OnReady` | main.js:31-49 | online status and `info.connection` are initialised, the check timer armed, and the discovery server started: one session per stored device in its start fields, and the store holds the online writes followed by every session's registration |
| `Adapter.Refoss.OnUnload` | main.js:54-75 | the adapter is unloaded, the timer cleared, every session reset; the reports are the sessions' former ids, in order, and are then ignored |

## Left out

- The HTTP transport (`lib/protocol/http.js`) is not part of this model. A request's outcome
  is given by the `fetch` oracle, which is fixed for one poll cycle.
- The UDP socket, the broadcast client (`BaseClient`) and datagram decoding are left out.
  A datagram arrives as text, and JSON parsing is a parameter.
- Real timers and `async` interleaving are left out. A timer is a flag or a count of
  pending timers, and each `await` completes before the next step starts.
- The host's object queue (`processObjectQueue`) is treated as applying every write at
  once. The list of keys to preserve (`['name']`) has no effect in the model.
- `getNumFormate` is a parameter. Its floating-point rounding is not modelled: values are
  `real`.
- `FORBIDDEN_CHARS` is a parameter, tested one character at a time. The host's pattern is not
  part of this model: if it matches a run of forbidden characters as one match (a `+`
  quantifier), the program writes a single `_` for the run and its id is shorter. Here a run
  is replaced character by character.
- Device replies are taken to be well-typed: every record in a group's answer is an object
  (never `null`), and `channels` and `control` are arrays or absent. A `null` record
  (lib/protocol/base.js:247-249) or a non-array `channels` (lib/protocol/base.js:437) or
  `control` (lib/protocol/base.js:330, lib/protocol/base.js:396) would throw in the program,
  and the model's types cannot express such replies.
- `removeNamespace` and `getAllDeviceIds` are left out: the device ids arrive as a list.
- The device objects `getAllDeviceIds` reads are given as announcements.
- Log calls are left out.
- `onUnload` also destroys the broadcast client, and the server closes its socket. Both are
  left out with the sockets.
- `Discovery.BaseServer.OnMessage`: the `Buffer` type check and UTF-8 decoding are not
  modelled.
- `Adapter.Refoss.OnUnload`: the `initOnlineStatus` call that `onUnload` starts without
  awaiting it is not modelled.
- The first `httpState` that `initObjects` starts is modelled as a pending poll: a new
  session with an id ends with `pollTimer` set, and `DeviceSession.Base.PollTimerFires`
  runs it.
- A JSON array in an announcement field (`devName`, `uuid`, `ip`, `mac`) is modelled by its
  `String()` text only, and an object there by its kind alone. Both matter only through
  truthiness, `===` and string conversion. The `control` entries of a merge answer are
  modelled field by field.
- `refossdefaults` is not part of this model. Its datapoints are a parameter, and a
  default whose `init_funct(this)` reads the session is evaluated by the parameter
  `sessionRead`, which is taken never to throw.
- `DeviceSession.Base.PollTimerFires`: a second timer chain is not modelled. A second
  chain starts when `httpState` is re-run by a report while a poll timer is pending.
- `Adapter.Refoss.DeviceStatusUpdate`: a state value other than `true` or `"true"` reads
  as offline, following the source's comparison. Other truthy values are not
  distinguished.

## Findings

| source | as written | input that shows it | evidently intended | confidence | as-written member | corrected member |
|---|---|---|---|---|---|---|
| main.js:142-160 | the re-poll of a device reporting online calls `httpState` before the id joins `onlineDevices`, so the session's `isOnline()` check still fails and only a timer is armed | a device not in `onlineDevices` reports `status = true` with a stored online state of `false` | the re-poll fetches data at once for a device coming online | not executed | `Adapter.Refoss.DeviceStatusUpdate`, `Adapter.RepollAsWrittenGated` | `Adapter.Refoss.DeviceStatusUpdateCorrected` |
| lib/protocol/base.js:522-526 | `getMergeElectricity` divides the power-factor total by the number of all entries, including entries without a numeric factor; the method has no caller in the source, so no datapoint shows the value | entries `[{factor: 0.8}, {}]` give 0.4 | the mean over the entries that have a factor, 0.8 | not executed | `Telemetry.MergeElectricity`, `Telemetry.FactorMeanDividesByAllEntries` | `Telemetry.MergeElectricityCorrected`, `Telemetry.CorrectedTotals` |
