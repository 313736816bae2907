/**
 * A device session (`Base` in lib/protocol/base.js): its id, the datapoint catalog it
 * registers, the namespace groups it polls, the last telemetry snapshot and the merge
 * groups the device reports.
 *
 * The first half states each step as a function of the session's fields and the object
 * database; the class `Base` carries out the same steps with the source's loops.
 */
module DeviceSession {
  import opened Wrappers
  import opened Text
  import opened Json
  import opened Catalog
  import opened Telemetry
  import opened Store
  import opened Datapoints
  import Em06p
  import Em16p

  /**
   * What a session takes from its host: the adapter namespace, `FORBIDDEN_CHARS` as a
   * character test, `refossdefaults`, and `refossUtils.getNumFormate`. `sessionRead` gives
   * what a default's session-reading `init_funct(this)` computes from the session.
   */
  datatype Env = Env(adapterNs: string, forbidden: char -> bool, defaults: Catalog, norm: Normaliser,
                     sessionRead: (string, Fields) -> Value)

  /** One entry of a namespace group: `{stateId, http_payload, http_get_ack}`. */
  datatype Member = Member(stateId: string, payload: Payload, ack: string)

  /** `this.http`: namespace to the datapoints polled by one request. */
  type Groups = Dict<seq<Member>>

  /** The `httpInfo` of one `createHttp` call. */
  datatype Request = Request(uuid: Option<Json>, ip: Option<Json>, namespace: string, payload: Payload)

  /**
   * The payload of a device answer: its record arrays by key (`electricity`), and its
   * `control` array (empty when absent).
   */
  datatype Reply = Reply(arrays: map<string, Snapshot>, control: seq<MergeChannel>)

  /** `refossHttp.createHttp` for one poll cycle: `None` is the `null` of a failed request. */
  type Fetch = Request -> Option<Reply>

  const ChannelMergeNamespace := "Appliance.Control.ChannelMerge"

  /** The fields of a session; `info` is its `deveiceInfo`. */
  datatype Fields = Fields(info: Announcement, deviceId: Option<string>, ip: Option<Json>, uuid: Option<Json>,
                           device: Catalog, http: Groups, httpData: Snapshot,
                           mergeData: seq<MergeChannel>, mergeList: seq<MergeChannel>, pollTimer: bool)

  // ---------------------------------------------------------------------------
  // Device id (`getDeviceId`, `name2id`)
  // ---------------------------------------------------------------------------

  /** `name2id`: every forbidden character becomes `_`. */
  function Name2Id(s: string, forbidden: char -> bool): (r: string)
    ensures |r| == |s|
    ensures forall i :: 0 <= i < |s| ==> r[i] == (if forbidden(s[i]) then '_' else s[i])
  {
    if s == [] then [] else [if forbidden(s[0]) then '_' else s[0]] + Name2Id(s[1..], forbidden)
  }

  /** When `_` itself is allowed, an id holds no forbidden character and `name2id` leaves it alone. */
  lemma Name2IdClean(s: string, forbidden: char -> bool)
    requires !forbidden('_')
    ensures forall i :: 0 <= i < |s| ==> !forbidden(Name2Id(s, forbidden)[i])
    ensures Name2Id(Name2Id(s, forbidden), forbidden) == Name2Id(s, forbidden)
  {
    var r := Name2Id(s, forbidden);
    var rr := Name2Id(r, forbidden);
    assert forall i :: 0 <= i < |r| ==> rr[i] == r[i];
  }

  /** The raw id `refoss{devName}#{mac without colons}`, or `None` when `mac` is not a string. */
  function RawDeviceId(info: Announcement): Option<string> {
    match info.mac
    case Some(JString(m)) => Some("refoss" + Render(info.devName) + "#" + RemoveChar(m, ':'))
    case _ => None
  }

  /** `getDeviceId(deveiceInfo)`; `None` where `mac.replaceAll` throws. */
  function DeviceIdOf(info: Announcement, forbidden: char -> bool): (r: Option<string>)
    ensures r.Some? <==> info.mac.Some? && info.mac.value.JString?
    ensures r.Some? ==> |r.value| == 7 + |Render(info.devName)| + |RemoveChar(info.mac.value.s, ':')|
  {
    match RawDeviceId(info)
    case Some(raw) => Some(Name2Id(raw, forbidden))
    case None => None
  }

  /**
   * Without forbidden characters the id is the raw text itself: `refoss`, the class name,
   * `#`, and the MAC address with its colons removed.
   */
  lemma DeviceIdPlain(info: Announcement, forbidden: char -> bool)
    requires RawDeviceId(info).Some?
    requires forall i :: 0 <= i < |RawDeviceId(info).value| ==> !forbidden(RawDeviceId(info).value[i])
    ensures DeviceIdOf(info, forbidden) == RawDeviceId(info)
  {
    var raw := RawDeviceId(info).value;
    assert Name2Id(raw, forbidden) == raw;
  }

  /** `${this.deviceId}`: a missing id is written as `null`. */
  function IdText(id: Option<string>): string {
    match id
    case Some(d) => d
    case None => "null"
  }

  // ---------------------------------------------------------------------------
  // Registration (`createObjects`)
  // ---------------------------------------------------------------------------

  /** The catalog a session registers: its class's, or none for an unsupported class. */
  function CatalogFor(info: Announcement, env: Env): Catalog {
    GetDeviceByClass(info.devName, env.defaults).GetOr([])
  }

  /** A state with a truthy `http_namespace` is polled. */
  predicate Polled(e: (string, StateDef)) {
    e.1.http.Some? && e.1.http.value.namespace != ""
  }

  function MemberOf(e: (string, StateDef)): Member
    requires e.1.http.Some?
  {
    Member(e.0, e.1.http.value.payload, e.1.http.value.ack)
  }

  /** `deviceStatesHttp[key] = [temp]` or `deviceStatesHttp[key].push(temp)`. */
  function AddMember(g: Groups, ns: string, m: Member): Groups {
    Assign(g, ns, Lookup(g, ns).GetOr([]) + [m])
  }

  /** The groups `createObjects` builds, entry by entry. */
  function GroupsOf(cat: Catalog): Groups {
    if cat == [] then []
    else
      var e := cat[|cat| - 1];
      var g := GroupsOf(cat[..|cat| - 1]);
      if Polled(e) then AddMember(g, e.1.http.value.namespace, MemberOf(e)) else g
  }

  /** The polled states of a catalog in namespace `ns`, in catalog order. */
  function MembersWith(cat: Catalog, ns: string): seq<Member> {
    if cat == [] then []
    else
      var e := cat[|cat| - 1];
      MembersWith(cat[..|cat| - 1], ns) + (if Polled(e) && e.1.http.value.namespace == ns then [MemberOf(e)] else [])
  }

  /**
   * Every polled state is in the group of its own namespace and in no other, in catalog
   * order; there is one group per namespace that has a polled state.
   */
  lemma {:induction false} GroupsOfSpec(cat: Catalog, ns: string)
    ensures DistinctKeys(GroupsOf(cat))
    ensures Lookup(GroupsOf(cat), ns) == if MembersWith(cat, ns) == [] then None else Some(MembersWith(cat, ns))
  {
    if cat != [] {
      var init := cat[..|cat| - 1];
      var e := cat[|cat| - 1];
      GroupsOfSpec(init, ns);
      if Polled(e) {
        var g := GroupsOf(init);
        var ns' := e.1.http.value.namespace;
        GroupsOfSpec(init, ns');
        assert Lookup(g, ns').GetOr([]) == MembersWith(init, ns');
        var v := Lookup(g, ns').GetOr([]) + [MemberOf(e)];
        assert GroupsOf(cat) == Assign(g, ns', v);
        LookupAssign(g, ns', v, ns);
        AssignDistinct(g, ns', v);
        if ns == ns' {
          assert MembersWith(cat, ns) == MembersWith(init, ns) + [MemberOf(e)];
        } else {
          assert MembersWith(cat, ns) == MembersWith(init, ns);
        }
      } else {
        assert GroupsOf(cat) == GroupsOf(init);
        assert MembersWith(cat, ns) == MembersWith(init, ns);
      }
    }
  }

  /** A catalog whose states all share one namespace is polled as one group holding all of them. */
  lemma {:induction false} SingleGroup(cat: Catalog, ns: string)
    requires cat != [] && ns != ""
    requires forall i :: 0 <= i < |cat| ==> cat[i].1.http.Some? && cat[i].1.http.value.namespace == ns
    ensures GroupsOf(cat) == [(ns, MembersWith(cat, ns))]
    ensures |MembersWith(cat, ns)| == |cat|
    ensures forall i :: 0 <= i < |cat| ==> MembersWith(cat, ns)[i] == MemberOf(cat[i])
  {
    var init := cat[..|cat| - 1];
    var e := cat[|cat| - 1];
    if init != [] {
      SingleGroup(init, ns);
    }
    assert MembersWith(cat, ns) == MembersWith(init, ns) + [MemberOf(e)];
  }

  /**
   * Each model catalog is one group in `Appliance.Control.ElectricityX`: one request per
   * poll, sent with the all-channel payload, whose `electricity` array feeds every state.
   */
  lemma ModelPolledTogether(name: string)
    requires GetDeviceTypeByClass(name)
    ensures var cat := ModelCatalog(name).value;
      && GroupsOf(cat) == [(ElectricityNamespace, MembersWith(cat, ElectricityNamespace))]
      && |MembersWith(cat, ElectricityNamespace)| == |cat| > 0
      && MembersWith(cat, ElectricityNamespace)[0].payload == ChannelQuery("electricity", AllChannels)
      && MembersWith(cat, ElectricityNamespace)[0].ack == "electricity"
  {
    var cat := ModelCatalog(name).value;
    forall i | 0 <= i < |cat|
      ensures cat[i].1.http.Some? && cat[i].1.http.value.namespace == ElectricityNamespace
      ensures cat[i].1.http.value.payload == ChannelQuery("electricity", AllChannels)
      ensures cat[i].1.http.value.ack == "electricity"
    {
      if name == "em06" {
        Em06.StatesEntry(i);
      } else if name == "em06p" {
        Em06p.StatesEntry(i);
      } else {
        Em16p.StatesEntry(i);
      }
    }
    ModelCatalogDistinct(name);
    if name == "em06" {
      Em06.StatesDistinct();
    } else if name == "em06p" {
      Em06p.StatesDistinct();
    } else {
      Em16p.StatesDistinct();
    }
    SingleGroup(cat, ElectricityNamespace);
  }

  /**
   * `init_funct(this)` on a session: a snapshot getter reads its `httpData`, a session
   * getter the session itself; `None` for a state with no `init_funct`.
   */
  function GetterValue(g: Getter, f: Fields, env: Env): Option<Value> {
    match g
    case Em06Getter(c, k) => Some(Em06Electricity(f.httpData, ChannelNumber(c), k, env.norm))
    case ElectricityGetter(c, k) => Some(Electricity(f.httpData, ChannelNumber(c), k, env.norm))
    case SessionGetter(tag) => Some(env.sessionRead(tag, f))
    case NoGetter => None
  }

  /** The initial value `createObjects` gives a state: its getter's value, or `undefined`. */
  function InitValue(sd: StateDef, f: Fields, env: Env): Value {
    if sd.http.None? then Undefined else GetterValue(sd.http.value.getter, f, env).GetOr(Undefined)
  }

  function DeviceObject(env: Env, id: string, info: Announcement): ObjDef {
    DeviceObj("Device " + id, env.adapterNs + "." + id + ".online", info)
  }

  /**
   * The objects one catalog entry registers on session `f`: the device, its channel
   * folder, the state.
   */
  function EntryWrites(db: Db, env: Env, id: string, e: (string, StateDef), f: Fields): Db {
    var db1 := Upserted(db, id, DeviceObject(env, id, f.info), Undefined);
    var channel := FirstSegment(e.0);
    var db2 := if channel != e.0 then Upserted(db1, id + "." + channel, ChannelObj("Channel " + channel), Undefined) else db1;
    Upserted(db2, id + "." + e.0, StateObj(e.1.common), InitValue(e.1, f, env))
  }

  /** The objects `createObjects` registers on session `f`, entry by entry. */
  function CreateWrites(db: Db, env: Env, id: string, cat: Catalog, f: Fields): Db
    decreases |cat|
  {
    if cat == [] then db
    else CreateWrites(EntryWrites(db, env, id, cat[0], f), env, id, cat[1..], f)
  }

  lemma GroupsOfStep(cat: Catalog, i: nat)
    requires i < |cat|
    ensures GroupsOf(cat[..i + 1]) ==
      if Polled(cat[i]) then AddMember(GroupsOf(cat[..i]), cat[i].1.http.value.namespace, MemberOf(cat[i]))
      else GroupsOf(cat[..i])
  {
    assert cat[..i + 1][..i] == cat[..i];
  }

  lemma CreateWritesStep(db: Db, env: Env, id: string, cat: Catalog, i: nat, f: Fields)
    requires i < |cat|
    ensures CreateWrites(db, env, id, cat[i..], f) ==
      CreateWrites(EntryWrites(db, env, id, cat[i], f), env, id, cat[i + 1..], f)
  {
    assert cat[i..][1..] == cat[i + 1..];
  }

  lemma LongerId(id: string, suffix: string)
    ensures id + "." + suffix != id
  {
    assert |id + "." + suffix| > |id|;
  }

  /** The ids under device `id` of a catalog's session-reading states. */
  function SessionStateIds(id: string, cat: Catalog): set<string> {
    set i | 0 <= i < |cat| && ReadsSession(cat[i].1) :: id + "." + cat[i].0
  }

  /** State `k` holds the same value, or is absent, in both databases. */
  predicate SameState(a: Db, b: Db, k: string) {
    (k in a.states <==> k in b.states) && (k in a.states ==> a.states[k] == b.states[k])
  }

  /** Two databases whose every state is the same have the same states. */
  lemma SameStates(a: Db, b: Db)
    requires forall k :: SameState(a, b, k)
    ensures a.states == b.states
  {
    forall k | k in a.states ensures k in b.states && a.states[k] == b.states[k] {
      assert SameState(a, b, k);
    }
    forall k | k in b.states ensures k in a.states {
      assert SameState(a, b, k);
    }
  }

  lemma SessionStateIdsTail(id: string, cat: Catalog)
    requires cat != []
    ensures SessionStateIds(id, cat[1..]) <= SessionStateIds(id, cat)
    ensures ReadsSession(cat[0].1) ==> id + "." + cat[0].0 in SessionStateIds(id, cat)
  {
    forall k | k in SessionStateIds(id, cat[1..]) ensures k in SessionStateIds(id, cat) {
      var i :| 0 <= i < |cat[1..]| && ReadsSession(cat[1..][i].1) && k == id + "." + cat[1..][i].0;
      assert cat[1..][i] == cat[i + 1];
    }
  }

  /**
   * Registration keeps every existing object, and creates the device object and an object
   * for every state id. On a session with no snapshot yet it writes a state value only for
   * a state that reads the session; without such a state it writes none.
   */
  lemma {:induction false} CreateWritesFacts(db: Db, env: Env, id: string, cat: Catalog, f: Fields)
    ensures var r := CreateWrites(db, env, id, cat, f);
      && db.objects.Keys <= r.objects.Keys
      && (forall k :: k in KeySet(cat) ==> id + "." + k in r.objects)
      && (cat != [] ==> id in r.objects && r.objects[id] == DeviceObject(env, id, f.info))
      && (id in db.objects && db.objects[id] == DeviceObject(env, id, f.info) ==> r.objects[id] == DeviceObject(env, id, f.info))
      && (f.httpData == [] ==> forall k :: k !in SessionStateIds(id, cat) ==> SameState(db, r, k))
      && (f.httpData == [] && SessionStateIds(id, cat) == {} ==> r.states == db.states)
    decreases |cat|
  {
    var r := CreateWrites(db, env, id, cat, f);
    if cat != [] {
      var e := cat[0];
      var db1 := EntryWrites(db, env, id, e, f);
      LongerId(id, FirstSegment(e.0));
      LongerId(id, e.0);
      assert id in db1.objects && db1.objects[id] == DeviceObject(env, id, f.info);
      assert id + "." + e.0 in db1.objects;
      CreateWritesFacts(db1, env, id, cat[1..], f);
      KeySetCons(cat);
      SessionStateIdsTail(id, cat);
      if f.httpData == [] {
        EmptySnapshotUndefined(e.1, f, env);
        forall k | k !in SessionStateIds(id, cat) ensures SameState(db, r, k) {
          assert SameState(db, db1, k);
          assert SameState(db1, r, k);
        }
      }
    }
    if f.httpData == [] && SessionStateIds(id, cat) == {} {
      SameStates(db, r);
    }
  }

  /**
   * Before any snapshot a snapshot getter finds no record, so a state's initial value is
   * `undefined`, unless its `init_funct` reads the session.
   */
  lemma EmptySnapshotUndefined(sd: StateDef, f: Fields, env: Env)
    requires f.httpData == []
    ensures !ReadsSession(sd) ==> InitValue(sd, f, env) == Undefined
    ensures ReadsSession(sd) ==> InitValue(sd, f, env) == env.sessionRead(sd.http.value.getter.tag, f)
  {
  }

  // ---------------------------------------------------------------------------
  // Merge groups (`createDynamicMergeChannelDataPoints`, `updateDynamicMergeChannelDataPoints`)
  // ---------------------------------------------------------------------------

  /** The object of the old flat layout, `{deviceId}.Total-{mergeName}`. */
  function FlatId(idText: string, name: string): string {
    idText + ".Total-" + name
  }

  /** `{deviceId}.Total-{mergeName}.{emKey}`. */
  function MergeStateId(idText: string, name: string, emKey: string): string {
    FlatId(idText, name) + "." + emKey
  }

  function MergeCommon(name: string, q: Quantity): Common {
    Common(name + " " + q.name, "number", "value." + q.apiKey, true, false, 0, UnitOf(q))
  }

  /** The per-quantity objects of one merge group, each created with value 0 only when missing. */
  function CreateKeys(db: Db, idText: string, name: string, items: seq<Quantity>): Db
    decreases |items|
  {
    if items == [] then db
    else
      var sid := MergeStateId(idText, name, items[0].emKey);
      var db1 := if sid in db.objects then db else Upserted(db, sid, StateObj(MergeCommon(name, items[0])), Num(0.0));
      CreateKeys(db1, idText, name, items[1..])
  }

  /** One merge group: skipped without a name; else the flat object goes, then the quantities come. */
  function CreateFor(db: Db, idText: string, mc: MergeChannel): Db {
    if !Truthy(mc.mergeName) then db
    else
      var name := Render(mc.mergeName);
      var flat := FlatId(idText, name);
      CreateKeys(if flat in db.objects then Deleted(db, flat) else db, idText, name, Em06p.MergedKeys())
  }

  function CreateDynamic(db: Db, idText: string, list: seq<MergeChannel>): Db
    decreases |list|
  {
    if list == [] then db else CreateDynamic(CreateFor(db, idText, list[0]), idText, list[1..])
  }

  /**
   * Creating a group's quantities keeps every existing object and state as it is, adds
   * exactly the missing ids, and gives each new one the value 0.
   */
  lemma {:induction false} CreateKeysFacts(db: Db, idText: string, name: string, items: seq<Quantity>)
    ensures var r := CreateKeys(db, idText, name, items);
      && (forall q :: q in items ==> MergeStateId(idText, name, q.emKey) in r.objects)
      && (forall k :: k in db.objects ==> k in r.objects && r.objects[k] == db.objects[k])
      && (forall k :: k in r.objects && k !in db.objects ==>
            (exists q :: q in items && k == MergeStateId(idText, name, q.emKey)))
      && (forall k :: k in db.states && k in db.objects ==> k in r.states && r.states[k] == db.states[k])
      && (forall k :: k in r.states ==> (k in db.states && r.states[k] == db.states[k]) || r.states[k] == Num(0.0))
      && (forall k :: k in r.objects && k !in db.objects ==> k in r.states && r.states[k] == Num(0.0))
    decreases |items|
  {
    if items != [] {
      var sid := MergeStateId(idText, name, items[0].emKey);
      var db1 := if sid in db.objects then db else Upserted(db, sid, StateObj(MergeCommon(name, items[0])), Num(0.0));
      CreateKeysFacts(db1, idText, name, items[1..]);
      var r := CreateKeys(db, idText, name, items);
      assert r == CreateKeys(db1, idText, name, items[1..]);
      forall k | k in r.objects && k !in db.objects
        ensures exists q :: q in items && k == MergeStateId(idText, name, q.emKey)
      {
        if k !in db1.objects {
          var q :| q in items[1..] && k == MergeStateId(idText, name, q.emKey);
          assert q in items;
        } else {
          assert items[0] in items && k == sid;
        }
      }
    }
  }

  /** Once every quantity of a group exists, creating them again changes nothing. */
  lemma {:induction false} CreateKeysPresent(db: Db, idText: string, name: string, items: seq<Quantity>)
    requires forall q :: q in items ==> MergeStateId(idText, name, q.emKey) in db.objects
    ensures CreateKeys(db, idText, name, items) == db
    decreases |items|
  {
    if items != [] {
      assert items[0] in items;
      CreateKeysPresent(db, idText, name, items[1..]);
    }
  }

  lemma FlatIdNotMerge(idText: string, name: string, emKey: string)
    ensures MergeStateId(idText, name, emKey) != FlatId(idText, name)
  {
    assert |MergeStateId(idText, name, emKey)| > |FlatId(idText, name)|;
  }

  /**
   * One merge group, as the source creates it: nothing happens without a `mergeName`;
   * otherwise the flat `Total-{name}` object is gone afterwards, every
   * `Total-{name}.{emKey}` of `mergedKeysArr` exists, objects that existed keep their
   * definition and value, and the objects that are new start at 0.
   */
  lemma CreateForFacts(db: Db, idText: string, mc: MergeChannel)
    ensures !Truthy(mc.mergeName) ==> CreateFor(db, idText, mc) == db
    ensures Truthy(mc.mergeName) ==>
      var name := Render(mc.mergeName);
      var r := CreateFor(db, idText, mc);
      && FlatId(idText, name) !in r.objects
      && (forall q :: q in Em06p.MergedKeys() ==> MergeStateId(idText, name, q.emKey) in r.objects)
      && (forall k :: k in db.objects && k != FlatId(idText, name) ==> k in r.objects && r.objects[k] == db.objects[k])
      && (forall k :: k in db.states && k in db.objects && k != FlatId(idText, name) ==> k in r.states && r.states[k] == db.states[k])
      && (forall k :: k in r.objects && k !in db.objects ==> k in r.states && r.states[k] == Num(0.0))
  {
    if Truthy(mc.mergeName) {
      var name := Render(mc.mergeName);
      var flat := FlatId(idText, name);
      var db1 := if flat in db.objects then Deleted(db, flat) else db;
      CreateKeysFacts(db1, idText, name, Em06p.MergedKeys());
      forall q | q in Em06p.MergedKeys() ensures MergeStateId(idText, name, q.emKey) != flat {
        FlatIdNotMerge(idText, name, q.emKey);
      }
    }
  }

  /** Running a group's creation twice is running it once: the second run creates nothing. */
  lemma CreateForIdempotent(db: Db, idText: string, mc: MergeChannel)
    ensures CreateFor(CreateFor(db, idText, mc), idText, mc) == CreateFor(db, idText, mc)
  {
    if Truthy(mc.mergeName) {
      var r := CreateFor(db, idText, mc);
      CreateForFacts(db, idText, mc);
      CreateKeysPresent(r, idText, Render(mc.mergeName), Em06p.MergedKeys());
    }
  }

  /** Creation over all groups leaves existing state values alone and gives new ones 0. */
  lemma {:induction false} CreateDynamicStates(db: Db, idText: string, list: seq<MergeChannel>)
    ensures var r := CreateDynamic(db, idText, list);
      forall k :: k in r.states ==> (k in db.states && r.states[k] == db.states[k]) || r.states[k] == Num(0.0)
    decreases |list|
  {
    if list != [] {
      var mc := list[0];
      var db1 := CreateFor(db, idText, mc);
      assert forall k :: k in db1.states ==> (k in db.states && db1.states[k] == db.states[k]) || db1.states[k] == Num(0.0) by {
        if Truthy(mc.mergeName) {
          var name := Render(mc.mergeName);
          var flat := FlatId(idText, name);
          CreateKeysFacts(if flat in db.objects then Deleted(db, flat) else db, idText, name, Em06p.MergedKeys());
        }
      }
      CreateDynamicStates(db1, idText, list[1..]);
    }
  }

  /** The totals of one merge group, written only to the quantities whose objects exist. */
  function UpdateKeys(db: Db, idText: string, name: string, channels: Option<seq<Scalar>>, items: seq<Quantity>,
                      snap: Snapshot, norm: Normaliser): Db
    decreases |items|
  {
    if items == [] then db
    else
      var sid := MergeStateId(idText, name, items[0].emKey);
      var db1 := if sid !in db.objects then db
                 else WithState(db, sid, Num(MergeValue(snap, items[0].apiKey, channels, norm)));
      UpdateKeys(db1, idText, name, channels, items[1..], snap, norm)
  }

  function UpdateFor(db: Db, idText: string, mc: MergeChannel, snap: Snapshot, norm: Normaliser): Db {
    if !Truthy(mc.mergeName) then db
    else UpdateKeys(db, idText, Render(mc.mergeName), mc.channels, Em06p.MergedKeys(), snap, norm)
  }

  function UpdateDynamic(db: Db, idText: string, list: seq<MergeChannel>, snap: Snapshot, norm: Normaliser): Db
    decreases |list|
  {
    if list == [] then db else UpdateDynamic(UpdateFor(db, idText, list[0], snap, norm), idText, list[1..], snap, norm)
  }

  /** With no snapshot, every merge total is 0. */
  lemma EmptySnapshotTotal(apiKey: string, channels: Option<seq<Scalar>>, norm: Normaliser)
    ensures MergeValue([], apiKey, channels, norm) == 0.0
  {
    if channels.Some? {
      AbsentFieldTotalsZero([], apiKey, channels.value, norm);
    }
  }

  /**
   * Updating creates no object and writes only ids whose objects exist; with no
   * snapshot yet, every value it writes is 0.
   */
  lemma {:induction false} UpdateKeysFacts(db: Db, idText: string, name: string, channels: Option<seq<Scalar>>,
                                           items: seq<Quantity>, snap: Snapshot, norm: Normaliser)
    ensures var r := UpdateKeys(db, idText, name, channels, items, snap, norm);
      && r.objects == db.objects
      && db.states.Keys <= r.states.Keys
      && forall k :: k in r.states ==>
           (k in db.states && r.states[k] == db.states[k]) || (k in db.objects && (snap == [] ==> r.states[k] == Num(0.0)))
    decreases |items|
  {
    if items != [] {
      var sid := MergeStateId(idText, name, items[0].emKey);
      EmptySnapshotTotal(items[0].apiKey, channels, norm);
      var db1 := if sid !in db.objects then db
                 else WithState(db, sid, Num(MergeValue(snap, items[0].apiKey, channels, norm)));
      UpdateKeysFacts(db1, idText, name, channels, items[1..], snap, norm);
    }
  }

  /**
   * For quantities with distinct `emKey`s, each existing `Total-{name}.{emKey}` ends up
   * holding the group's total of that quantity over the group's channel list.
   */
  lemma {:induction false} UpdateKeysValue(db: Db, idText: string, name: string, channels: Option<seq<Scalar>>,
                                           items: seq<Quantity>, snap: Snapshot, norm: Normaliser, j: nat)
    requires EmKeysDistinct(items) && j < |items|
    requires MergeStateId(idText, name, items[j].emKey) in db.objects
    ensures var r := UpdateKeys(db, idText, name, channels, items, snap, norm);
      var sid := MergeStateId(idText, name, items[j].emKey);
      sid in r.states && r.states[sid] == Num(MergeValue(snap, items[j].apiKey, channels, norm))
    decreases |items|
  {
    var sid0 := MergeStateId(idText, name, items[0].emKey);
    var db1 := if sid0 !in db.objects then db
               else WithState(db, sid0, Num(MergeValue(snap, items[0].apiKey, channels, norm)));
    if j == 0 {
      UpdateKeysFacts(db1, idText, name, channels, items[1..], snap, norm);
      var r := UpdateKeys(db1, idText, name, channels, items[1..], snap, norm);
      UpdateKeysUntouched(db1, idText, name, channels, items[1..], snap, norm, items[0].emKey);
    } else {
      assert EmKeysDistinct(items[1..]) by {
        forall a, b | 0 <= a < b < |items[1..]| ensures items[1..][a].emKey != items[1..][b].emKey {
          assert items[1..][a] == items[a + 1] && items[1..][b] == items[b + 1];
        }
      }
      assert items[1..][j - 1] == items[j];
      UpdateKeysValue(db1, idText, name, channels, items[1..], snap, norm, j - 1);
    }
  }

  lemma MergeStateIdInjective(idText: string, name: string, a: string, b: string)
    ensures MergeStateId(idText, name, a) == MergeStateId(idText, name, b) ==> a == b
  {
    var p := FlatId(idText, name) + ".";
    assert MergeStateId(idText, name, a) == p + a && MergeStateId(idText, name, b) == p + b;
    assert (p + a)[|p|..] == a && (p + b)[|p|..] == b;
  }

  /** Quantities with other `emKey`s do not write `Total-{name}.{emKey}`. */
  lemma {:induction false} UpdateKeysUntouched(db: Db, idText: string, name: string, channels: Option<seq<Scalar>>,
                                               items: seq<Quantity>, snap: Snapshot, norm: Normaliser, emKey: string)
    requires forall q :: q in items ==> q.emKey != emKey
    requires MergeStateId(idText, name, emKey) in db.states
    ensures var r := UpdateKeys(db, idText, name, channels, items, snap, norm);
      var sid := MergeStateId(idText, name, emKey);
      sid in r.states && r.states[sid] == db.states[sid]
    decreases |items|
  {
    if items != [] {
      assert items[0] in items;
      var sid0 := MergeStateId(idText, name, items[0].emKey);
      MergeStateIdInjective(idText, name, items[0].emKey, emKey);
      var db1 := if sid0 !in db.objects then db
                 else WithState(db, sid0, Num(MergeValue(snap, items[0].apiKey, channels, norm)));
      UpdateKeysUntouched(db1, idText, name, channels, items[1..], snap, norm, emKey);
    }
  }

  /**
   * A named group's update writes, to every merged quantity whose object exists, the
   * merge total of that quantity over the group's channels.
   */
  lemma UpdateForValue(db: Db, idText: string, mc: MergeChannel, snap: Snapshot, norm: Normaliser, q: Quantity)
    requires Truthy(mc.mergeName) && q in Em06p.MergedKeys()
    requires MergeStateId(idText, Render(mc.mergeName), q.emKey) in db.objects
    ensures var r := UpdateFor(db, idText, mc, snap, norm);
      var sid := MergeStateId(idText, Render(mc.mergeName), q.emKey);
      sid in r.states && r.states[sid] == Num(MergeValue(snap, q.apiKey, mc.channels, norm))
  {
    Em06p.MergedKeysDistinct();
    var j :| 0 <= j < |Em06p.MergedKeys()| && Em06p.MergedKeys()[j] == q;
    UpdateKeysValue(db, idText, Render(mc.mergeName), mc.channels, Em06p.MergedKeys(), snap, norm, j);
  }

  lemma {:induction false} UpdateDynamicFacts(db: Db, idText: string, list: seq<MergeChannel>, snap: Snapshot, norm: Normaliser)
    ensures var r := UpdateDynamic(db, idText, list, snap, norm);
      && r.objects == db.objects
      && forall k :: k in r.states ==>
           (k in db.states && r.states[k] == db.states[k]) || (k in db.objects && (snap == [] ==> r.states[k] == Num(0.0)))
    decreases |list|
  {
    if list != [] {
      var db1 := UpdateFor(db, idText, list[0], snap, norm);
      if Truthy(list[0].mergeName) {
        UpdateKeysFacts(db, idText, Render(list[0].mergeName), list[0].channels, Em06p.MergedKeys(), snap, norm);
      }
      UpdateDynamicFacts(db1, idText, list[1..], snap, norm);
    }
  }

  /**
   * Merge totals always use `em06p`'s quantities. Its month-returned quantity reads
   * `mConsumeRe`, which em16p records name `mConsumeX`: on em16p records that total is 0.
   */
  lemma MonthReturnedTotalOnEm16p(snap: Snapshot, channels: Option<seq<Scalar>>, norm: Normaliser)
    requires forall i :: 0 <= i < |snap| ==> "mConsumeRe" !in snap[i]
    ensures Em06p.ThisMonthEnergyReturned in Em06p.MergedKeys()
    ensures Em06p.ThisMonthEnergyReturned.apiKey == "mConsumeRe" && Em16p.ThisMonthEnergyReturned.apiKey == "mConsumeX"
    ensures MergeValue(snap, Em06p.ThisMonthEnergyReturned.apiKey, channels, norm) == 0.0
  {
    Em06p.MergedKeysInOrder();
    if channels.Some? {
      AbsentFieldTotalsZero(snap, "mConsumeRe", channels.value, norm);
    }
  }

  /**
   * `processChannelMergeRequest`: a failed request or an empty `control` array changes
   * nothing; otherwise the list is stored, its datapoints created, then updated from the
   * snapshot the session already holds.
   */
  function ProcessMerge(f: Fields, db: Db, env: Env, fetch: Fetch): (Fields, Db) {
    match fetch(Request(f.uuid, f.ip, ChannelMergeNamespace, MergeQuery))
    case None => (f, db)
    case Some(reply) =>
      if |reply.control| == 0 then (f, db)
      else
        var idText := IdText(f.deviceId);
        (f.(mergeList := reply.control, mergeData := reply.control),
         UpdateDynamic(CreateDynamic(db, idText, reply.control), idText, reply.control, f.httpData, env.norm))
  }

  /**
   * Merge totals are computed before this cycle's snapshot arrives: on a session with no
   * snapshot yet, every state value the merge step writes is 0.
   */
  lemma FirstCycleTotalsZero(f: Fields, db: Db, env: Env, fetch: Fetch)
    requires f.httpData == []
    ensures var r := ProcessMerge(f, db, env, fetch).1;
      forall k :: k in r.states ==> (k in db.states && r.states[k] == db.states[k]) || r.states[k] == Num(0.0)
  {
    match fetch(Request(f.uuid, f.ip, ChannelMergeNamespace, MergeQuery))
    case None =>
    case Some(reply) =>
      if |reply.control| > 0 {
        var idText := IdText(f.deviceId);
        var db1 := CreateDynamic(db, idText, reply.control);
        CreateDynamicStates(db, idText, reply.control);
        UpdateDynamicFacts(db1, idText, reply.control, f.httpData, env.norm);
      }
  }

  // ---------------------------------------------------------------------------
  // Polling (`httpState`)
  // ---------------------------------------------------------------------------

  /**
   * The datapoint `device[stateId]` of session `f` and its value; `None` where the source
   * throws a TypeError.
   */
  function MemberValue(f: Fields, stateId: string, env: Env): Option<(Common, Value)> {
    match Lookup(f.device, stateId)
    case None => None
    case Some(sd) =>
      if sd.http.None? then Some((sd.common, Undefined))
      else match GetterValue(sd.http.value.getter, f, env)
        case None => None
        case Some(v) => Some((sd.common, v))
  }

  /** The writes of one group's member loop on session `f`, which a thrown error ends. */
  function WriteMembers(db: Db, f: Fields, dps: seq<Member>, env: Env): Db
    decreases |dps|
  {
    if dps == [] then db
    else match MemberValue(f, dps[0].stateId, env)
      case None => db
      case Some(cv) => WriteMembers(Upserted(db, IdText(f.deviceId) + "." + dps[0].stateId, StateObj(cv.0), cv.1),
                                    f, dps[1..], env)
  }

  /**
   * One namespace group: request with the first member's payload, keep the array under
   * its ack key as the new snapshot, and write every member. Returns the snapshot and db.
   */
  function PollGroup(f: Fields, db: Db, env: Env, fetch: Fetch, ns: string, dps: seq<Member>): (Snapshot, Db) {
    if dps == [] then (f.httpData, db)
    else match fetch(Request(f.uuid, f.ip, ns, dps[0].payload))
      case None => (f.httpData, db)
      case Some(reply) =>
        var snap := if dps[0].ack in reply.arrays then reply.arrays[dps[0].ack] else [];
        (snap, WriteMembers(db, f.(httpData := snap), dps, env))
  }

  function PollGroups(f: Fields, db: Db, env: Env, fetch: Fetch, groups: Groups): (Snapshot, Db)
    decreases |groups|
  {
    if groups == [] then (f.httpData, db)
    else
      var r := PollGroup(f, db, env, fetch, groups[0].0, groups[0].1);
      PollGroups(f.(httpData := r.0), r.1, env, fetch, groups[1..])
  }

  /**
   * One run of `httpState`: offline or without an IP it only arms the timer; otherwise
   * the merge step, then every group, then the timer is armed when there are groups.
   */
  function HttpStateSpec(f: Fields, db: Db, env: Env, online: bool, fetch: Fetch): (Fields, Db) {
    if !online || !Truthy(f.ip) then (f.(pollTimer := true), db)
    else
      var m := ProcessMerge(f, db, env, fetch);
      var p := PollGroups(m.0, m.1, env, fetch, m.0.http);
      (m.0.(httpData := p.0, pollTimer := m.0.pollTimer || |m.0.http| > 0), p.1)
  }

  /**
   * Offline or without an IP, `httpState` sends no request (its result is the same
   * whatever the device would answer) and writes nothing; it only arms the timer.
   */
  lemma HttpGated(f: Fields, db: Db, env: Env, online: bool, fetch: Fetch, other: Fetch)
    requires !online || !Truthy(f.ip)
    ensures HttpStateSpec(f, db, env, online, fetch) == HttpStateSpec(f, db, env, online, other)
    ensures HttpStateSpec(f, db, env, online, fetch).1 == db
    ensures HttpStateSpec(f, db, env, online, fetch).0 == f.(pollTimer := true)
  {
  }

  /** A group whose request fails keeps the old snapshot and writes no datapoint. */
  lemma FailedGroupWritesNothing(f: Fields, db: Db, env: Env, fetch: Fetch, ns: string, dps: seq<Member>)
    requires dps != [] && fetch(Request(f.uuid, f.ip, ns, dps[0].payload)).None?
    ensures PollGroup(f, db, env, fetch, ns, dps) == (f.httpData, db)
  {
  }

  /** The member loop writes only its members' ids, and only datapoint objects. */
  lemma {:induction false} WriteMembersFrame(db: Db, f: Fields, dps: seq<Member>, env: Env)
    ensures var r := WriteMembers(db, f, dps, env);
      var idText := IdText(f.deviceId);
      && db.objects.Keys <= r.objects.Keys
      && (forall k :: k in r.objects && (k !in db.objects || r.objects[k] != db.objects[k]) ==>
            r.objects[k].StateObj? && exists m :: m in dps && k == idText + "." + m.stateId)
      && (forall k :: k in db.states && (k !in r.states || r.states[k] != db.states[k]) ==>
            exists m :: m in dps && k == idText + "." + m.stateId)
    decreases |dps|
  {
    var idText := IdText(f.deviceId);
    if dps != [] {
      match MemberValue(f, dps[0].stateId, env)
      case None =>
      case Some(cv) =>
        var db1 := Upserted(db, idText + "." + dps[0].stateId, StateObj(cv.0), cv.1);
        WriteMembersFrame(db1, f, dps[1..], env);
        var r := WriteMembers(db, f, dps, env);
        assert dps[0] in dps;
        forall k | k in r.objects && (k !in db.objects || r.objects[k] != db.objects[k])
          ensures r.objects[k].StateObj? && exists m :: m in dps && k == idText + "." + m.stateId
        {
          if k != idText + "." + dps[0].stateId {
            var m :| m in dps[1..] && k == idText + "." + m.stateId;
            assert m in dps;
          }
        }
        forall k | k in db.states && (k !in r.states || r.states[k] != db.states[k])
          ensures exists m :: m in dps && k == idText + "." + m.stateId
        {
          if k != idText + "." + dps[0].stateId {
            var m :| m in dps[1..] && k == idText + "." + m.stateId;
            assert m in dps;
          }
        }
    }
  }

  /**
   * A model datapoint whose channel has a record is written with its getter's value: the
   * group's request feeds each member with the record of its own channel.
   */
  lemma MemberValueOfModel(f: Fields, stateId: string, q: Quantity, c: int, env: Env)
    requires Lookup(f.device, stateId) == Some(StateOf(q, ElectricityGetter(c, q.apiKey)))
    requires 1 <= c <= |f.httpData| && q.apiKey != "factor"
    ensures MemberValue(f, stateId, env)
            == Some((StateOf(q, ElectricityGetter(c, q.apiKey)).common, Num(env.norm(Field(f.httpData[c - 1], q.apiKey)))))
  {
    ElectricityAt(f.httpData, c, q.apiKey, env.norm);
  }

  // ---------------------------------------------------------------------------
  // The session object
  // ---------------------------------------------------------------------------

  /**
   * The fields of a new session: its id, its class's catalog and groups when it has an
   * id, and the first poll pending exactly then.
   */
  function StartFields(info: Announcement, env: Env): (r: Fields)
    ensures r.info == info && r.deviceId == DeviceIdOf(info, env.forbidden)
    ensures r.ip == info.ip && r.uuid == info.uuid
    ensures r.httpData == [] && r.mergeData == [] && r.mergeList == []
    ensures r.deviceId.Some? ==> r.device == CatalogFor(info, env) && r.http == GroupsOf(r.device) && r.pollTimer
    ensures r.deviceId.None? ==> r.device == [] && r.http == [] && !r.pollTimer
  {
    var id := DeviceIdOf(info, env.forbidden);
    if id.Some? then
      var cat := CatalogFor(info, env);
      Registering(info, env).(device := cat, http := GroupsOf(cat), pollTimer := true)
    else
      Registering(info, env)
  }

  /**
   * The session as `createObjects` finds it, and as `init_funct(this)` sees it during
   * registration: its id is derived, and nothing else is set yet.
   */
  function Registering(info: Announcement, env: Env): Fields {
    Fields(info, DeviceIdOf(info, env.forbidden), info.ip, info.uuid, [], [], [], [], [], false)
  }

  /** What a new session writes: its registration, when it has an id. */
  function StartWrites(db: Db, env: Env, info: Announcement): Db {
    match DeviceIdOf(info, env.forbidden)
    case None => db
    case Some(id) => CreateWrites(db, env, id, CatalogFor(info, env), Registering(info, env))
  }

  /** The ids of a new session's states that read the session: none without an id. */
  function StartSessionIds(info: Announcement, env: Env): set<string> {
    match DeviceIdOf(info, env.forbidden)
    case None => {}
    case Some(id) => SessionStateIds(id, CatalogFor(info, env))
  }

  /**
   * A new session keeps every existing object, and writes a state value only for a state
   * that reads the session; with an id it creates an object per catalog state, and with a
   * non-empty catalog its device object.
   */
  lemma StartWritesFacts(db: Db, env: Env, info: Announcement)
    ensures db.objects.Keys <= StartWrites(db, env, info).objects.Keys
    ensures forall k :: k !in StartSessionIds(info, env) ==> SameState(db, StartWrites(db, env, info), k)
    ensures StartSessionIds(info, env) == {} ==> StartWrites(db, env, info).states == db.states
    ensures var id := DeviceIdOf(info, env.forbidden);
      && (id.Some? ==> forall k :: k in KeySet(CatalogFor(info, env)) ==>
            id.value + "." + k in StartWrites(db, env, info).objects)
      && (id.Some? && CatalogFor(info, env) != [] ==>
            id.value in StartWrites(db, env, info).objects
            && StartWrites(db, env, info).objects[id.value] == DeviceObject(env, id.value, info))
  {
    var id := DeviceIdOf(info, env.forbidden);
    if id.Some? {
      CreateWritesFacts(db, env, id.value, CatalogFor(info, env), Registering(info, env));
    }
  }

  /**
   * The model tables read only the snapshot, so when no default datapoint reads the
   * session either, a new session writes no state value at all.
   */
  lemma SnapshotDefaultsWriteNoState(info: Announcement, env: Env)
    requires DistinctKeys(env.defaults)
    requires forall i :: 0 <= i < |env.defaults| ==> !ReadsSession(env.defaults[i].1)
    ensures StartSessionIds(info, env) == {}
  {
    var cat := CatalogFor(info, env);
    forall i | 0 <= i < |cat| ensures !ReadsSession(cat[i].1) {
      var name := info.devName.value.s;
      DeviceByClassLookup(name, env.defaults, cat[i].0);
      LookupDistinct(cat, i);
      if ReadsSession(cat[i].1) {
        SessionReadsFromDefaults(name, env.defaults, cat[i].0);
        var j := LookupFound(env.defaults, cat[i].0);
        assert false;
      }
    }
    if DeviceIdOf(info, env.forbidden).Some? {
      assert SessionStateIds(DeviceIdOf(info, env.forbidden).value, cat) == {};
    }
  }

  /** The fields `destroy` leaves: everything reset but `deveiceInfo`. */
  function Destroyed(info: Announcement): Fields {
    Fields(info, None, Some(JNull), Some(JNull), [], [], [], [], [], false)
  }

  class Base {
    const store: ObjectStore
    const env: Env
    /** `deveiceInfo`, the announcement the session was built from. */
    const info: Announcement
    var deviceId: Option<string>
    var ip: Option<Json>
    var uuid: Option<Json>
    var device: Catalog
    var http: Groups
    var httpData: Snapshot
    var mergeChannelData: seq<MergeChannel>
    var mergeChannelList: seq<MergeChannel>
    /**
     * A poll is pending: `httpIoStateTimeout` is armed, or the first `httpState` that
     * `initObjects` starts after `createObjects` has yet to run.
     */
    var pollTimer: bool

    function State(): Fields
      reads this
    {
      Fields(info, deviceId, ip, uuid, device, http, httpData, mergeChannelData, mergeChannelList, pollTimer)
    }

    /**
     * `new Base(adapter, objectHelper, deveiceInfo)` and `initObjects`: the id is derived
     * and, when there is one, the catalog registered and the first poll left pending.
     * Without an id `getDeviceId` throws and `initObjects` stops there.
     */
    constructor(store: ObjectStore, env: Env, info: Announcement)
      modifies store
      ensures this.store == store && this.env == env && this.info == info
      ensures State() == StartFields(info, env)
      ensures store.db == StartWrites(old(store.db), env, info)
      ensures deviceId == DeviceIdOf(info, env.forbidden)
      ensures ip == info.ip && uuid == info.uuid && httpData == []
      ensures mergeChannelData == [] && mergeChannelList == [] && pollTimer == deviceId.Some?
      ensures deviceId.None? ==> device == [] && http == [] && store.db == old(store.db)
      ensures deviceId.Some? ==>
        && device == CatalogFor(info, env) && http == GroupsOf(device)
        && store.db == CreateWrites(old(store.db), env, deviceId.value, device, Registering(info, env))
    {
      this.store := store;
      this.env := env;
      this.info := info;
      deviceId := DeviceIdOf(info, env.forbidden);
      ip := info.ip;
      uuid := info.uuid;
      device := [];
      http := [];
      httpData := [];
      mergeChannelData := [];
      mergeChannelList := [];
      pollTimer := false;
      new;
      if deviceId.Some? {
        CreateObjects();
        pollTimer := true;
      }
    }

    /** `createObjects`: register every catalog state and group the polled ones by namespace. */
    method CreateObjects()
      requires deviceId.Some?
      modifies this`device, this`http, store
      ensures device == CatalogFor(info, env) && http == GroupsOf(device)
      ensures store.db == CreateWrites(old(store.db), env, deviceId.value, device, old(State()))
    {
      var cat := CatalogFor(info, env);
      var deviceStatesHttp := RegisterCatalog(deviceId.value, cat);
      http := deviceStatesHttp;
      device := cat;
    }

    /** The loop of `createObjects` over the catalog's states. */
    method RegisterCatalog(id: string, cat: Catalog) returns (deviceStatesHttp: Groups)
      modifies store
      ensures deviceStatesHttp == GroupsOf(cat)
      ensures store.db == CreateWrites(old(store.db), env, id, cat, State())
    {
      deviceStatesHttp := [];
      ghost var db0 := store.db;
      var i := 0;
      while i < |cat|
        invariant 0 <= i <= |cat|
        invariant deviceStatesHttp == GroupsOf(cat[..i])
        invariant CreateWrites(db0, env, id, cat, State()) == CreateWrites(store.db, env, id, cat[i..], State())
      {
        GroupsOfStep(cat, i);
        CreateWritesStep(store.db, env, id, cat, i, State());
        RegisterState(id, cat[i]);
        if Polled(cat[i]) {
          deviceStatesHttp := AddMember(deviceStatesHttp, cat[i].1.http.value.namespace, MemberOf(cat[i]));
        }
        i := i + 1;
      }
      assert cat[..i] == cat;
    }

    /** The objects `createObjects` registers for one catalog state. */
    method RegisterState(id: string, e: (string, StateDef))
      modifies store
      ensures store.db == EntryWrites(old(store.db), env, id, e, State())
    {
      var (stateId, state) := e;
      store.Upsert(id, DeviceObject(env, id, info), Undefined);
      var channel := FirstSegment(stateId);
      if channel != stateId {
        store.Upsert(id + "." + channel, ChannelObj("Channel " + channel), Undefined);
      }
      store.Upsert(id + "." + stateId, StateObj(state.common), InitValue(state, State(), env));
    }

    /** `httpState`, with the device's liveness and the device's answers given. */
    method HttpState(online: bool, fetch: Fetch)
      modifies this`httpData, this`mergeChannelData, this`mergeChannelList, this`pollTimer, store
      ensures (State(), store.db) == HttpStateSpec(old(State()), old(store.db), env, online, fetch)
    {
      if !online || !Truthy(ip) {
        pollTimer := true;
        return;
      }
      ProcessChannelMergeRequest(fetch);
      ghost var f0, db0 := State(), store.db;
      var groups := http;
      var k := 0;
      while k < |groups|
        modifies this`httpData, store
        invariant 0 <= k <= |groups|
        invariant PollGroups(f0, db0, env, fetch, groups)
                  == PollGroups(State(), store.db, env, fetch, groups[k..])
        invariant State() == f0.(httpData := httpData)
      {
        assert groups[k..][1..] == groups[k + 1..];
        PollOneGroup(groups[k].0, groups[k].1, fetch);
        k := k + 1;
      }
      pollTimer := pollTimer || |http| > 0;
    }

    /** The poll timer fires: it is no longer pending, and `httpState` runs. */
    method PollTimerFires(online: bool, fetch: Fetch)
      requires pollTimer
      modifies this`httpData, this`mergeChannelData, this`mergeChannelList, this`pollTimer, store
      ensures (State(), store.db) == HttpStateSpec(old(State()).(pollTimer := false), old(store.db), env, online, fetch)
    {
      pollTimer := false;
      HttpState(online, fetch);
    }

    /** The body of the namespace loop for one group, inside its `try`. */
    method PollOneGroup(ns: string, dps: seq<Member>, fetch: Fetch)
      modifies this`httpData, store
      ensures (httpData, store.db) == PollGroup(old(State()), old(store.db), env, fetch, ns, dps)
    {
      if |dps| == 0 {
        return;
      }
      var httpAck := fetch(Request(uuid, ip, ns, dps[0].payload));
      if httpAck.None? {
        return;
      }
      httpData := if dps[0].ack in httpAck.value.arrays then httpAck.value.arrays[dps[0].ack] else [];
      WriteGroupMembers(dps);
    }

    /** The member loop of one group: a missing datapoint or a throwing getter ends it. */
    method WriteGroupMembers(dps: seq<Member>)
      modifies store
      ensures store.db == WriteMembers(old(store.db), State(), dps, env)
    {
      var idText := IdText(deviceId);
      ghost var db0 := store.db;
      var i := 0;
      while i < |dps|
        invariant 0 <= i <= |dps|
        invariant WriteMembers(db0, State(), dps, env) == WriteMembers(store.db, State(), dps[i..], env)
      {
        assert dps[i..][1..] == dps[i + 1..];
        var dp := Lookup(device, dps[i].stateId);
        if dp.None? {
          break;
        }
        var value := Undefined;
        if dp.value.http.Some? {
          var v := GetterValue(dp.value.http.value.getter, State(), env);
          if v.None? {
            break;
          }
          value := v.value;
        }
        store.Upsert(idText + "." + dps[i].stateId, StateObj(dp.value.common), value);
        i := i + 1;
      }
    }

    /** `processChannelMergeRequest`. */
    method ProcessChannelMergeRequest(fetch: Fetch)
      modifies this`mergeChannelData, this`mergeChannelList, store
      ensures (State(), store.db) == ProcessMerge(old(State()), old(store.db), env, fetch)
    {
      var httpAck := fetch(Request(uuid, ip, ChannelMergeNamespace, MergeQuery));
      if httpAck.None? {
        return;
      }
      var control := httpAck.value.control;
      if |control| > 0 {
        mergeChannelList := control;
        mergeChannelData := control;
        CreateDynamicMergeChannelDataPoints();
        UpdateDynamicMergeChannelDataPoints();
      }
    }

    /** `createDynamicMergeChannelDataPoints`. */
    method CreateDynamicMergeChannelDataPoints()
      modifies store
      ensures store.db == CreateDynamic(old(store.db), IdText(deviceId), mergeChannelList)
    {
      var list := mergeChannelList;
      var idText := IdText(deviceId);
      var mergedKeysArr := Em06p.MergedKeys();
      ghost var db0 := store.db;
      var k := 0;
      while k < |list|
        invariant 0 <= k <= |list|
        invariant CreateDynamic(db0, idText, list) == CreateDynamic(store.db, idText, list[k..])
      {
        assert list[k..][1..] == list[k + 1..];
        var mergeChannel := list[k];
        if Truthy(mergeChannel.mergeName) {
          var mergeName := Render(mergeChannel.mergeName);
          var oldObjectStateId := FlatId(idText, mergeName);
          if store.Has(oldObjectStateId) {
            store.Delete(oldObjectStateId);
          }
          CreateMergeKeys(idText, mergeName, mergedKeysArr);
        }
        k := k + 1;
      }
    }

    /** The inner loop of `createDynamicMergeChannelDataPoints` over the merged quantities. */
    method CreateMergeKeys(idText: string, mergeName: string, items: seq<Quantity>)
      modifies store
      ensures store.db == CreateKeys(old(store.db), idText, mergeName, items)
    {
      var j := 0;
      while j < |items|
        invariant 0 <= j <= |items|
        invariant CreateKeys(old(store.db), idText, mergeName, items) == CreateKeys(store.db, idText, mergeName, items[j..])
      {
        assert items[j..][1..] == items[j + 1..];
        var item := items[j];
        var fullStateId := MergeStateId(idText, mergeName, item.emKey);
        if !store.Has(fullStateId) {
          store.Upsert(fullStateId, StateObj(MergeCommon(mergeName, item)), Num(0.0));
        }
        j := j + 1;
      }
    }

    /** `updateDynamicMergeChannelDataPoints`, computed from the current snapshot. */
    method UpdateDynamicMergeChannelDataPoints()
      modifies store
      ensures store.db == UpdateDynamic(old(store.db), IdText(deviceId), mergeChannelList, httpData, env.norm)
    {
      var list := mergeChannelList;
      var idText := IdText(deviceId);
      var mergedKeysArr := Em06p.MergedKeys();
      ghost var db0 := store.db;
      var k := 0;
      while k < |list|
        invariant 0 <= k <= |list|
        invariant UpdateDynamic(db0, idText, list, httpData, env.norm)
                  == UpdateDynamic(store.db, idText, list[k..], httpData, env.norm)
      {
        assert list[k..][1..] == list[k + 1..];
        var mergeChannel := list[k];
        if Truthy(mergeChannel.mergeName) {
          var mergeName := Render(mergeChannel.mergeName);
          UpdateMergeKeys(idText, mergeName, mergeChannel.channels, mergedKeysArr);
        }
        k := k + 1;
      }
    }

    /** The inner loop of `updateDynamicMergeChannelDataPoints` over the merged quantities. */
    method UpdateMergeKeys(idText: string, mergeName: string, channels: Option<seq<Scalar>>, items: seq<Quantity>)
      modifies store
      ensures store.db == UpdateKeys(old(store.db), idText, mergeName, channels, items, httpData, env.norm)
    {
      var j := 0;
      while j < |items|
        invariant 0 <= j <= |items|
        invariant UpdateKeys(old(store.db), idText, mergeName, channels, items, httpData, env.norm)
                  == UpdateKeys(store.db, idText, mergeName, channels, items[j..], httpData, env.norm)
      {
        assert items[j..][1..] == items[j + 1..];
        var item := items[j];
        var fullStateId := MergeStateId(idText, mergeName, item.emKey);
        if store.Has(fullStateId) {
          var value := MergeByChannels(httpData, item.apiKey, channels, env.norm);
          store.SetState(fullStateId, Num(value));
        }
        j := j + 1;
      }
    }

    /**
     * `destroy`: every field is reset and the timer cleared; the old id is returned for
     * the caller's offline report.
     */
    method Destroy() returns (reported: Option<string>)
      modifies this`deviceId, this`ip, this`uuid, this`device, this`http, this`httpData,
               this`mergeChannelData, this`mergeChannelList, this`pollTimer
      ensures reported == old(deviceId)
      ensures State() == Destroyed(info)
    {
      reported := deviceId;
      deviceId := None;
      ip := Some(JNull);
      uuid := Some(JNull);
      device := [];
      http := [];
      httpData := [];
      mergeChannelData := [];
      mergeChannelList := [];
      pollTimer := false;
    }
  }
}
