/**
 * The adapter object (`Refoss` in main.js) as a liveness tracker: the set of devices
 * currently reachable, the list of known device ids, the connection flag derived from
 * the count, and the single pending online-check timer.
 */
module Adapter {
  import opened Wrappers
  import opened Json
  import Catalog
  import opened Telemetry
  import opened Store
  import opened DeviceSession
  import opened Discovery

  /** The online check re-arms itself every 15 seconds. */
  const CheckIntervalMs: nat := 15 * 1000

  const ConnectionId := "info.connection"

  function OnlineId(id: string): string {
    id + ".online"
  }

  function HostnameId(id: string): string {
    id + ".hostname"
  }

  /** The answer of `tcpPing.probe(host, 80)` for a hostname state value. */
  type Probe = Value -> bool

  /** JavaScript truthiness of a stored state value. */
  predicate ValueTruthy(v: Value) {
    match v
    case Undefined => false
    case Num(x) => x != 0.0
    case Raw(s) =>
      match s
      case Number(x) => x != 0.0
      case Flag(b) => b
      case Text(t) => t != ""
      case Null => false
  }

  /** `stateHostname ? stateHostname.val : undefined`. */
  function HostValue(db: Db, id: string): Value {
    if HostnameId(id) in db.states then db.states[HostnameId(id)] else Undefined
  }

  /** A device is alive when it has a truthy hostname and the probe answers. */
  predicate Alive(db: Db, id: string, probe: Probe) {
    ValueTruthy(HostValue(db, id)) && probe(HostValue(db, id))
  }

  /** `stateOnline ? stateOnline.val === true || stateOnline.val === 'true' : false`. */
  predicate PrevOnline(db: Db, id: string) {
    OnlineId(id) in db.states &&
    (db.states[OnlineId(id)] == Raw(Flag(true)) || db.states[OnlineId(id)] == Raw(Text("true")))
  }

  lemma OnlineIdInjective(a: string, b: string)
    requires OnlineId(a) == OnlineId(b)
    ensures a == b
  {
    assert a == OnlineId(a)[..|a|];
    assert b == OnlineId(b)[..|b|];
  }

  /** The online, hostname and connection ids never collide: their last characters differ. */
  lemma IdsDistinct(a: string, b: string)
    ensures OnlineId(a) != HostnameId(b)
    ensures OnlineId(a) != ConnectionId
  {
    var o, h := OnlineId(a), HostnameId(b);
    assert o[|o| - 2] == 'n' && h[|h| - 2] == 'm';
    assert o[|o| - 1] == 'e' && ConnectionId[|ConnectionId| - 1] == 'n';
  }

  // ---------------------------------------------------------------------------
  // deviceStatusUpdate, step by step
  // ---------------------------------------------------------------------------

  /** The per-device online state is written only when it differs from the stored one. */
  function OnlineWritten(db: Db, id: string, status: bool): Db {
    if PrevOnline(db, id) != status then WithState(db, OnlineId(id), Raw(Flag(status))) else db
  }

  /** `onlineDevices[id] = true`, or `delete onlineDevices[id]` when it is a key. */
  function Tracked(online: set<string>, id: string, status: bool): set<string> {
    if status then online + {id} else online - {id}
  }

  /** `info.connection` is written only when the online count changed, and then as count > 0. */
  function ConnectionWritten(db: Db, before: set<string>, after: set<string>): Db {
    if |before| != |after| then WithState(db, ConnectionId, Raw(Flag(|after| > 0))) else db
  }

  /**
   * After a report the stored online state equals the status, only that state may change,
   * and a second identical write changes nothing.
   */
  lemma OnlineWrittenFacts(db: Db, id: string, status: bool)
    ensures PrevOnline(OnlineWritten(db, id, status), id) == status
    ensures OnlineWritten(db, id, status).objects == db.objects
    ensures forall k :: k != OnlineId(id) && k in db.states ==>
      k in OnlineWritten(db, id, status).states && OnlineWritten(db, id, status).states[k] == db.states[k]
    ensures OnlineWritten(OnlineWritten(db, id, status), id, status) == OnlineWritten(db, id, status)
  {
  }

  /**
   * After a report the device is online exactly when the status says so, no other device
   * changes, and the count changes exactly when the device's membership did.
   */
  lemma TrackedFacts(online: set<string>, id: string, status: bool)
    ensures id in Tracked(online, id, status) <==> status
    ensures forall k :: k != id ==> (k in Tracked(online, id, status) <==> k in online)
    ensures |Tracked(online, id, status)| != |online| <==> status != (id in online)
    ensures Tracked(Tracked(online, id, status), id, status) == Tracked(online, id, status)
  {
    var r := Tracked(online, id, status);
    if status && id in online {
      assert r == online;
    } else if status {
      assert |r| == |online| + 1;
    } else if id in online {
      assert |r| == |online| - 1;
    } else {
      assert r == online;
    }
  }

  /**
   * The connection flag is written exactly when the count changed, then as count > 0;
   * nothing else in the store changes.
   */
  lemma ConnectionWrittenFacts(db: Db, before: set<string>, after: set<string>)
    ensures |before| == |after| ==> ConnectionWritten(db, before, after) == db
    ensures |before| != |after| ==>
      ConnectionWritten(db, before, after).states[ConnectionId] == Raw(Flag(after != {}))
    ensures forall k :: k != ConnectionId && k in db.states ==>
      k in ConnectionWritten(db, before, after).states && ConnectionWritten(db, before, after).states[k] == db.states[k]
  {
    if after != {} {
      var x :| x in after;
      assert x in after;
    }
  }

  /**
   * Reporting the same status twice: the second report writes no online state, starts no
   * re-poll, leaves the online set alone and writes no connection flag.
   */
  lemma RepeatedReportIsNoop(db: Db, online: set<string>, id: string, status: bool, db1: Db)
    requires db1 == ConnectionWritten(OnlineWritten(db, id, status), online, Tracked(online, id, status))
    ensures PrevOnline(db1, id) == status
    ensures OnlineWritten(db1, id, status) == db1
    ensures Tracked(Tracked(online, id, status), id, status) == Tracked(online, id, status)
    ensures ConnectionWritten(db1, Tracked(online, id, status), Tracked(Tracked(online, id, status), id, status)) == db1
  {
    OnlineWrittenFacts(db, id, status);
    TrackedFacts(online, id, status);
    IdsDistinct(id, id);
    ConnectionWrittenFacts(OnlineWritten(db, id, status), online, Tracked(online, id, status));
  }

  /**
   * `Array.prototype.find` over the sessions by device id: the first session with that id,
   * if any.
   */
  function FirstWithId(sessions: seq<Base>, id: string): (r: Option<Base>)
    reads sessions
    ensures r.Some? <==> exists i :: 0 <= i < |sessions| && sessions[i].deviceId == Some(id)
    ensures r.Some? ==>
      exists i ::
        && 0 <= i < |sessions| && sessions[i] == r.value && sessions[i].deviceId == Some(id)
        && forall j :: 0 <= j < i ==> sessions[j].deviceId != Some(id)
  {
    if sessions == [] then None
    else if sessions[0].deviceId == Some(id) then Some(sessions[0])
    else
      var r := FirstWithId(sessions[1..], id);
      assert forall i :: 1 <= i < |sessions| ==> sessions[i] == sessions[1..][i - 1];
      r
  }

  /**
   * The re-poll of main.js as written: the session's `httpState` consults `isOnline` before
   * `onlineDevices` gains the id, so for a device that was not yet counted online the
   * re-poll sends no request and writes nothing; it only arms the session's poll timer.
   */
  lemma RepollAsWrittenGated(f: Fields, db: Db, env: Env, online: set<string>, id: string, fetch: Fetch)
    requires id !in online
    ensures HttpStateSpec(f, db, env, id in online, fetch) == (f.(pollTimer := true), db)
  {
  }

  /**
   * The corrected re-poll of a device coming online, with an IP: the report is tracked
   * first, so `httpState` is not gated. It asks the device for its merge channels, keeps
   * a non-empty `control` answer as the merge list, and leaves the store as the merge
   * step followed by one request per namespace group leaves it.
   */
  lemma RepollCorrectedRequests(f: Fields, db: Db, env: Env, online: set<string>, id: string, fetch: Fetch)
    requires Truthy(f.ip)
    ensures id in Tracked(online, id, true)
    ensures var r := HttpStateSpec(f, db, env, id in Tracked(online, id, true), fetch);
      var answer := fetch(Request(f.uuid, f.ip, ChannelMergeNamespace, Catalog.MergeQuery));
      var m := ProcessMerge(f, db, env, fetch);
      && r.0.mergeList == (if answer.Some? && |answer.value.control| > 0 then answer.value.control else f.mergeList)
      && r.1 == PollGroups(m.0, m.1, env, fetch, f.http).1
      && r.0.pollTimer == (f.pollTimer || |f.http| > 0)
  {
  }

  // ---------------------------------------------------------------------------
  // initOnlineStatus and onlineStatusCheck as specifications
  // ---------------------------------------------------------------------------

  /** The loop of `initOnlineStatus` over the cached ids: write `<id>.online`, count the alive. */
  function InitFold(db: Db, online: set<string>, ids: seq<string>, probe: Probe): (Db, set<string>)
    decreases |ids|
  {
    if ids == [] then (db, online)
    else
      var alive := Alive(db, ids[0], probe);
      InitFold(WithState(db, OnlineId(ids[0]), Raw(Flag(alive))),
               if alive then online + {ids[0]} else online, ids[1..], probe)
  }

  /** `initOnlineStatus` after `getAllDeviceIds`: the loop, then `info.connection` as count > 0. */
  function InitOnlineSpec(db: Db, online: set<string>, ids: seq<string>, probe: Probe): (Db, set<string>) {
    var r := InitFold(db, online, ids, probe);
    (WithState(r.0, ConnectionId, Raw(Flag(|r.1| > 0))), r.1)
  }

  lemma AliveAfterOnlineWrite(db: Db, id: string, v: Value, x: string, probe: Probe)
    ensures Alive(WithState(db, OnlineId(id), v), x, probe) == Alive(db, x, probe)
  {
    IdsDistinct(id, x);
  }

  /**
   * The loop never removes a device and adds exactly the cached devices found alive;
   * writing online states does not change any hostname, so aliveness is judged on the
   * store as it was before the loop.
   */
  lemma {:induction false} InitFoldSet(db: Db, online: set<string>, ids: seq<string>, probe: Probe)
    ensures forall x :: x in InitFold(db, online, ids, probe).1 <==> x in online || (x in ids && Alive(db, x, probe))
    decreases |ids|
  {
    if ids != [] {
      var alive := Alive(db, ids[0], probe);
      var db' := WithState(db, OnlineId(ids[0]), Raw(Flag(alive)));
      var online' := if alive then online + {ids[0]} else online;
      InitFoldSet(db', online', ids[1..], probe);
      forall x ensures Alive(db', x, probe) == Alive(db, x, probe) {
        AliveAfterOnlineWrite(db, ids[0], Raw(Flag(alive)), x, probe);
      }
      forall x ensures x in ids <==> x == ids[0] || x in ids[1..] {
        if x in ids {
          var i :| 0 <= i < |ids| && ids[i] == x;
          if i > 0 {
            assert ids[1..][i - 1] == x;
          }
        }
      }
    }
  }

  /** The loop writes nothing but online states. */
  lemma {:induction false} InitFoldFrame(db: Db, online: set<string>, ids: seq<string>, probe: Probe)
    ensures InitFold(db, online, ids, probe).0.objects == db.objects
    ensures forall k :: k in db.states && (forall x :: x in ids ==> k != OnlineId(x)) ==>
      k in InitFold(db, online, ids, probe).0.states && InitFold(db, online, ids, probe).0.states[k] == db.states[k]
    decreases |ids|
  {
    if ids != [] {
      var alive := Alive(db, ids[0], probe);
      var db' := WithState(db, OnlineId(ids[0]), Raw(Flag(alive)));
      InitFoldFrame(db', if alive then online + {ids[0]} else online, ids[1..], probe);
    }
  }

  /** Every cached device ends with its online state equal to its aliveness. */
  lemma {:induction false} InitFoldWrites(db: Db, online: set<string>, ids: seq<string>, probe: Probe)
    ensures forall x :: x in ids ==>
      OnlineId(x) in InitFold(db, online, ids, probe).0.states &&
      InitFold(db, online, ids, probe).0.states[OnlineId(x)] == Raw(Flag(Alive(db, x, probe)))
    decreases |ids|
  {
    if ids != [] {
      var alive := Alive(db, ids[0], probe);
      var db' := WithState(db, OnlineId(ids[0]), Raw(Flag(alive)));
      var online' := if alive then online + {ids[0]} else online;
      var r := InitFold(db, online, ids, probe).0;
      InitFoldWrites(db', online', ids[1..], probe);
      InitFoldFrame(db', online', ids[1..], probe);
      forall x | x in ids
        ensures OnlineId(x) in r.states && r.states[OnlineId(x)] == Raw(Flag(Alive(db, x, probe)))
      {
        AliveAfterOnlineWrite(db, ids[0], Raw(Flag(alive)), x, probe);
        if x in ids[1..] {
        } else {
          assert x == ids[0];
          forall y | y in ids[1..] ensures OnlineId(x) != OnlineId(y) {
            if OnlineId(x) == OnlineId(y) {
              OnlineIdInjective(x, y);
            }
          }
        }
      }
    }
  }

  /**
   * `initOnlineStatus`: no device leaves the online set, exactly the alive cached devices
   * join it, every cached device's online state is its aliveness, and `info.connection`
   * is count > 0.
   */
  lemma InitOnlineFacts(db: Db, online: set<string>, ids: seq<string>, probe: Probe)
    ensures online <= InitOnlineSpec(db, online, ids, probe).1
    ensures forall x :: x in InitOnlineSpec(db, online, ids, probe).1 - online ==> x in ids && Alive(db, x, probe)
    ensures forall x :: x in ids && Alive(db, x, probe) ==> x in InitOnlineSpec(db, online, ids, probe).1
    ensures forall x :: x in ids ==>
      && OnlineId(x) in InitOnlineSpec(db, online, ids, probe).0.states
      && InitOnlineSpec(db, online, ids, probe).0.states[OnlineId(x)] == Raw(Flag(Alive(db, x, probe)))
    ensures InitOnlineSpec(db, online, ids, probe).0.states[ConnectionId] ==
      Raw(Flag(|InitOnlineSpec(db, online, ids, probe).1| > 0))
  {
    InitFoldSet(db, online, ids, probe);
    InitFoldWrites(db, online, ids, probe);
    forall x | x in ids ensures OnlineId(x) != ConnectionId {
      IdsDistinct(x, x);
    }
  }

  /** The devices `onlineStatusCheck` probes, in order: cached ids with a truthy hostname. */
  function Probes(db: Db, ids: seq<string>): seq<(string, Value)> {
    if ids == [] then []
    else
      var p := Probes(db, ids[..|ids| - 1]);
      var id := ids[|ids| - 1];
      if ValueTruthy(HostValue(db, id)) then p + [(id, HostValue(db, id))] else p
  }

  /** A device is probed exactly when it is cached and has a truthy hostname, with that hostname. */
  lemma {:induction false} ProbesFacts(db: Db, ids: seq<string>)
    ensures forall p :: p in Probes(db, ids) ==> p.0 in ids && p.1 == HostValue(db, p.0) && ValueTruthy(p.1)
    ensures forall x :: x in ids && ValueTruthy(HostValue(db, x)) ==> (x, HostValue(db, x)) in Probes(db, ids)
    ensures |Probes(db, ids)| <= |ids|
  {
    if ids != [] {
      var init := ids[..|ids| - 1];
      ProbesFacts(db, init);
      assert ids == init + [ids[|ids| - 1]];
      forall x | x in ids ensures x in init || x == ids[|ids| - 1] {
      }
    }
  }

  /** Registering an id: falsy ids are ignored and an id already present is not added again. */
  function Registered(ids: seq<string>, id: string): (r: seq<string>)
    ensures forall x :: x in r <==> x in ids || (x == id && id != "")
    ensures NoDuplicates(ids) ==> NoDuplicates(r)
    ensures |r| <= |ids| + 1
  {
    if id == "" || id in ids then ids else ids + [id]
  }

  lemma RegisterIdempotent(ids: seq<string>, id: string)
    ensures Registered(Registered(ids, id), id) == Registered(ids, id)
  {
  }

  // ---------------------------------------------------------------------------
  // The adapter object
  // ---------------------------------------------------------------------------

  class Refoss {
    const store: ObjectStore
    const env: Env
    var isUnloaded: bool
    /** The keys of `onlineDevices`. */
    var onlineDevices: set<string>
    var cachedDevices: seq<string>
    /** `onlineCheckTimeout` holds a timer handle. */
    var onlineCheckTimeout: bool
    /** Online-check timers armed in the host's scheduler. */
    var pendingChecks: nat
    var server: BaseServer?

    /** Every session works on the adapter's store, and no session is listed twice. */
    ghost predicate Linked()
      reads this, server
    {
      server != null ==>
        && server.store == store
        && server.SessionsDistinct()
        && forall i :: 0 <= i < |server.deviceBase| ==> server.deviceBase[i].store == store
    }

    ghost function Sessions(): set<Base>
      reads this, server
    {
      if server == null then {} else set i | 0 <= i < |server.deviceBase| :: server.deviceBase[i]
    }

    /** At most the one timer the handle names is pending. */
    ghost predicate TimerInvariant()
      reads this
    {
      pendingChecks == if onlineCheckTimeout then 1 else 0
    }

    constructor(store: ObjectStore, env: Env)
      ensures this.store == store && this.env == env
      ensures !isUnloaded && onlineDevices == {} && cachedDevices == [] && server == null
      ensures !onlineCheckTimeout && pendingChecks == 0
    {
      this.store := store;
      this.env := env;
      isUnloaded := false;
      onlineDevices := {};
      cachedDevices := [];
      onlineCheckTimeout := false;
      pendingChecks := 0;
      server := null;
    }

    /**
     * `isOnline(deviceId)`: whether the id is an own key of `onlineDevices`. A session's
     * `isOnline()` asks this for its own id, and `httpState` polls only when it holds.
     */
    predicate IsOnline(deviceId: string)
      reads this
      ensures IsOnline(deviceId) <==> deviceId in onlineDevices
      ensures IsOnline(deviceId) ==> |onlineDevices| > 0
    {
      assert deviceId in onlineDevices ==> onlineDevices != {};
      deviceId in onlineDevices
    }

    /** `registerDeviceId`. */
    method RegisterDeviceId(deviceId: string)
      modifies this`cachedDevices
      ensures cachedDevices == Registered(old(cachedDevices), deviceId)
    {
      if deviceId == "" {
        return;
      }
      if deviceId !in cachedDevices {
        cachedDevices := cachedDevices + [deviceId];
      }
    }

    /** Finds the session with the id and re-runs its `httpState` with the given online flag. */
    method Repoll(deviceId: string, online: bool, fetch: Fetch) returns (repolled: Option<Base>)
      requires server != null && Linked()
      modifies store, Sessions()
      ensures repolled == old(FirstWithId(server.deviceBase, deviceId))
      ensures repolled.None? ==> store.db == old(store.db)
      ensures repolled.Some? ==>
        (repolled.value.State(), store.db) ==
        HttpStateSpec(old(repolled.value.State()), old(store.db), repolled.value.env, online, fetch)
      ensures forall b :: b in Sessions() && Some(b) != repolled ==> b.State() == old(b.State())
    {
      repolled := FirstWithId(server.deviceBase, deviceId);
      if repolled.Some? {
        repolled.value.HttpState(online, fetch);
      }
    }

    /**
     * `deviceStatusUpdate(deviceId, status)` as written: the online state, then the re-poll
     * (which consults `isOnline` before the set is updated), then the set and the
     * connection flag.
     */
    method DeviceStatusUpdate(deviceId: string, status: bool, fetch: Fetch) returns (repolled: Option<Base>)
      requires Linked()
      modifies this`onlineDevices, store, Sessions()
      ensures old(isUnloaded) || deviceId == "" ==>
        onlineDevices == old(onlineDevices) && store.db == old(store.db) && repolled.None?
      ensures !old(isUnloaded) && deviceId != "" ==> onlineDevices == Tracked(old(onlineDevices), deviceId, status)
      ensures repolled == if !old(isUnloaded) && deviceId != "" && PrevOnline(old(store.db), deviceId) != status
                             && status && server != null
                          then old(FirstWithId(server.deviceBase, deviceId)) else None
      ensures !old(isUnloaded) && deviceId != "" && repolled.None? ==>
        store.db == ConnectionWritten(OnlineWritten(old(store.db), deviceId, status), old(onlineDevices), onlineDevices)
      ensures repolled.Some? ==>
        var polled := HttpStateSpec(old(repolled.value.State()), OnlineWritten(old(store.db), deviceId, status),
                                    repolled.value.env, deviceId in old(onlineDevices), fetch);
        repolled.value.State() == polled.0 &&
        store.db == ConnectionWritten(polled.1, old(onlineDevices), onlineDevices)
      ensures forall b :: b in Sessions() && Some(b) != repolled ==> b.State() == old(b.State())
    {
      if isUnloaded || deviceId == "" {
        return None;
      }
      repolled := None;
      ghost var found := if server == null then None else FirstWithId(server.deviceBase, deviceId);
      var changed := WriteOnline(deviceId, status);
      if changed && status && server != null {
        assert FirstWithId(server.deviceBase, deviceId) == found;
        var online := IsOnline(deviceId);
        assert online == (deviceId in old(onlineDevices));
        repolled := Repoll(deviceId, online, fetch);
        assert repolled == found;
      }
      TrackStatus(deviceId, status);
    }

    /**
     * `deviceStatusUpdate` with the online set and the connection flag updated before the
     * re-poll, so that the re-poll of a device coming online runs with it counted online.
     */
    method DeviceStatusUpdateCorrected(deviceId: string, status: bool, fetch: Fetch) returns (repolled: Option<Base>)
      requires Linked()
      modifies this`onlineDevices, store, Sessions()
      ensures old(isUnloaded) || deviceId == "" ==>
        onlineDevices == old(onlineDevices) && store.db == old(store.db) && repolled.None?
      ensures !old(isUnloaded) && deviceId != "" ==> onlineDevices == Tracked(old(onlineDevices), deviceId, status)
      ensures repolled == if !old(isUnloaded) && deviceId != "" && PrevOnline(old(store.db), deviceId) != status
                             && status && server != null
                          then old(FirstWithId(server.deviceBase, deviceId)) else None
      ensures !old(isUnloaded) && deviceId != "" && repolled.None? ==>
        store.db == ConnectionWritten(OnlineWritten(old(store.db), deviceId, status), old(onlineDevices), onlineDevices)
      ensures repolled.Some? ==>
        var polled := HttpStateSpec(old(repolled.value.State()),
                                    ConnectionWritten(OnlineWritten(old(store.db), deviceId, status), old(onlineDevices), onlineDevices),
                                    repolled.value.env, true, fetch);
        repolled.value.State() == polled.0 && store.db == polled.1
      ensures forall b :: b in Sessions() && Some(b) != repolled ==> b.State() == old(b.State())
    {
      if isUnloaded || deviceId == "" {
        return None;
      }
      repolled := None;
      ghost var found := if server == null then None else FirstWithId(server.deviceBase, deviceId);
      var changed := RecordStatus(deviceId, status);
      if changed && status && server != null {
        assert FirstWithId(server.deviceBase, deviceId) == found;
        ghost var db1 := store.db;
        var online := IsOnline(deviceId);
        repolled := Repoll(deviceId, online, fetch);
        assert repolled == found;
        assert repolled.Some? ==>
          (repolled.value.State(), store.db) == HttpStateSpec(old(repolled.value.State()), db1, repolled.value.env, true, fetch);
      }
    }

    /** The online state of one report, written only when it differs from the stored one. */
    method WriteOnline(deviceId: string, status: bool) returns (changed: bool)
      modifies store
      ensures changed == (PrevOnline(old(store.db), deviceId) != status)
      ensures store.db == OnlineWritten(old(store.db), deviceId, status)
    {
      changed := PrevOnline(store.db, deviceId) != status;
      if changed {
        store.SetState(OnlineId(deviceId), Raw(Flag(status)));
      }
    }

    /** The online set and, when the count changed, the connection flag of one report. */
    method TrackStatus(deviceId: string, status: bool)
      modifies this`onlineDevices, store
      ensures onlineDevices == Tracked(old(onlineDevices), deviceId, status)
      ensures IsOnline(deviceId) <==> status
      ensures forall k :: k != deviceId ==> (IsOnline(k) <==> k in old(onlineDevices))
      ensures store.db == ConnectionWritten(old(store.db), old(onlineDevices), onlineDevices)
    {
      var before := onlineDevices;
      onlineDevices := Tracked(onlineDevices, deviceId, status);
      if |before| != |onlineDevices| {
        store.SetState(ConnectionId, Raw(Flag(|onlineDevices| > 0)));
      }
    }

    /** The online state, then the online set and the connection flag, of one report. */
    method RecordStatus(deviceId: string, status: bool) returns (changed: bool)
      modifies this`onlineDevices, store
      ensures changed == (PrevOnline(old(store.db), deviceId) != status)
      ensures onlineDevices == Tracked(old(onlineDevices), deviceId, status)
      ensures IsOnline(deviceId) <==> status
      ensures store.db == ConnectionWritten(OnlineWritten(old(store.db), deviceId, status), old(onlineDevices), onlineDevices)
    {
      changed := WriteOnline(deviceId, status);
      TrackStatus(deviceId, status);
    }

    /** `initOnlineStatus`, with `getAllDeviceIds` yielding the given ids. */
    method InitOnlineStatus(deviceIds: seq<string>, probe: Probe)
      modifies this`cachedDevices, this`onlineDevices, store
      ensures cachedDevices == deviceIds
      ensures (store.db, onlineDevices) == InitOnlineSpec(old(store.db), old(onlineDevices), deviceIds, probe)
    {
      cachedDevices := deviceIds;
      var i := 0;
      while i < |cachedDevices|
        modifies this`onlineDevices, store
        invariant cachedDevices == deviceIds && 0 <= i <= |deviceIds|
        invariant InitFold(old(store.db), old(onlineDevices), deviceIds, probe) ==
                  InitFold(store.db, onlineDevices, deviceIds[i..], probe)
      {
        var deviceId := cachedDevices[i];
        var host := store.StateValue(HostnameId(deviceId));
        var valHostname := if host.Some? then host.value else Undefined;
        var isAlive := false;
        if ValueTruthy(valHostname) {
          isAlive := probe(valHostname);
        }
        store.SetState(OnlineId(deviceId), Raw(Flag(isAlive)));
        if isAlive {
          onlineDevices := onlineDevices + {deviceId};
        }
        assert deviceIds[i..][1..] == deviceIds[i + 1..];
        i := i + 1;
      }
      store.SetState(ConnectionId, Raw(Flag(|onlineDevices| > 0)));
    }

    /**
     * `onlineStatusCheck`: clears a pending timer, lists the probes it starts (their
     * answers arrive later through `DeviceStatusUpdate`), and arms exactly one new timer.
     */
    method OnlineStatusCheck() returns (probed: seq<(string, Value)>)
      requires TimerInvariant()
      modifies this`onlineCheckTimeout, this`pendingChecks
      ensures TimerInvariant() && onlineCheckTimeout && pendingChecks == 1
      ensures probed == Probes(store.db, cachedDevices)
    {
      if onlineCheckTimeout {
        pendingChecks := pendingChecks - 1;
        onlineCheckTimeout := false;
      }
      probed := [];
      var i := 0;
      while i < |cachedDevices|
        invariant 0 <= i <= |cachedDevices|
        invariant probed == Probes(store.db, cachedDevices[..i])
      {
        var deviceId := cachedDevices[i];
        var valHostname := HostValue(store.db, deviceId);
        if ValueTruthy(valHostname) {
          probed := probed + [(deviceId, valHostname)];
        }
        assert cachedDevices[..i + 1][..i] == cachedDevices[..i];
        i := i + 1;
      }
      assert cachedDevices[..i] == cachedDevices;
      pendingChecks := pendingChecks + 1;
      onlineCheckTimeout := true;
    }

    /** The 15-second timer fires: its handle is dropped and the check runs again. */
    method OnlineCheckFires() returns (probed: seq<(string, Value)>)
      requires onlineCheckTimeout && TimerInvariant()
      modifies this`onlineCheckTimeout, this`pendingChecks
      ensures TimerInvariant() && onlineCheckTimeout && pendingChecks == 1
      ensures probed == Probes(store.db, cachedDevices)
    {
      pendingChecks := pendingChecks - 1;
      onlineCheckTimeout := false;
      probed := OnlineStatusCheck();
    }

    /**
     * `onReady`: the online status is initialised, the periodic check is armed, and the
     * discovery server starts with the devices already in the store.
     */
    method OnReady(deviceIds: seq<string>, probe: Probe, devices: seq<Announcement>)
      requires TimerInvariant()
      modifies this`cachedDevices, this`onlineDevices, this`onlineCheckTimeout, this`pendingChecks, this`server, store
      ensures cachedDevices == deviceIds
      ensures onlineDevices == InitOnlineSpec(old(store.db), old(onlineDevices), deviceIds, probe).1
      ensures TimerInvariant() && onlineCheckTimeout && pendingChecks == 1
      ensures server != null && fresh(server) && Linked()
      ensures |server.deviceBase| == |devices|
      ensures forall i :: 0 <= i < |devices| ==>
        server.deviceBase[i].info == devices[i] && server.deviceBase[i].State() == StartFields(devices[i], env)
      ensures store.db == RegisterAll(InitOnlineSpec(old(store.db), old(onlineDevices), deviceIds, probe).0, env, devices)
    {
      InitOnlineStatus(deviceIds, probe);
      var _ := OnlineStatusCheck();
      server := new BaseServer(store, env, devices);
    }

    /**
     * `onUnload`: the adapter is marked unloaded, the pending check is cleared, and every
     * session is destroyed; the offline reports the sessions send are then ignored, so the
     * online set and the store are left as they were.
     */
    method OnUnload() returns (reported: seq<Option<string>>)
      requires Linked() && TimerInvariant()
      modifies this`isUnloaded, this`onlineCheckTimeout, this`pendingChecks, this`onlineDevices, store, Sessions()
      ensures isUnloaded && !onlineCheckTimeout && pendingChecks == 0
      ensures onlineDevices == old(onlineDevices) && store.db == old(store.db)
      ensures forall b :: b in Sessions() ==>
        b.State() == Destroyed(b.info)
      ensures server == null ==> reported == []
      ensures server != null ==>
        && |reported| == |server.deviceBase|
        && forall i :: 0 <= i < |reported| ==> reported[i] == old(server.deviceBase[i].deviceId)
    {
      isUnloaded := true;
      if onlineCheckTimeout {
        pendingChecks := pendingChecks - 1;
        onlineCheckTimeout := false;
      }
      reported := [];
      if server != null {
        reported := server.Destroy();
        var i := 0;
        while i < |reported|
          modifies this`onlineDevices, store, Sessions()
          invariant isUnloaded && Linked()
          invariant onlineDevices == old(onlineDevices) && store.db == old(store.db)
          invariant forall b :: b in Sessions() ==>
            b.State() == Destroyed(b.info)
        {
          var _ := DeviceStatusUpdate(reported[i].GetOr(""), false, _ => None);
          i := i + 1;
        }
      }
    }
  }
}
