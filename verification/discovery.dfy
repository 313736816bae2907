/**
 * The discovery listener (`BaseServer` in lib/protocol/udp4.js): every announcement
 * datagram goes through a validation pipeline, and a valid one from a supported device
 * class with an unseen UUID starts exactly one new device session.
 */
module Discovery {
  import opened Wrappers
  import opened Text
  import opened Json
  import opened Catalog
  import opened Datapoints
  import opened Store
  import opened DeviceSession

  /** What `JSON.parse` yields: an object with the announcement fields, an array, or a scalar. */
  datatype JsonDoc = ParsedObject(fields: Announcement) | ParsedArray | ParsedScalar(value: Json)

  /** `JSON.parse`, which is not part of this model: `None` where it throws. */
  type Parser = string -> Option<JsonDoc>

  /** Why a datagram is dropped before the registration step. */
  datatype Reason = Empty | NotBraced | Unparsable | NotObject | MissingField | BadUuid

  /** What the message handler does with one datagram. */
  datatype Outcome = Dropped(reason: Reason) | Unsupported | Duplicate | Added(info: Announcement)

  // ---------------------------------------------------------------------------
  // Validators
  // ---------------------------------------------------------------------------

  /** The characters `/[^a-zA-Z0-9_-]/` leaves alone. */
  predicate Allowed(c: char) {
    ('a' <= c <= 'z') || ('A' <= c <= 'Z') || ('0' <= c <= '9') || c == '_' || c == '-'
  }

  /** `sanitizeDevName`: every character outside `[a-zA-Z0-9_-]` becomes `_`. */
  function Sanitize(s: string): string {
    if s == [] then [] else [if Allowed(s[0]) then s[0] else '_'] + Sanitize(s[1..])
  }

  /**
   * Sanitising keeps the length, yields allowed characters only, keeps every allowed
   * character where it is, and so is idempotent.
   */
  lemma {:induction false} SanitizeFacts(s: string)
    ensures |Sanitize(s)| == |s|
    ensures forall i :: 0 <= i < |s| ==> Allowed(Sanitize(s)[i])
    ensures forall i :: 0 <= i < |s| ==> Allowed(s[i]) ==> Sanitize(s)[i] == s[i]
    ensures forall i :: 0 <= i < |s| ==> !Allowed(s[i]) ==> Sanitize(s)[i] == '_'
  {
    if s != [] {
      SanitizeFacts(s[1..]);
      var r := Sanitize(s);
      assert r == [if Allowed(s[0]) then s[0] else '_'] + Sanitize(s[1..]);
      forall i | 1 <= i < |s| ensures r[i] == Sanitize(s[1..])[i - 1] && s[i] == s[1..][i - 1] {
      }
    }
  }

  /** A name made of allowed characters is its own sanitised form. */
  lemma SanitizeFixed(s: string)
    requires forall i :: 0 <= i < |s| ==> Allowed(s[i])
    ensures Sanitize(s) == s
  {
    SanitizeFacts(s);
  }

  lemma SanitizeIdempotent(s: string)
    ensures Sanitize(Sanitize(s)) == Sanitize(s)
  {
    SanitizeFacts(s);
    SanitizeFixed(Sanitize(s));
  }

  /** A hexadecimal digit in either case (`/[0-9a-f]/i`). */
  predicate IsHex(c: char) {
    ('0' <= c <= '9') || ('a' <= c <= 'f') || ('A' <= c <= 'F')
  }

  /** `s` is exactly `n` hexadecimal digits, matched one at a time as `[0-9a-f]{n}` does. */
  predicate HexRun(s: string, n: nat) {
    if n == 0 then s == []
    else s != [] && IsHex(s[0]) && HexRun(s[1..], n - 1)
  }

  /** `isValidUuid`: `/^[0-9a-f]{32}$/i`. */
  predicate IsValidUuid(s: string) {
    HexRun(s, 32)
  }

  lemma {:induction false} HexRunIff(s: string, n: nat)
    ensures HexRun(s, n) <==> |s| == n && forall i :: 0 <= i < |s| ==> IsHex(s[i])
  {
    if n > 0 && s != [] {
      HexRunIff(s[1..], n - 1);
      assert forall i :: 1 <= i < |s| ==> s[i] == s[1..][i - 1];
      if |s| == n && forall i :: 0 <= i < |s| ==> IsHex(s[i]) {
        assert forall i :: 0 <= i < |s[1..]| ==> IsHex(s[1..][i]) by {
          forall i | 0 <= i < |s[1..]| ensures IsHex(s[1..][i]) {
            assert s[1..][i] == s[i + 1];
          }
        }
      }
    }
  }

  /** A UUID is valid exactly when it has 32 characters, each a hex digit in either case. */
  lemma UuidIff(s: string)
    ensures IsValidUuid(s) <==> |s| == 32 && forall i :: 0 <= i < |s| ==> IsHex(s[i])
  {
    HexRunIff(s, 32);
  }

  /** `deviceExists(devName)`. */
  function DeviceExists(devName: string): (r: bool)
    ensures r <==> devName == "em06" || devName == "em06p" || devName == "em16p"
  {
    GetDeviceTypeByClass(devName)
  }

  lemma SupportedNamesAllowed(n: string)
    requires DeviceExists(n)
    ensures forall i :: 0 <= i < |n| ==> Allowed(n[i]) && n[i] != '_'
  {
  }

  /**
   * A string class name whose sanitised form is supported already equals it: supported
   * names hold no `_` and sanitising keeps the length, so nothing was replaced. The
   * session built from the raw announcement therefore resolves the same model.
   */
  lemma RawNameIsSanitized(s: string, defaults: Catalog)
    requires DeviceExists(Sanitize(s))
    ensures s == Sanitize(s)
    ensures GetDeviceByClass(Some(JString(s)), defaults).Some?
  {
    SanitizeFacts(s);
    SupportedNamesAllowed(Sanitize(s));
    assert forall i :: 0 <= i < |s| ==> Allowed(s[i]);
    SanitizeFixed(s);
  }

  // ---------------------------------------------------------------------------
  // The message handler
  // ---------------------------------------------------------------------------

  /** The checks of the handler that need no registrar state, in the source's order. */
  function Validate(text: string, parse: Parser): Result
  {
    if text == "" || Trim(text) == "" then Invalid(Empty)
    else if !IsPrefix("{", Trim(text)) || !IsSuffix("}", Trim(text)) then Invalid(NotBraced)
    else match parse(text)
      case None => Invalid(Unparsable)
      case Some(doc) =>
        if !doc.ParsedObject? then Invalid(NotObject)
        else if !Truthy(doc.fields.devName) || !Truthy(doc.fields.uuid) then Invalid(MissingField)
        else if !IsValidUuid(ToText(doc.fields.uuid.value)) then Invalid(BadUuid)
        else Valid(doc.fields, Sanitize(ToText(doc.fields.devName.value)))
  }

  /** A validated announcement with its sanitised class name, or why it was dropped. */
  datatype Result = Invalid(reason: Reason) | Valid(info: Announcement, devName: string)

  predicate IsSuffix(p: string, s: string) {
    |p| <= |s| && s[|s| - |p|..] == p
  }

  /** The handler's decision on a datagram, given the UUIDs already registered. */
  function Classify(text: string, parse: Parser, known: seq<Option<Json>>): Outcome {
    match Validate(text, parse)
    case Invalid(reason) => Dropped(reason)
    case Valid(info, devName) =>
      if DeviceExists(devName) && !Includes(known, info.uuid) then Added(info)
      else if !DeviceExists(devName) then Unsupported
      else Duplicate
  }

  /** The UUID list after a decision. */
  function Admit(known: seq<Option<Json>>, outcome: Outcome): seq<Option<Json>> {
    if outcome.Added? then known + [outcome.info.uuid] else known
  }

  ghost predicate NoDuplicates<T>(s: seq<T>) {
    forall i, j :: 0 <= i < j < |s| ==> s[i] != s[j]
  }

  /** No two registered UUIDs are identical (`===`). */
  ghost predicate UuidsDistinct(known: seq<Option<Json>>) {
    forall i, j :: 0 <= i < j < |known| ==> !StrictEquals(known[i], known[j])
  }

  /** A blank datagram (empty or whitespace only) is dropped as empty. */
  lemma BlankDropped(text: string, parse: Parser, known: seq<Option<Json>>)
    requires AllSpace(text)
    ensures Classify(text, parse, known) == Dropped(Empty)
  {
    TrimEmpty(text);
  }

  /**
   * A datagram is added exactly when it is a braced JSON object with a truthy `devName`
   * and a valid `uuid`, its sanitised class is supported, and its UUID is unseen; every
   * added announcement has a valid UUID.
   */
  lemma AddedIff(text: string, parse: Parser, known: seq<Option<Json>>)
    ensures Classify(text, parse, known).Added? <==>
      && Trim(text) != "" && IsPrefix("{", Trim(text)) && IsSuffix("}", Trim(text))
      && parse(text).Some? && parse(text).value.ParsedObject?
      && (var a := parse(text).value.fields;
          && Truthy(a.devName) && Truthy(a.uuid)
          && IsValidUuid(ToText(a.uuid.value))
          && DeviceExists(Sanitize(ToText(a.devName.value)))
          && !Includes(known, a.uuid))
    ensures Classify(text, parse, known).Added? ==>
      Classify(text, parse, known).info == parse(text).value.fields
  {
  }

  /** A registered UUID list stays free of duplicates. */
  lemma AdmitKeepsDistinct(text: string, parse: Parser, known: seq<Option<Json>>)
    requires UuidsDistinct(known)
    ensures UuidsDistinct(Admit(known, Classify(text, parse, known)))
  {
    var outcome := Classify(text, parse, known);
    if outcome.Added? {
      var s := known + [outcome.info.uuid];
      forall i, j | 0 <= i < j < |s| ensures !StrictEquals(s[i], s[j]) {
        if j == |known| {
          assert s[i] == known[i];
        }
      }
    }
  }

  /**
   * Announcing the same datagram again is a duplicate when its UUID is a string (or any
   * scalar): re-announcement is idempotent.
   */
  lemma ReannounceIsDuplicate(text: string, parse: Parser, known: seq<Option<Json>>)
    requires Classify(text, parse, known).Added?
    requires !IsComposite(Classify(text, parse, known).info.uuid.value)
    ensures Classify(text, parse, Admit(known, Classify(text, parse, known))) == Duplicate
  {
    var known' := Admit(known, Classify(text, parse, known));
    assert StrictEquals(known'[|known|], Classify(text, parse, known).info.uuid);
  }

  /**
   * A UUID that is an array (such as `["0123456789abcdef0123456789abcdef"]`, which
   * `isValidUuid` reads as its text) is identical to no registered entry, since `includes`
   * compares arrays by identity: every re-announcement is added again, with a new entry.
   */
  lemma ReannounceCompositeAddedAgain(text: string, parse: Parser, known: seq<Option<Json>>)
    requires Classify(text, parse, known).Added?
    requires IsComposite(Classify(text, parse, known).info.uuid.value)
    ensures var known' := Admit(known, Classify(text, parse, known));
      && Classify(text, parse, known') == Classify(text, parse, known)
      && |Admit(known', Classify(text, parse, known'))| == |known| + 2
  {
  }

  /**
   * An added announcement whose class name is a string starts a session that resolves a
   * model catalog.
   */
  lemma AddedResolvesModel(text: string, parse: Parser, known: seq<Option<Json>>, defaults: Catalog)
    requires Classify(text, parse, known).Added?
    requires Classify(text, parse, known).info.devName.value.JString?
    ensures GetDeviceByClass(Classify(text, parse, known).info.devName, defaults).Some?
  {
    var info := Classify(text, parse, known).info;
    RawNameIsSanitized(info.devName.value.s, defaults);
  }

  // ---------------------------------------------------------------------------
  // The registrar object
  // ---------------------------------------------------------------------------

  /** The objects the sessions of the known devices register, one device after another. */
  function RegisterAll(db: Db, env: Env, devices: seq<Announcement>): Db
    decreases |devices|
  {
    if devices == [] then db else RegisterAll(StartWrites(db, env, devices[0]), env, devices[1..])
  }

  /** The ids of states that read their session, over the sessions of `devices`. */
  function AllSessionIds(env: Env, devices: seq<Announcement>): set<string>
    decreases |devices|
  {
    if devices == [] then {} else StartSessionIds(devices[0], env) + AllSessionIds(env, devices[1..])
  }

  /**
   * Starting the known devices' sessions keeps every object, writes a state value only
   * for a state that reads its session, and creates an object for every catalog state of
   * every device with an id.
   */
  lemma {:induction false} RegisterAllFacts(db: Db, env: Env, devices: seq<Announcement>)
    ensures db.objects.Keys <= RegisterAll(db, env, devices).objects.Keys
    ensures forall k :: k !in AllSessionIds(env, devices) ==> SameState(db, RegisterAll(db, env, devices), k)
    ensures AllSessionIds(env, devices) == {} ==> RegisterAll(db, env, devices).states == db.states
    ensures forall d, k :: d in devices && DeviceIdOf(d, env.forbidden).Some? && k in KeySet(CatalogFor(d, env)) ==>
      DeviceIdOf(d, env.forbidden).value + "." + k in RegisterAll(db, env, devices).objects
    decreases |devices|
  {
    var r := RegisterAll(db, env, devices);
    if devices != [] {
      var db1 := StartWrites(db, env, devices[0]);
      StartWritesFacts(db, env, devices[0]);
      RegisterAllFacts(db1, env, devices[1..]);
      forall k | k !in AllSessionIds(env, devices) ensures SameState(db, r, k) {
        assert SameState(db, db1, k);
        assert SameState(db1, r, k);
      }
      forall d, k | d in devices && DeviceIdOf(d, env.forbidden).Some? && k in KeySet(CatalogFor(d, env))
        ensures DeviceIdOf(d, env.forbidden).value + "." + k in r.objects
      {
        if d != devices[0] {
          assert d in devices[1..];
        }
      }
    }
    if AllSessionIds(env, devices) == {} {
      SameStates(db, r);
    }
  }

  class BaseServer {
    const store: ObjectStore
    const env: Env
    var deviceUuidList: seq<Option<Json>>
    var deviceBase: seq<Base>

    /** The sessions are distinct objects. */
    ghost predicate SessionsDistinct()
      reads this
    {
      forall i, j :: 0 <= i < j < |deviceBase| ==> deviceBase[i] != deviceBase[j]
    }

    /** The constructor: one session per known device, in order, before listening starts. */
    constructor(store: ObjectStore, env: Env, devices: seq<Announcement>)
      modifies store
      ensures this.store == store && this.env == env
      ensures |deviceUuidList| == |devices| && |deviceBase| == |devices|
      ensures forall i :: 0 <= i < |devices| ==> deviceUuidList[i] == devices[i].uuid
      ensures forall i :: 0 <= i < |devices| ==>
        && fresh(deviceBase[i]) && deviceBase[i].info == devices[i] && deviceBase[i].store == store
        && deviceBase[i].State() == StartFields(devices[i], env)
      ensures SessionsDistinct()
      ensures store.db == RegisterAll(old(store.db), env, devices)
    {
      this.store := store;
      this.env := env;
      deviceUuidList := [];
      deviceBase := [];
      new;
      var i := 0;
      while i < |devices|
        modifies this`deviceUuidList, this`deviceBase, store
        invariant 0 <= i <= |devices|
        invariant |deviceUuidList| == i && |deviceBase| == i
        invariant forall j :: 0 <= j < i ==> deviceUuidList[j] == devices[j].uuid
        invariant forall j :: 0 <= j < i ==>
          && fresh(deviceBase[j]) && deviceBase[j].info == devices[j] && deviceBase[j].store == store
          && deviceBase[j].State() == StartFields(devices[j], env)
        invariant SessionsDistinct()
        invariant RegisterAll(old(store.db), env, devices) == RegisterAll(store.db, env, devices[i..])
      {
        ghost var before := deviceBase;
        AddSession(devices[i]);
        assert forall j :: 0 <= j < i ==> deviceBase[j] == before[j];
        assert devices[i..][1..] == devices[i + 1..];
        i := i + 1;
      }
      assert devices[i..] == [];
    }

    /** Records a device's uuid and starts its session, as both the constructor and `message` do. */
    method AddSession(info: Announcement)
      requires SessionsDistinct()
      modifies this`deviceUuidList, this`deviceBase, store
      ensures deviceUuidList == old(deviceUuidList) + [info.uuid]
      ensures |deviceBase| == |old(deviceBase)| + 1 && deviceBase[..|old(deviceBase)|] == old(deviceBase)
      ensures fresh(deviceBase[|old(deviceBase)|])
      ensures deviceBase[|old(deviceBase)|].info == info && deviceBase[|old(deviceBase)|].store == store
      ensures deviceBase[|old(deviceBase)|].State() == StartFields(info, env)
      ensures SessionsDistinct()
      ensures store.db == StartWrites(old(store.db), env, info)
    {
      deviceUuidList := deviceUuidList + [info.uuid];
      var bs := new Base(store, env, info);
      deviceBase := deviceBase + [bs];
    }

    /** The `message` handler for one datagram's text. */
    method OnMessage(text: string, parse: Parser) returns (outcome: Outcome)
      requires SessionsDistinct()
      modifies this`deviceUuidList, this`deviceBase, store
      ensures outcome == Classify(text, parse, old(deviceUuidList))
      ensures deviceUuidList == Admit(old(deviceUuidList), outcome)
      ensures SessionsDistinct()
      ensures outcome.Added? ==>
        && |deviceBase| == |old(deviceBase)| + 1
        && deviceBase[..|old(deviceBase)|] == old(deviceBase)
        && fresh(deviceBase[|old(deviceBase)|])
        && deviceBase[|old(deviceBase)|].info == outcome.info
        && deviceBase[|old(deviceBase)|].store == store
        && deviceBase[|old(deviceBase)|].State() == StartFields(outcome.info, env)
        && store.db == StartWrites(old(store.db), env, outcome.info)
      ensures !outcome.Added? ==> deviceBase == old(deviceBase) && store.db == old(store.db)
    {
      var checked := Validate(text, parse);
      if checked.Invalid? {
        return Dropped(checked.reason);
      }
      var info, devName := checked.info, checked.devName;
      if DeviceExists(devName) && !Includes(deviceUuidList, info.uuid) {
        AddSession(info);
        outcome := Added(info);
      } else if !DeviceExists(devName) {
        outcome := Unsupported;
      } else {
        outcome := Duplicate;
      }
    }

    /** `destroy`: every session is destroyed; the ids they report are returned in order. */
    method Destroy() returns (reported: seq<Option<string>>)
      requires SessionsDistinct()
      modifies set i | 0 <= i < |deviceBase| :: deviceBase[i]
      ensures |reported| == |deviceBase|
      ensures forall i :: 0 <= i < |deviceBase| ==> reported[i] == old(deviceBase[i].deviceId)
      ensures forall i :: 0 <= i < |deviceBase| ==>
        deviceBase[i].State() == Destroyed(deviceBase[i].info)
    {
      reported := [];
      var i := 0;
      while i < |deviceBase|
        invariant 0 <= i <= |deviceBase|
        invariant |reported| == i
        invariant forall j :: 0 <= j < i ==> reported[j] == old(deviceBase[j].deviceId)
        invariant forall j :: 0 <= j < i ==>
          deviceBase[j].State() == Destroyed(deviceBase[j].info)
        invariant forall j :: i <= j < |deviceBase| ==> deviceBase[j].deviceId == old(deviceBase[j].deviceId)
      {
        var id := deviceBase[i].Destroy();
        reported := reported + [id];
        i := i + 1;
      }
    }
  }
}
