/**
 * Datapoint catalogs: the per-model tables of device modules under lib/devices are JavaScript objects
 * keyed by state id. A JavaScript object with string keys is modelled as a sequence of
 * (key, value) pairs in insertion order.
 */
module Catalog {
  import opened Wrappers
  import opened Text

  /** One measurable quantity of a channel (an element of a model's `keysArr`). */
  datatype Quantity = Quantity(apiKey: string, emKey: string, name: string, unit: Option<string>)

  /**
   * The `init_funct` of a datapoint: which value getter of the session it calls. The model
   * tables read the session's snapshot; a shared default may read the session itself (its
   * device information, say), which `SessionGetter` names by a tag.
   */
  datatype Getter =
    | Em06Getter(channel: int, apiKey: string)
    | ElectricityGetter(channel: int, apiKey: string)
    | SessionGetter(tag: string)
    | NoGetter

  /** An HTTP request payload: `{<field>: [{channel}]}`, the merge query, or another one. */
  datatype Payload = ChannelQuery(field: string, channel: int) | MergeQuery | OtherPayload(tag: string)

  /** The `http` part of a datapoint definition. */
  datatype HttpDef = HttpDef(namespace: string, payload: Payload, ack: string, getter: Getter)

  /** The `common` part of a state object. */
  datatype Common = Common(name: string, valueType: string, role: string,
                           read: bool, write: bool, def: int, unit: string)

  datatype StateDef = StateDef(http: Option<HttpDef>, common: Common)

  /** A datapoint whose `init_funct` reads the session rather than its snapshot. */
  predicate ReadsSession(sd: StateDef) {
    sd.http.Some? && sd.http.value.getter.SessionGetter?
  }

  /** A JavaScript object with string keys, in insertion order. */
  type Dict<V> = seq<(string, V)>

  type Catalog = Dict<StateDef>

  const ElectricityNamespace := "Appliance.Control.ElectricityX"
  const AllChannels := 0xffff

  function KeySet<V>(d: Dict<V>): set<string> {
    set i | 0 <= i < |d| :: d[i].0
  }

  ghost predicate DistinctKeys<V>(d: Dict<V>) {
    forall i, j :: 0 <= i < j < |d| ==> d[i].0 != d[j].0
  }

  /** `d[k]`. */
  function Lookup<V>(d: Dict<V>, k: string): Option<V> {
    if d == [] then None
    else if d[0].0 == k then Some(d[0].1)
    else Lookup(d[1..], k)
  }

  /** `d[k] = v`: an existing key keeps its position, a new key goes last. */
  function Assign<V>(d: Dict<V>, k: string, v: V): Dict<V> {
    if d == [] then [(k, v)]
    else if d[0].0 == k then [(k, v)] + d[1..]
    else [d[0]] + Assign(d[1..], k, v)
  }

  /** `{ ...a, ...b }`. */
  function Spread<V>(a: Dict<V>, b: Dict<V>): Dict<V>
    decreases |b|
  {
    if b == [] then a else Spread(Assign(a, b[0].0, b[0].1), b[1..])
  }

  lemma KeySetCons<V>(d: Dict<V>)
    requires d != []
    ensures KeySet(d) == {d[0].0} + KeySet(d[1..])
  {
    forall x | x in KeySet(d) ensures x in {d[0].0} + KeySet(d[1..]) {
      var i :| 0 <= i < |d| && d[i].0 == x;
      if i > 0 { assert d[1..][i - 1].0 == x; }
    }
    forall x | x in KeySet(d[1..]) ensures x in KeySet(d) {
      var i :| 0 <= i < |d[1..]| && d[1..][i].0 == x;
      assert d[i + 1].0 == x;
    }
  }

  lemma DistinctTail<V>(d: Dict<V>)
    requires d != [] && DistinctKeys(d)
    ensures DistinctKeys(d[1..]) && d[0].0 !in KeySet(d[1..])
  {
    var t := d[1..];
    forall i, j | 0 <= i < j < |t| ensures t[i].0 != t[j].0 {
      assert t[i] == d[i + 1] && t[j] == d[j + 1];
    }
    forall x | x in KeySet(t) ensures x != d[0].0 {
      var i :| 0 <= i < |t| && t[i].0 == x;
      assert d[i + 1].0 == x;
    }
  }

  lemma DistinctCons<V>(d: Dict<V>)
    requires d != [] && DistinctKeys(d[1..]) && d[0].0 !in KeySet(d[1..])
    ensures DistinctKeys(d)
  {
    var t := d[1..];
    forall i, j | 0 <= i < j < |d| ensures d[i].0 != d[j].0 {
      assert d[j] == t[j - 1];
      if i == 0 {
        assert t[j - 1].0 in KeySet(t);
      } else {
        assert d[i] == t[i - 1];
      }
    }
  }

  lemma {:induction false} LookupMissing<V>(d: Dict<V>, k: string)
    ensures Lookup(d, k).None? <==> k !in KeySet(d)
  {
    if d != [] {
      LookupMissing(d[1..], k);
      KeySetCons(d);
    }
  }

  /** A key that is found sits at some position of the object, with the value found. */
  lemma {:induction false} LookupFound<V>(d: Dict<V>, k: string) returns (i: nat)
    requires Lookup(d, k).Some?
    ensures i < |d| && d[i] == (k, Lookup(d, k).value)
  {
    if d[0].0 == k {
      i := 0;
    } else {
      var j := LookupFound(d[1..], k);
      i := j + 1;
    }
  }

  lemma {:induction false} LookupAssign<V>(d: Dict<V>, k: string, v: V, q: string)
    ensures Lookup(Assign(d, k, v), q) == if q == k then Some(v) else Lookup(d, q)
  {
    if d != [] && d[0].0 != k {
      LookupAssign(d[1..], k, v, q);
      assert Assign(d, k, v)[1..] == Assign(d[1..], k, v);
    } else if d != [] {
      assert Assign(d, k, v)[1..] == d[1..];
    }
  }

  /** Assigning keeps the keys already present in their places. */
  lemma {:induction false} AssignPrefix<V>(d: Dict<V>, k: string, v: V)
    ensures |Assign(d, k, v)| >= |d|
    ensures forall i :: 0 <= i < |d| ==> Assign(d, k, v)[i].0 == d[i].0
  {
    if d != [] && d[0].0 != k {
      AssignPrefix(d[1..], k, v);
      var a, t := Assign(d, k, v), Assign(d[1..], k, v);
      assert a == [d[0]] + t;
      forall i | 1 <= i < |d| ensures a[i].0 == d[i].0 {
        assert a[i] == t[i - 1] && d[i] == d[1..][i - 1];
      }
    } else if d != [] {
      assert forall i :: 1 <= i < |d| ==> Assign(d, k, v)[i] == d[i];
    }
  }

  /** Assigning adds its key to the key set and no other. */
  lemma {:induction false} AssignKeySet<V>(d: Dict<V>, k: string, v: V)
    ensures KeySet(Assign(d, k, v)) == KeySet(d) + {k}
  {
    var a := Assign(d, k, v);
    if d != [] && d[0].0 != k {
      AssignKeySet(d[1..], k, v);
      assert a[1..] == Assign(d[1..], k, v);
      KeySetCons(a);
      KeySetCons(d);
    } else if d != [] {
      assert a[1..] == d[1..];
      KeySetCons(a);
      KeySetCons(d);
    } else {
      assert a[1..] == [];
      KeySetCons(a);
    }
  }

  /** Assigning keeps the keys distinct. */
  lemma {:induction false} AssignDistinct<V>(d: Dict<V>, k: string, v: V)
    requires DistinctKeys(d)
    ensures DistinctKeys(Assign(d, k, v))
  {
    var a := Assign(d, k, v);
    if d != [] {
      DistinctTail(d);
      if d[0].0 != k {
        AssignDistinct(d[1..], k, v);
        AssignKeySet(d[1..], k, v);
        assert a[1..] == Assign(d[1..], k, v);
      } else {
        assert a[1..] == d[1..];
      }
      DistinctCons(a);
    }
  }

  /**
   * `{ ...a, ...b }` holds exactly the keys of both; a key of `b` takes `b`'s value,
   * every other key keeps `a`'s; the keys of `a` stay first and in their order.
   */
  lemma {:induction false} SpreadSemantics<V>(a: Dict<V>, b: Dict<V>, k: string)
    requires DistinctKeys(b)
    ensures Lookup(Spread(a, b), k) == if Lookup(b, k).Some? then Lookup(b, k) else Lookup(a, k)
    ensures KeySet(Spread(a, b)) == KeySet(a) + KeySet(b)
    ensures |Spread(a, b)| >= |a|
    ensures forall i :: 0 <= i < |a| ==> Spread(a, b)[i].0 == a[i].0
    ensures DistinctKeys(a) ==> DistinctKeys(Spread(a, b))
    decreases |b|
  {
    if b != [] {
      var a' := Assign(a, b[0].0, b[0].1);
      var b' := b[1..];
      DistinctTail(b);
      SpreadSemantics(a', b', k);
      LookupAssign(a, b[0].0, b[0].1, k);
      AssignPrefix(a, b[0].0, b[0].1);
      AssignKeySet(a, b[0].0, b[0].1);
      if DistinctKeys(a) {
        AssignDistinct(a, b[0].0, b[0].1);
      }
      KeySetCons(b);
      if k == b[0].0 {
        LookupMissing(b', k);
      }
    }
  }

  /** In a dictionary with distinct keys, every entry is found under its own key. */
  lemma {:induction false} LookupDistinct<V>(d: Dict<V>, n: nat)
    requires DistinctKeys(d) && n < |d|
    ensures Lookup(d, d[n].0) == Some(d[n].1)
  {
    if n > 0 {
      DistinctTail(d);
      LookupDistinct(d[1..], n - 1);
      assert d[1..][n - 1] == d[n];
    }
  }

  /** A dictionary whose keys are distinct has as many keys as entries. */
  lemma {:induction false} DistinctKeyCount<V>(d: Dict<V>)
    requires DistinctKeys(d)
    ensures |KeySet(d)| == |d|
  {
    if d != [] {
      DistinctTail(d);
      DistinctKeyCount(d[1..]);
      KeySetCons(d);
    }
  }

  /** The state id `"{channel}.{emKey}"` of a channel quantity. */
  function CatalogKey(channelName: string, emKey: string): string {
    channelName + "." + emKey
  }

  /** `item.unit || ''`. */
  function UnitOf(q: Quantity): string {
    match q.unit
    case Some(u) => u
    case None => ""
  }

  /** Which getter a model's datapoints use: the em06 sign split or the plain one. */
  datatype GetterKind = SignSplit | Plain

  function GetterFor(kind: GetterKind, channel: int, apiKey: string): Getter {
    match kind
    case SignSplit => Em06Getter(channel, apiKey)
    case Plain => ElectricityGetter(channel, apiKey)
  }

  /** The datapoint definition every catalog entry of the three models shares, but for its getter. */
  function StateOf(q: Quantity, getter: Getter): StateDef {
    StateDef(Some(HttpDef(ElectricityNamespace, ChannelQuery("electricity", AllChannels), "electricity", getter)),
             Common(q.name, "number", "value." + q.apiKey, true, false, 0, UnitOf(q)))
  }

  lemma DivBound(n: int, a: nat, b: nat)
    requires 0 <= n < a * b
    ensures b > 0 && 0 <= n / b < a && 0 <= n % b < b
  {
    assert b != 0 by {
      assert a * 0 == 0;
    }
    var q := n / b;
    assert q * b <= n;
    assert (a - q) * b > 0;
    PositiveFactor(a - q, b);
  }

  lemma PositiveFactor(x: int, y: int)
    requires y > 0 && x * y > 0
    ensures x > 0
  {
  }

  lemma NonNegativeProduct(x: nat, y: nat)
    ensures x * y >= 0
  {
  }

  /** Euclidean division undoes `i * k + j` for `0 <= j < k`. */
  lemma DivModOfSum(i: int, j: int, k: int)
    requires 0 <= j < k
    ensures (i * k + j) / k == i && (i * k + j) % k == j
  {
    var n := i * k + j;
    var q, r := n / k, n % k;
    assert q * k + r == n;
    assert (q - i) * k == j - r;
    SmallMultiple(q - i, k);
  }

  lemma SmallMultiple(x: int, k: int)
    requires k > 0 && -k < x * k < k
    ensures x == 0
  {
  }

  /**
   * A model's channel catalog: for every channel label, in order, one entry per quantity,
   * in order (the nested `forEach` of the device modules).
   */
  function ChannelCatalog(channels: seq<(string, int)>, keys: seq<Quantity>, kind: GetterKind): Catalog {
    seq(|channels| * |keys|, n requires 0 <= n < |channels| * |keys| =>
      DivBound(n, |channels|, |keys|);
      var ch := channels[n / |keys|];
      var q := keys[n % |keys|];
      (CatalogKey(ch.0, q.emKey), StateOf(q, GetterFor(kind, ch.1, q.apiKey))))
  }

  /** The entry for channel `i` and quantity `j` sits at `i * |keys| + j`. */
  lemma ChannelCatalogAt(channels: seq<(string, int)>, keys: seq<Quantity>, kind: GetterKind, i: nat, j: nat)
    requires i < |channels| && j < |keys|
    ensures i * |keys| + j < |ChannelCatalog(channels, keys, kind)|
    ensures ChannelCatalog(channels, keys, kind)[i * |keys| + j]
            == (CatalogKey(channels[i].0, keys[j].emKey), StateOf(keys[j], GetterFor(kind, channels[i].1, keys[j].apiKey)))
  {
    var k := |keys|;
    var n := i * k + j;
    assert n < |channels| * k by {
      assert |channels| * k - n == (|channels| - i - 1) * k + (k - j);
      NonNegativeProduct(|channels| - i - 1, k);
    }
    DivModOfSum(i, j, k);
    assert n / k == i && n % k == j;
  }

  ghost predicate LabelsDistinct(channels: seq<(string, int)>) {
    forall i, j :: 0 <= i < j < |channels| ==> channels[i].0 != channels[j].0
  }

  ghost predicate LabelsDotFree(channels: seq<(string, int)>) {
    forall i :: 0 <= i < |channels| ==> NoDot(channels[i].0)
  }

  ghost predicate EmKeysDistinct(keys: seq<Quantity>) {
    forall i, j :: 0 <= i < j < |keys| ==> keys[i].emKey != keys[j].emKey
  }

  lemma SameKeySameEntry(channels: seq<(string, int)>, keys: seq<Quantity>, kind: GetterKind, n: nat, m: nat)
    requires LabelsDistinct(channels) && LabelsDotFree(channels) && EmKeysDistinct(keys)
    requires n < |ChannelCatalog(channels, keys, kind)| && m < |ChannelCatalog(channels, keys, kind)|
    ensures ChannelCatalog(channels, keys, kind)[n].0 == ChannelCatalog(channels, keys, kind)[m].0 ==> n == m
  {
    var c, k := ChannelCatalog(channels, keys, kind), |keys|;
    DivBound(n, |channels|, k);
    DivBound(m, |channels|, k);
    if c[n].0 == c[m].0 {
      DotJoinInjective(channels[n / k].0, keys[n % k].emKey, channels[m / k].0, keys[m % k].emKey);
      assert n == (n / k) * k + n % k;
      assert m == (m / k) * k + m % k;
    }
  }

  /** Distinct, dot-free labels and distinct quantity keys give distinct state ids. */
  lemma ChannelCatalogDistinct(channels: seq<(string, int)>, keys: seq<Quantity>, kind: GetterKind)
    requires LabelsDistinct(channels) && LabelsDotFree(channels) && EmKeysDistinct(keys)
    ensures DistinctKeys(ChannelCatalog(channels, keys, kind))
    ensures |KeySet(ChannelCatalog(channels, keys, kind))| == |channels| * |keys|
  {
    var c := ChannelCatalog(channels, keys, kind);
    forall n, m | 0 <= n < m < |c| ensures c[n].0 != c[m].0 {
      SameKeySameEntry(channels, keys, kind, n, m);
    }
    DistinctKeyCount(c);
  }

  /** A model's merged catalog: one entry per quantity, keyed by `emKey`, reading channel 0xffff. */
  function MergedCatalog(keys: seq<Quantity>): Catalog {
    seq(|keys|, j requires 0 <= j < |keys| =>
      (keys[j].emKey, StateOf(keys[j], ElectricityGetter(AllChannels, keys[j].apiKey))))
  }

  lemma MergedCatalogDistinct(keys: seq<Quantity>)
    requires EmKeysDistinct(keys)
    ensures DistinctKeys(MergedCatalog(keys))
    ensures |KeySet(MergedCatalog(keys))| == |keys|
  {
    DistinctKeyCount(MergedCatalog(keys));
  }

  /** `keysArr.filter(item => item.apiKey !== 'factor' && item.apiKey !== 'voltage')`. */
  function WithoutFactorAndVoltage(keys: seq<Quantity>): seq<Quantity> {
    if keys == [] then []
    else (if keys[0].apiKey != "factor" && keys[0].apiKey != "voltage" then [keys[0]] else [])
         + WithoutFactorAndVoltage(keys[1..])
  }

  /** Every catalog entry is found under `"{channel}.{emKey}"` with its quantity's definition. */
  lemma ChannelCatalogLookup(channels: seq<(string, int)>, keys: seq<Quantity>, kind: GetterKind, i: nat, j: nat)
    requires LabelsDistinct(channels) && LabelsDotFree(channels) && EmKeysDistinct(keys)
    requires i < |channels| && j < |keys|
    ensures Lookup(ChannelCatalog(channels, keys, kind), CatalogKey(channels[i].0, keys[j].emKey))
            == Some(StateOf(keys[j], GetterFor(kind, channels[i].1, keys[j].apiKey)))
  {
    ChannelCatalogAt(channels, keys, kind, i, j);
    ChannelCatalogDistinct(channels, keys, kind);
    LookupDistinct(ChannelCatalog(channels, keys, kind), i * |keys| + j);
  }

  /**
   * Every entry of a channel catalog polls `Appliance.Control.ElectricityX` with the
   * all-channel payload and ack `electricity`, through a getter of the model's kind for
   * one of the listed channels; its state is a read-only number with role `value.{apiKey}`
   * and default 0.
   */
  lemma ChannelCatalogEntry(channels: seq<(string, int)>, keys: seq<Quantity>, kind: GetterKind, n: nat)
    requires n < |ChannelCatalog(channels, keys, kind)|
    ensures var e := ChannelCatalog(channels, keys, kind)[n].1;
      && e.http.Some?
      && e.http.value.namespace == ElectricityNamespace
      && e.http.value.payload == ChannelQuery("electricity", AllChannels)
      && e.http.value.ack == "electricity"
      && e.http.value.getter == GetterFor(kind, channels[n / |keys|].1, keys[n % |keys|].apiKey)
      && e.common == Common(keys[n % |keys|].name, "number", "value." + keys[n % |keys|].apiKey,
                            true, false, 0, UnitOf(keys[n % |keys|]))
  {
    DivBound(n, |channels|, |keys|);
  }

  /** Every merged entry is found under its `emKey` and reads channel 0xffff. */
  lemma MergedCatalogLookup(keys: seq<Quantity>, j: nat)
    requires EmKeysDistinct(keys) && j < |keys|
    ensures Lookup(MergedCatalog(keys), keys[j].emKey)
            == Some(StateOf(keys[j], ElectricityGetter(AllChannels, keys[j].apiKey)))
  {
    MergedCatalogDistinct(keys);
    LookupDistinct(MergedCatalog(keys), j);
  }

  /** The merge filter distributes over concatenation, so it keeps the relative order. */
  lemma {:induction false} FilterAppend(a: seq<Quantity>, b: seq<Quantity>)
    ensures WithoutFactorAndVoltage(a + b) == WithoutFactorAndVoltage(a) + WithoutFactorAndVoltage(b)
  {
    if a != [] {
      assert (a + b)[1..] == a[1..] + b;
      FilterAppend(a[1..], b);
    } else {
      assert a + b == b;
    }
  }

  /** The merge filter keeps exactly the quantities other than `factor` and `voltage`. */
  lemma {:induction false} FilterMembers(keys: seq<Quantity>, q: Quantity)
    ensures q in WithoutFactorAndVoltage(keys) <==> q in keys && q.apiKey != "factor" && q.apiKey != "voltage"
  {
    if keys != [] {
      FilterMembers(keys[1..], q);
      assert keys == [keys[0]] + keys[1..];
    }
  }

  /** The merge filter keeps distinct `emKey`s distinct. */
  lemma {:induction false} FilterKeepsDistinct(keys: seq<Quantity>)
    requires EmKeysDistinct(keys)
    ensures EmKeysDistinct(WithoutFactorAndVoltage(keys))
  {
    if keys != [] {
      var tail := keys[1..];
      assert EmKeysDistinct(tail) by {
        forall i, j | 0 <= i < j < |tail| ensures tail[i].emKey != tail[j].emKey {
          assert tail[i] == keys[i + 1] && tail[j] == keys[j + 1];
        }
      }
      FilterKeepsDistinct(tail);
      var ft := WithoutFactorAndVoltage(tail);
      forall q | q in ft ensures q.emKey != keys[0].emKey {
        FilterMembers(tail, q);
        var j :| 0 <= j < |tail| && tail[j] == q;
        assert q == keys[j + 1];
      }
      var head := if keys[0].apiKey != "factor" && keys[0].apiKey != "voltage" then [keys[0]] else [];
      var r := head + ft;
      forall i, j | 0 <= i < j < |r| ensures r[i].emKey != r[j].emKey {
        assert r[j] == ft[j - |head|];
        if i < |head| {
          assert ft[j - |head|] in ft;
        } else {
          assert r[i] == ft[i - |head|];
        }
      }
    }
  }

  lemma {:induction false} FilterKeepsAll(keys: seq<Quantity>)
    requires forall q :: q in keys ==> q.apiKey != "factor" && q.apiKey != "voltage"
    ensures WithoutFactorAndVoltage(keys) == keys
  {
    if keys != [] {
      FilterKeepsAll(keys[1..]);
    }
  }

  /** The merge filter on four quantities of which the last two are `factor` and `voltage`. */
  lemma FilterFront(a: Quantity, b: Quantity, c: Quantity, d: Quantity)
    requires a.apiKey != "factor" && a.apiKey != "voltage" && b.apiKey != "factor" && b.apiKey != "voltage"
    requires c.apiKey == "factor" && d.apiKey == "voltage"
    ensures WithoutFactorAndVoltage([a, b, c, d]) == [a, b]
  {
    assert [d][1..] == [];
    assert WithoutFactorAndVoltage([d]) == [];
    assert [c, d][1..] == [d];
    assert WithoutFactorAndVoltage([c, d]) == [];
    assert [b, c, d][1..] == [c, d];
    assert WithoutFactorAndVoltage([b, c, d]) == [b];
    assert [a, b, c, d][1..] == [b, c, d];
  }
}
