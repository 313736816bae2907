/**
 * The value getters of a device session (lib/protocol/base.js): per-channel lookup in the
 * last `electricity` snapshot, the em06 sign split, and the merge-group totals.
 */
module Telemetry {
  import opened Wrappers
  import opened Text
  import opened Json

  /** A field value of a channel record, as decoded from the device's JSON answer. */
  datatype Scalar = Number(x: real) | Flag(b: bool) | Text(s: string) | Null

  /** One channel record of an `electricity` answer; an absent key is `undefined`. */
  type Record = map<string, Scalar>

  /** The array of channel records kept in `httpData`; an answer without one is empty. */
  type Snapshot = seq<Record>

  /** A datapoint value: `undefined`, a normalised number, or a field value passed through. */
  datatype Value = Undefined | Num(x: real) | Raw(s: Scalar)

  /**
   * `refossUtils.getNumFormate`, whose code is not part of this model: any function from
   * a field value (or `undefined`) to a number.
   */
  type Normaliser = Option<Scalar> -> real

  function Field(r: Record, key: string): Option<Scalar> {
    if key in r then Some(r[key]) else None
  }

  function RawOf(v: Option<Scalar>): Value {
    match v
    case Some(s) => Raw(s)
    case None => Undefined
  }

  function ChannelNumber(channel: int): Scalar {
    Number(channel as real)
  }

  /**
   * The `for (const i in this.httpData)` search: the record at the first index `i >= from`
   * whose `i + 1` equals `channel`.
   */
  function FindRecord(snap: Snapshot, channel: Scalar, from: nat): Option<Record>
    decreases |snap| - from
  {
    if from >= |snap| then None
    else if channel == Number((from + 1) as real) then Some(snap[from])
    else FindRecord(snap, channel, from + 1)
  }

  /** The search finds record `k - 1` exactly when the channel is the number `k`, with `from < k <= |snap|`. */
  lemma {:induction false} FindRecordIndex(snap: Snapshot, channel: Scalar, from: nat)
    ensures FindRecord(snap, channel, from).Some?
            <==> exists k: nat :: from < k <= |snap| && channel == ChannelNumber(k)
    ensures forall k: nat :: from < k <= |snap| && channel == ChannelNumber(k)
              ==> FindRecord(snap, channel, from) == Some(snap[k - 1])
    decreases |snap| - from
  {
    if from < |snap| {
      FindRecordIndex(snap, channel, from + 1);
      if channel == Number((from + 1) as real) {
        assert from < from + 1 <= |snap| && channel == ChannelNumber(from + 1);
      }
    }
  }

  /** The record of an integer channel `c`: record `c - 1` when `1 <= c <= |snap|`, else none. */
  lemma ChannelRecord(snap: Snapshot, c: int)
    ensures FindRecord(snap, ChannelNumber(c), 0) == if 1 <= c <= |snap| then Some(snap[c - 1]) else None
  {
    FindRecordIndex(snap, ChannelNumber(c), 0);
    if FindRecord(snap, ChannelNumber(c), 0).Some? {
      var k: nat :| 0 < k <= |snap| && ChannelNumber(c) == ChannelNumber(k);
      assert k == c;
    }
  }

  /** `getElectricity(channel, type)`: normalised for every type but `factor`, which is passed through. */
  function Electricity(snap: Snapshot, channel: Scalar, apiKey: string, norm: Normaliser): Value {
    match FindRecord(snap, channel, 0)
    case None => Undefined
    case Some(r) =>
      if apiKey != "factor" then Num(norm(Field(r, apiKey))) else RawOf(Field(r, apiKey))
  }

  /**
   * `getEm06Electricity(channel, type)`: a type containing `mConsume` reads the signed
   * `mConsume` counter and keeps its import part (`mConsume`) or its export part (`mConsumeRe`).
   */
  function Em06Electricity(snap: Snapshot, channel: Scalar, apiKey: string, norm: Normaliser): Value {
    match FindRecord(snap, channel, 0)
    case None => Undefined
    case Some(r) =>
      if Contains(apiKey, "mConsume") then
        var v := norm(Field(r, "mConsume"));
        var v1 := if apiKey == "mConsume" && v < 0.0 then 0.0 else v;
        var v2 := if apiKey == "mConsumeRe" && v1 > 0.0 then 0.0 else v1;
        Num(if v2 > 0.0 then v2 else -v2)
      else if apiKey != "factor" then Num(norm(Field(r, apiKey)))
      else RawOf(Field(r, apiKey))
  }

  /**
   * For channel `c` with a record, `getElectricity` returns that record's normalised field,
   * or for `factor` the field itself; without a record it returns `undefined`.
   */
  lemma ElectricityAt(snap: Snapshot, c: int, apiKey: string, norm: Normaliser)
    ensures !(1 <= c <= |snap|) ==> Electricity(snap, ChannelNumber(c), apiKey, norm) == Undefined
    ensures 1 <= c <= |snap| && apiKey != "factor"
            ==> Electricity(snap, ChannelNumber(c), apiKey, norm) == Num(norm(Field(snap[c - 1], apiKey)))
    ensures 1 <= c <= |snap| && apiKey == "factor" && "factor" in snap[c - 1]
            ==> Electricity(snap, ChannelNumber(c), apiKey, norm) == Raw(snap[c - 1]["factor"])
    ensures 1 <= c <= |snap| && apiKey == "factor" && "factor" !in snap[c - 1]
            ==> Electricity(snap, ChannelNumber(c), apiKey, norm) == Undefined
  {
    ChannelRecord(snap, c);
  }

  lemma MConsumeTypes()
    ensures Contains("mConsume", "mConsume") && Contains("mConsumeRe", "mConsume")
  {
    assert IsPrefix("mConsume", "mConsume");
    assert IsPrefix("mConsume", "mConsumeRe");
  }

  /**
   * The em06 sign split: with `v` the normalised signed month counter of channel `c`,
   * `mConsume` reads `max(v, 0)` and `mConsumeRe` reads `max(-v, 0)`; both are
   * non-negative, at most one is non-zero, and import minus export is `v`.
   */
  lemma Em06SignSplit(snap: Snapshot, c: int, norm: Normaliser)
    requires 1 <= c <= |snap|
    ensures var v := norm(Field(snap[c - 1], "mConsume"));
      var imp := Em06Electricity(snap, ChannelNumber(c), "mConsume", norm);
      var exp := Em06Electricity(snap, ChannelNumber(c), "mConsumeRe", norm);
      && imp == Num(if v > 0.0 then v else 0.0)
      && exp == Num(if v < 0.0 then -v else 0.0)
      && imp.x >= 0.0 && exp.x >= 0.0
      && (imp.x == 0.0 || exp.x == 0.0)
      && imp.x - exp.x == v
  {
    ChannelRecord(snap, c);
    MConsumeTypes();
  }

  /** Outside the month counters, the em06 getter reads exactly what `getElectricity` reads. */
  lemma Em06AgreesElsewhere(snap: Snapshot, channel: Scalar, apiKey: string, norm: Normaliser)
    requires !Contains(apiKey, "mConsume")
    ensures Em06Electricity(snap, channel, apiKey, norm) == Electricity(snap, channel, apiKey, norm)
  {
  }

  // ---------------------------------------------------------------------------
  // Merge groups (`getMergeElectricityByChannels`)
  // ---------------------------------------------------------------------------

  /**
   * What one listed channel adds to a merge total: nothing when it has no record or the
   * field is undefined; for `factor`, only a number counts and it is taken raw.
   */
  function Contribution(snap: Snapshot, apiKey: string, channel: Scalar, norm: Normaliser): Option<real> {
    match FindRecord(snap, channel, 0)
    case None => None
    case Some(r) => RecordContribution(r, apiKey, norm)
  }

  /** What one record adds: its normalised field, or for `factor` its numeric field taken raw. */
  function RecordContribution(r: Record, apiKey: string, norm: Normaliser): Option<real> {
    if apiKey !in r then None
    else if apiKey != "factor" then Some(norm(Some(r[apiKey])))
    else if r[apiKey].Number? then Some(r[apiKey].x)
    else None
  }

  /** The contributions of the listed channels, in list order (a channel listed twice counts twice). */
  function Contributions(snap: Snapshot, apiKey: string, channels: seq<Scalar>, norm: Normaliser): seq<real> {
    if channels == [] then []
    else
      (match Contribution(snap, apiKey, channels[0], norm) case Some(v) => [v] case None => [])
      + Contributions(snap, apiKey, channels[1..], norm)
  }

  function Sum(xs: seq<real>): real {
    if xs == [] then 0.0 else xs[0] + Sum(xs[1..])
  }

  /** The loop accumulators `totalValue`, `hasValidData` and `validChannelCount`. */
  datatype Tally = Tally(total: real, valid: bool, count: nat)

  function Step(t: Tally, apiKey: string, c: Option<real>): Tally {
    match c
    case None => t
    case Some(v) => Tally(t.total + v, true, if apiKey == "factor" then t.count + 1 else t.count)
  }

  /** The outer loop over the listed channels, from a given tally. */
  function Accumulate(t: Tally, snap: Snapshot, apiKey: string, channels: seq<Scalar>, norm: Normaliser): Tally
    decreases |channels|
  {
    if channels == [] then t
    else Accumulate(Step(t, apiKey, Contribution(snap, apiKey, channels[0], norm)), snap, apiKey, channels[1..], norm)
  }

  function Outcome(t: Tally, apiKey: string): real {
    if apiKey == "factor" && t.valid && t.count > 0 then t.total / (t.count as real)
    else if t.valid then t.total
    else 0.0
  }

  /** The value `getMergeElectricityByChannels(type, channels)` returns; `None` is a missing channel list. */
  function MergeValue(snap: Snapshot, apiKey: string, channels: Option<seq<Scalar>>, norm: Normaliser): real {
    if channels.None? || |channels.value| == 0 then 0.0
    else Outcome(Accumulate(Tally(0.0, false, 0), snap, apiKey, channels.value, norm), apiKey)
  }

  /** The tally after a channel list: the contributions summed, and counted for `factor`. */
  lemma {:induction false} AccumulateTotals(t: Tally, snap: Snapshot, apiKey: string, channels: seq<Scalar>, norm: Normaliser)
    ensures var r := Accumulate(t, snap, apiKey, channels, norm);
      var cs := Contributions(snap, apiKey, channels, norm);
      && r.total == t.total + Sum(cs)
      && r.valid == (t.valid || |cs| > 0)
      && r.count == t.count + (if apiKey == "factor" then |cs| else 0)
    decreases |channels|
  {
    if channels != [] {
      var c := Contribution(snap, apiKey, channels[0], norm);
      AccumulateTotals(Step(t, apiKey, c), snap, apiKey, channels[1..], norm);
      var rest := Contributions(snap, apiKey, channels[1..], norm);
      if c.Some? {
        assert Contributions(snap, apiKey, channels, norm) == [c.value] + rest;
        assert Sum([c.value] + rest) == c.value + Sum(rest) by {
          assert ([c.value] + rest)[1..] == rest;
        }
      } else {
        assert Contributions(snap, apiKey, channels, norm) == rest;
      }
    }
  }

  /**
   * The merge total of every type but `factor` is the sum of the present contributions:
   * 0 for a missing or empty channel list and when no channel has data.
   */
  lemma MergeIsSum(snap: Snapshot, apiKey: string, channels: Option<seq<Scalar>>, norm: Normaliser)
    requires apiKey != "factor"
    ensures MergeValue(snap, apiKey, channels, norm)
            == if channels.None? then 0.0 else Sum(Contributions(snap, apiKey, channels.value, norm))
  {
    if channels.Some? {
      AccumulateTotals(Tally(0.0, false, 0), snap, apiKey, channels.value, norm);
      if |channels.value| == 0 {
        assert Contributions(snap, apiKey, channels.value, norm) == [];
      }
    }
  }

  /**
   * The merge total of `factor` is the mean of the numeric `factor` fields of the listed
   * channels that have one, or 0 when there is none.
   */
  lemma FactorIsMean(snap: Snapshot, channels: Option<seq<Scalar>>, norm: Normaliser)
    ensures var cs := if channels.None? then [] else Contributions(snap, "factor", channels.value, norm);
      MergeValue(snap, "factor", channels, norm) == if |cs| == 0 then 0.0 else Sum(cs) / (|cs| as real)
  {
    if channels.Some? {
      AccumulateTotals(Tally(0.0, false, 0), snap, "factor", channels.value, norm);
      if |channels.value| == 0 {
        assert Contributions(snap, "factor", channels.value, norm) == [];
      }
    }
  }

  /** Listing channels one after another contributes the contributions of each list in turn. */
  lemma {:induction false} ContributionsAppend(snap: Snapshot, apiKey: string, a: seq<Scalar>, b: seq<Scalar>, norm: Normaliser)
    ensures Contributions(snap, apiKey, a + b, norm)
            == Contributions(snap, apiKey, a, norm) + Contributions(snap, apiKey, b, norm)
  {
    if a != [] {
      assert (a + b)[1..] == a[1..] + b;
      ContributionsAppend(snap, apiKey, a[1..], b, norm);
    } else {
      assert a + b == b;
    }
  }

  lemma {:induction false} SumAppend(a: seq<real>, b: seq<real>)
    ensures Sum(a + b) == Sum(a) + Sum(b)
  {
    if a != [] {
      assert (a + b)[1..] == a[1..] + b;
      SumAppend(a[1..], b);
    } else {
      assert a + b == b;
    }
  }

  /**
   * Merge totals other than `factor` are additive over concatenated channel lists; in
   * particular a channel listed twice is counted twice.
   */
  lemma MergeAdditive(snap: Snapshot, apiKey: string, a: seq<Scalar>, b: seq<Scalar>, norm: Normaliser)
    requires apiKey != "factor"
    ensures MergeValue(snap, apiKey, Some(a + b), norm)
            == MergeValue(snap, apiKey, Some(a), norm) + MergeValue(snap, apiKey, Some(b), norm)
  {
    MergeIsSum(snap, apiKey, Some(a + b), norm);
    MergeIsSum(snap, apiKey, Some(a), norm);
    MergeIsSum(snap, apiKey, Some(b), norm);
    ContributionsAppend(snap, apiKey, a, b, norm);
    SumAppend(Contributions(snap, apiKey, a, norm), Contributions(snap, apiKey, b, norm));
  }

  /** A type that no listed channel's record defines totals 0 (the em16p `mConsumeRe` case). */
  lemma {:induction false} AbsentFieldTotalsZero(snap: Snapshot, apiKey: string, channels: seq<Scalar>, norm: Normaliser)
    requires forall i :: 0 <= i < |snap| ==> apiKey !in snap[i]
    ensures Contributions(snap, apiKey, channels, norm) == []
    ensures MergeValue(snap, apiKey, Some(channels), norm) == 0.0
  {
    if channels != [] {
      AbsentFieldTotalsZero(snap, apiKey, channels[1..], norm);
      FindRecordIndex(snap, channels[0], 0);
      if FindRecord(snap, channels[0], 0).Some? {
        var k: nat :| 0 < k <= |snap| && channels[0] == ChannelNumber(k);
        assert apiKey !in snap[k - 1];
      }
    }
    AccumulateTotals(Tally(0.0, false, 0), snap, apiKey, channels, norm);
  }

  /**
   * `getMergeElectricityByChannels(type, channels)`: for every listed channel, search the
   * snapshot for its record, add what it contributes, and stop searching at the first match.
   */
  method MergeByChannels(snap: Snapshot, apiKey: string, channels: Option<seq<Scalar>>, norm: Normaliser)
    returns (r: real)
    ensures r == MergeValue(snap, apiKey, channels, norm)
  {
    if channels.None? || |channels.value| == 0 {
      return 0.0;
    }
    var chans := channels.value;
    var totalValue, hasValidData, validChannelCount := 0.0, false, 0;
    var k := 0;
    while k < |chans|
      invariant 0 <= k <= |chans|
      invariant Accumulate(Tally(0.0, false, 0), snap, apiKey, chans, norm)
                == Accumulate(Tally(totalValue, hasValidData, validChannelCount), snap, apiKey, chans[k..], norm)
    {
      var channel := chans[k];
      assert chans[k..][1..] == chans[k + 1..];
      var i := 0;
      while i < |snap|
        invariant 0 <= i <= |snap|
        invariant FindRecord(snap, channel, 0) == FindRecord(snap, channel, i)
      {
        if channel == Number((i + 1) as real) {
          var channelData := snap[i];
          if apiKey in channelData {
            if apiKey != "factor" {
              totalValue := totalValue + norm(Some(channelData[apiKey]));
              hasValidData := true;
            } else {
              var value := channelData[apiKey];
              if value.Number? {
                totalValue := totalValue + value.x;
                validChannelCount := validChannelCount + 1;
                hasValidData := true;
              }
            }
          }
          break;
        }
        i := i + 1;
      }
      k := k + 1;
    }
    r := Outcome(Tally(totalValue, hasValidData, validChannelCount), apiKey);
  }

  // ---------------------------------------------------------------------------
  // Whole merge answer (`getMergeElectricity`)
  // ---------------------------------------------------------------------------

  /** One entry of a `Appliance.Control.ChannelMerge` answer's `control` array. */
  datatype MergeChannel = MergeChannel(mergeName: Option<Json>, channels: Option<seq<Scalar>>, fields: Record)

  /** The first entry whose `mergeName` is strictly equal to `name`. */
  function FindByName(list: seq<MergeChannel>, name: Option<Json>): (r: Option<MergeChannel>)
    ensures r.Some? ==> exists k :: 0 <= k < |list| && list[k] == r.value && StrictEquals(list[k].mergeName, name)
                          && forall j :: 0 <= j < k ==> !StrictEquals(list[j].mergeName, name)
    ensures r.None? ==> forall i :: 0 <= i < |list| ==> !StrictEquals(list[i].mergeName, name)
  {
    if list == [] then None
    else if StrictEquals(list[0].mergeName, name) then Some(list[0])
    else
      assert forall j :: 1 <= j < |list| ==> list[j] == list[1..][j - 1];
      FindByName(list[1..], name)
  }

  /** The loop over `mergeChannelData`, entry by entry in order. */
  function EntryTally(data: seq<MergeChannel>, apiKey: string, norm: Normaliser): Tally {
    if data == [] then Tally(0.0, false, 0)
    else Step(EntryTally(data[..|data| - 1], apiKey, norm), apiKey, RecordContribution(data[|data| - 1].fields, apiKey, norm))
  }

  /** The contributions of the entries, in order. */
  function EntryContributions(data: seq<MergeChannel>, apiKey: string, norm: Normaliser): seq<real> {
    if data == [] then []
    else
      EntryContributions(data[..|data| - 1], apiKey, norm)
      + (match RecordContribution(data[|data| - 1].fields, apiKey, norm) case Some(v) => [v] case None => [])
  }

  /** The value `getMergeElectricity(type, mergeName)` returns, as written. */
  function MergeElectricityValue(data: seq<MergeChannel>, list: seq<MergeChannel>, apiKey: string,
                                 mergeName: Option<Json>, norm: Normaliser): Value
  {
    if |data| == 0 then Num(0.0)
    else if Truthy(mergeName) then NamedEntryValue(list, apiKey, mergeName, norm)
    else
      var t := EntryTally(data, apiKey, norm);
      if apiKey == "factor" && t.valid then Num(t.total / (|data| as real))
      else if t.valid then Num(t.total) else Num(0.0)
  }

  /** With a merge name: that entry's own field, normalised unless it is `factor`; 0 when absent. */
  function NamedEntryValue(list: seq<MergeChannel>, apiKey: string, mergeName: Option<Json>, norm: Normaliser): Value {
    match FindByName(list, mergeName)
    case Some(mc) =>
      if apiKey !in mc.fields then Num(0.0)
      else if apiKey != "factor" then Num(norm(Some(mc.fields[apiKey])))
      else Raw(mc.fields[apiKey])
    case None => Num(0.0)
  }

  /**
   * `getMergeElectricity` with the power-factor mean taken over the entries that have a
   * numeric factor, as `getMergeElectricityByChannels` does.
   */
  function MergeElectricityCorrected(data: seq<MergeChannel>, list: seq<MergeChannel>, apiKey: string,
                                     mergeName: Option<Json>, norm: Normaliser): Value
  {
    if |data| == 0 then Num(0.0)
    else if Truthy(mergeName) then NamedEntryValue(list, apiKey, mergeName, norm)
    else Num(Outcome(EntryTally(data, apiKey, norm), apiKey))
  }

  /** The entry tally sums the entry contributions, and counts them for `factor`. */
  lemma {:induction false} EntryTallyTotals(data: seq<MergeChannel>, apiKey: string, norm: Normaliser)
    ensures var t := EntryTally(data, apiKey, norm);
      var cs := EntryContributions(data, apiKey, norm);
      && t.total == Sum(cs)
      && t.valid == (|cs| > 0)
      && t.count == (if apiKey == "factor" then |cs| else 0)
  {
    if data != [] {
      var init := data[..|data| - 1];
      EntryTallyTotals(init, apiKey, norm);
      var c := RecordContribution(data[|data| - 1].fields, apiKey, norm);
      if c.Some? {
        SumAppend(EntryContributions(init, apiKey, norm), [c.value]);
        assert Sum([c.value]) == c.value;
      } else {
        assert EntryContributions(data, apiKey, norm) == EntryContributions(init, apiKey, norm);
      }
    }
  }

  /**
   * Without a merge name, the corrected total is the sum of the entries' normalised fields,
   * and for `factor` the mean of the numeric factors (0 when there is none).
   */
  lemma CorrectedTotals(data: seq<MergeChannel>, list: seq<MergeChannel>, apiKey: string, norm: Normaliser)
    requires |data| > 0
    ensures var cs := EntryContributions(data, apiKey, norm);
      MergeElectricityCorrected(data, list, apiKey, None, norm)
        == Num(if |cs| == 0 then 0.0 else if apiKey == "factor" then Sum(cs) / (|cs| as real) else Sum(cs))
  {
    EntryTallyTotals(data, apiKey, norm);
  }

  /**
   * As written, the power-factor mean divides by every entry: one entry with factor 0.8
   * and one without a factor give 0.4, where the corrected mean is 0.8.
   */
  lemma FactorMeanDividesByAllEntries(norm: Normaliser)
    ensures var data := [MergeChannel(Some(JString("a")), None, map["factor" := Number(0.8)]),
                         MergeChannel(Some(JString("b")), None, map[])];
      && MergeElectricityValue(data, data, "factor", None, norm) == Num(0.4)
      && MergeElectricityCorrected(data, data, "factor", None, norm) == Num(0.8)
  {
    var data := [MergeChannel(Some(JString("a")), None, map["factor" := Number(0.8)]),
                 MergeChannel(Some(JString("b")), None, map[])];
    assert data[..1] == [data[0]];
    assert [data[0]][..0] == [];
    assert EntryTally([data[0]], "factor", norm) == Tally(0.8, true, 1);
    assert EntryTally(data, "factor", norm) == Tally(0.8, true, 1);
  }

  /**
   * `getMergeElectricity(type, mergeName)`, as written: the named entry's own field, or the
   * total over all entries (for `factor`, divided by the number of entries).
   */
  method MergeElectricity(data: seq<MergeChannel>, list: seq<MergeChannel>, apiKey: string,
                          mergeName: Option<Json>, norm: Normaliser) returns (r: Value)
    ensures r == MergeElectricityValue(data, list, apiKey, mergeName, norm)
  {
    if |data| == 0 {
      return Num(0.0);
    }
    if Truthy(mergeName) {
      var mergeChannel := FindByName(list, mergeName);
      if mergeChannel.Some? && apiKey in mergeChannel.value.fields {
        if apiKey != "factor" {
          return Num(norm(Some(mergeChannel.value.fields[apiKey])));
        } else {
          return Raw(mergeChannel.value.fields[apiKey]);
        }
      }
      return Num(0.0);
    }
    var totalValue, hasValidData := 0.0, false;
    var i := 0;
    while i < |data|
      invariant 0 <= i <= |data|
      invariant totalValue == EntryTally(data[..i], apiKey, norm).total
      invariant hasValidData == EntryTally(data[..i], apiKey, norm).valid
    {
      assert data[..i + 1][..i] == data[..i];
      var channelData := data[i];
      if apiKey in channelData.fields {
        if apiKey != "factor" {
          totalValue := totalValue + norm(Some(channelData.fields[apiKey]));
          hasValidData := true;
        } else {
          var value := channelData.fields[apiKey];
          if value.Number? {
            totalValue := totalValue + value.x;
            hasValidData := true;
          }
        }
      }
      i := i + 1;
    }
    assert data[..i] == data;
    if apiKey == "factor" && hasValidData {
      return Num(totalValue / (|data| as real));
    }
    r := if hasValidData then Num(totalValue) else Num(0.0);
  }
}
