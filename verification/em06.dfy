/** The em06 model table (lib/devices/refossem06.js). */
module Em06 {
  import opened Wrappers
  import opened Text
  import opened Catalog

  /** `Channels`: channel label to 1-based channel index, in declaration order. */
  const Channels: seq<(string, int)> := [("A1", 1), ("A2", 4), ("B1", 2), ("B2", 5), ("C1", 3), ("C2", 6)]

  const Current := Quantity("current", "Current", "Current", Some("A"))
  const Power := Quantity("power", "Power", "Power", Some("W"))
  const PowerFactor := Quantity("factor", "PowerFactor", "Power Factor", None)
  const Voltage := Quantity("voltage", "Voltage", "Voltage", Some("V"))
  const ThisMonthEnergy := Quantity("mConsume", "ThisMonthEnergy", "This Month Energy", Some("kWh"))
  const ThisMonthEnergyReturned := Quantity("mConsumeRe", "ThisMonthEnergyReturned", "This Month Energy Returned", Some("kWh"))

  /** `keysArr`: six quantities, no today or week counters. Power factor has no unit. */
  const Keys: seq<Quantity> := [Current, Power, PowerFactor, Voltage, ThisMonthEnergy, ThisMonthEnergyReturned]

  /** The `refossem06` catalog: every label crossed with every quantity, read through the sign-split getter. */
  function States(): Catalog {
    ChannelCatalog(Channels, Keys, SignSplit)
  }

  /** The labels are distinct and dot-free, and their indices are a bijection onto 1..6. */
  lemma ChannelsBijection()
    ensures LabelsDistinct(Channels) && LabelsDotFree(Channels)
    ensures forall i, j :: 0 <= i < j < |Channels| ==> Channels[i].1 != Channels[j].1
    ensures (set i | 0 <= i < |Channels| :: Channels[i].1) == {1, 2, 3, 4, 5, 6}
  {
    var image := set i | 0 <= i < |Channels| :: Channels[i].1;
    forall k | 1 <= k <= 6 ensures k in image {
      var i := if k == 1 then 0 else if k == 4 then 1 else if k == 2 then 2
               else if k == 5 then 3 else if k == 3 then 4 else 5;
      assert Channels[i].1 == k;
    }
  }

  /** Six quantities with distinct `emKey`s, none of them a today or week counter. */
  lemma KeysFacts()
    ensures |Keys| == 6 && EmKeysDistinct(Keys)
    ensures forall q :: q in Keys ==> q.apiKey !in {"today", "todayX", "week", "weekX"}
  {
  }

  /** The catalog holds 36 distinct state ids. */
  lemma StatesDistinct()
    ensures |States()| == 36 && DistinctKeys(States()) && |KeySet(States())| == 36
  {
    ChannelsBijection();
    KeysFacts();
    ChannelCatalogDistinct(Channels, Keys, SignSplit);
  }

  /**
   * Each state id `"{label}.{emKey}"` maps to that quantity's definition, read through
   * `getEm06Electricity(Channels[label], apiKey)`.
   */
  lemma StatesLookup(i: nat, j: nat)
    requires i < |Channels| && j < |Keys|
    ensures Lookup(States(), CatalogKey(Channels[i].0, Keys[j].emKey))
            == Some(StateOf(Keys[j], Em06Getter(Channels[i].1, Keys[j].apiKey)))
  {
    ChannelsBijection();
    KeysFacts();
    ChannelCatalogLookup(Channels, Keys, SignSplit, i, j);
  }

  /**
   * Every entry is in the `Appliance.Control.ElectricityX` group with the all-channel
   * payload and ack `electricity`, reads one of the channels 1..6, and has role `value.{apiKey}`.
   */
  lemma StatesEntry(n: nat)
    requires n < |States()|
    ensures var e := States()[n].1;
      && e.http.Some?
      && e.http.value.namespace == ElectricityNamespace
      && e.http.value.payload == ChannelQuery("electricity", AllChannels)
      && e.http.value.ack == "electricity"
      && e.http.value.getter.Em06Getter?
      && 1 <= e.http.value.getter.channel <= 6
      && e.common.role == "value." + e.http.value.getter.apiKey
  {
    ChannelsBijection();
    ChannelCatalogEntry(Channels, Keys, SignSplit, n);
    DivBound(n, |Channels|, |Keys|);
    assert Channels[n / |Keys|].1 in (set i | 0 <= i < |Channels| :: Channels[i].1);
  }

  /** Every state is a read-only number with default 0; the power-factor states have unit `''`. */
  lemma StatesCommon(i: nat, j: nat)
    requires i < |Channels| && j < |Keys|
    ensures var e := Lookup(States(), CatalogKey(Channels[i].0, Keys[j].emKey));
      && e.Some?
      && e.value.common.valueType == "number"
      && e.value.common.read && !e.value.common.write && e.value.common.def == 0
      && (Keys[j].apiKey == "factor" ==> e.value.common.unit == "")
      && (Keys[j].apiKey != "factor" ==> e.value.common.unit != "")
  {
    StatesLookup(i, j);
  }
}
