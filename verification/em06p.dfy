/** The em06p model tables (lib/devices/refossem06p.js). */
module Em06p {
  import opened Wrappers
  import opened Text
  import opened Catalog
  import Em06

  /** `Channels`: the same six labels and indices as em06. */
  const Channels: seq<(string, int)> := [("A1", 1), ("A2", 4), ("B1", 2), ("B2", 5), ("C1", 3), ("C2", 6)]

  const Current := Quantity("current", "Current", "Current", Some("A"))
  const Power := Quantity("power", "Power", "Power", Some("W"))
  const PowerFactor := Quantity("factor", "PowerFactor", "Power Factor", None)
  const Voltage := Quantity("voltage", "Voltage", "Voltage", Some("V"))
  const TodayEnergy := Quantity("today", "TodayEnergy", "Today Energy", Some("kWh"))
  const TodayEnergyReturned := Quantity("todayX", "TodayEnergyReturned", "Today Energy Returned", Some("kWh"))
  const WeekEnergy := Quantity("week", "WeekEnergy", "Week Energy", Some("kWh"))
  const WeekEnergyReturned := Quantity("weekX", "WeekEnergyReturned", "Week Energy Returned", Some("kWh"))
  const ThisMonthEnergy := Quantity("mConsume", "ThisMonthEnergy", "This Month Energy", Some("kWh"))
  const ThisMonthEnergyReturned := Quantity("mConsumeRe", "ThisMonthEnergyReturned", "This Month Energy Returned", Some("kWh"))

  /** `keysArr`: ten quantities; the month-returned counter is read as `mConsumeRe`. */
  const Keys: seq<Quantity> := [Current, Power, PowerFactor, Voltage, TodayEnergy, TodayEnergyReturned,
                                WeekEnergy, WeekEnergyReturned, ThisMonthEnergy, ThisMonthEnergyReturned]

  /** `mergedKeysArr`. */
  function MergedKeys(): seq<Quantity> {
    WithoutFactorAndVoltage(Keys)
  }

  /** The `refossem06p` catalog. */
  function States(): Catalog {
    ChannelCatalog(Channels, Keys, Plain)
  }

  /** The `refossem06pMerged` catalog. */
  function MergedStates(): Catalog {
    MergedCatalog(MergedKeys())
  }

  /** The labels are distinct and dot-free, and their indices are a bijection onto 1..6. */
  lemma ChannelsBijection()
    ensures LabelsDistinct(Channels) && LabelsDotFree(Channels)
    ensures forall i, j :: 0 <= i < j < |Channels| ==> Channels[i].1 != Channels[j].1
    ensures (set i | 0 <= i < |Channels| :: Channels[i].1) == {1, 2, 3, 4, 5, 6}
  {
    assert Channels == Em06.Channels;
    Em06.ChannelsBijection();
  }

  /** Ten quantities with distinct `emKey`s; month-returned is `mConsumeRe`. */
  lemma KeysFacts()
    ensures |Keys| == 10 && EmKeysDistinct(Keys)
    ensures Keys[9].emKey == "ThisMonthEnergyReturned" && Keys[9].apiKey == "mConsumeRe"
  {
  }

  /** The quantities after power factor and voltage. */
  lemma KeysSplit()
    ensures Keys == [Current, Power, PowerFactor, Voltage]
                    + [TodayEnergy, TodayEnergyReturned, WeekEnergy, WeekEnergyReturned,
                       ThisMonthEnergy, ThisMonthEnergyReturned]
  {
  }

  lemma TailKept()
    ensures WithoutFactorAndVoltage([TodayEnergy, TodayEnergyReturned, WeekEnergy, WeekEnergyReturned,
                                     ThisMonthEnergy, ThisMonthEnergyReturned])
            == [TodayEnergy, TodayEnergyReturned, WeekEnergy, WeekEnergyReturned,
                ThisMonthEnergy, ThisMonthEnergyReturned]
  {
    FilterKeepsAll([TodayEnergy, TodayEnergyReturned, WeekEnergy, WeekEnergyReturned,
                    ThisMonthEnergy, ThisMonthEnergyReturned]);
  }

  /** `mergedKeysArr` is `keysArr` without `factor` and `voltage`, in the same order: 8 quantities. */
  lemma MergedKeysInOrder()
    ensures MergedKeys() == [Current, Power, TodayEnergy, TodayEnergyReturned,
                             WeekEnergy, WeekEnergyReturned, ThisMonthEnergy, ThisMonthEnergyReturned]
  {
    var rest := [TodayEnergy, TodayEnergyReturned, WeekEnergy, WeekEnergyReturned,
                 ThisMonthEnergy, ThisMonthEnergyReturned];
    KeysSplit();
    FilterAppend([Current, Power, PowerFactor, Voltage], rest);
    FilterFront(Current, Power, PowerFactor, Voltage);
    TailKept();
  }

  /** No merged quantity is `factor` or `voltage`. */
  lemma MergedKeysExclude(q: Quantity)
    requires q in MergedKeys()
    ensures q in Keys && q.apiKey != "factor" && q.apiKey != "voltage"
  {
    FilterMembers(Keys, q);
  }

  /** The merged quantities have distinct `emKey`s. */
  lemma MergedKeysDistinct()
    ensures EmKeysDistinct(MergedKeys())
  {
    KeysFacts();
    FilterKeepsDistinct(Keys);
  }

  /** The catalog holds 60 distinct state ids. */
  lemma StatesDistinct()
    ensures |States()| == 60 && DistinctKeys(States()) && |KeySet(States())| == 60
  {
    ChannelsBijection();
    KeysFacts();
    ChannelCatalogDistinct(Channels, Keys, Plain);
  }

  /**
   * Each state id `"{label}.{emKey}"` maps to that quantity's definition, read through
   * `getElectricity(Channels[label], apiKey)`.
   */
  lemma StatesLookup(i: nat, j: nat)
    requires i < |Channels| && j < |Keys|
    ensures Lookup(States(), CatalogKey(Channels[i].0, Keys[j].emKey))
            == Some(StateOf(Keys[j], ElectricityGetter(Channels[i].1, Keys[j].apiKey)))
  {
    ChannelsBijection();
    KeysFacts();
    ChannelCatalogLookup(Channels, Keys, Plain, i, j);
  }

  /**
   * Every entry is in the `Appliance.Control.ElectricityX` group with the all-channel
   * payload and ack `electricity`, reads one of the channels 1..6, and has role `value.{apiKey}`.
   */
  lemma StatesEntry(n: nat)
    requires n < |States()|
    ensures var e := States()[n].1;
      && e.http.Some?
      && e.http.value.namespace == ElectricityNamespace
      && e.http.value.payload == ChannelQuery("electricity", AllChannels)
      && e.http.value.ack == "electricity"
      && e.http.value.getter.ElectricityGetter?
      && 1 <= e.http.value.getter.channel <= 6
      && e.common.role == "value." + e.http.value.getter.apiKey
  {
    ChannelsBijection();
    ChannelCatalogEntry(Channels, Keys, Plain, n);
    DivBound(n, |Channels|, |Keys|);
    assert Channels[n / |Keys|].1 in (set i | 0 <= i < |Channels| :: Channels[i].1);
  }

  /**
   * The merged catalog holds 8 distinct state ids, the merged quantities' `emKey`s,
   * each read through `getElectricity(0xffff, apiKey)`.
   */
  lemma MergedStatesFacts()
    ensures |MergedStates()| == 8 && DistinctKeys(MergedStates()) && |KeySet(MergedStates())| == 8
    ensures forall j :: 0 <= j < |MergedKeys()| ==>
      Lookup(MergedStates(), MergedKeys()[j].emKey)
        == Some(StateOf(MergedKeys()[j], ElectricityGetter(AllChannels, MergedKeys()[j].apiKey)))
  {
    MergedKeysInOrder();
    MergedKeysDistinct();
    MergedCatalogDistinct(MergedKeys());
    forall j | 0 <= j < |MergedKeys()|
      ensures Lookup(MergedStates(), MergedKeys()[j].emKey)
              == Some(StateOf(MergedKeys()[j], ElectricityGetter(AllChannels, MergedKeys()[j].apiKey)))
    {
      MergedCatalogLookup(MergedKeys(), j);
    }
  }
}
