/** The em16p model tables (lib/devices/refossem16p.js). */
module Em16p {
  import opened Wrappers
  import opened Text
  import opened Catalog

  /** `Channels`: eighteen labels in three banks of six, numbered 1..18 in order. */
  const Channels: seq<(string, int)> := [
    ("A1", 1), ("A2", 2), ("A3", 3), ("A4", 4), ("A5", 5), ("A6", 6),
    ("B1", 7), ("B2", 8), ("B3", 9), ("B4", 10), ("B5", 11), ("B6", 12),
    ("C1", 13), ("C2", 14), ("C3", 15), ("C4", 16), ("C5", 17), ("C6", 18)
  ]

  const Current := Quantity("current", "Current", "Current", Some("A"))
  const Power := Quantity("power", "Power", "Power", Some("W"))
  const PowerFactor := Quantity("factor", "PowerFactor", "Power Factor", None)
  const Voltage := Quantity("voltage", "Voltage", "Voltage", Some("V"))
  const TodayEnergy := Quantity("today", "TodayEnergy", "Today Energy", Some("kWh"))
  const TodayEnergyReturned := Quantity("todayX", "TodayEnergyReturned", "Today Energy Returned", Some("kWh"))
  const WeekEnergy := Quantity("week", "WeekEnergy", "Week Energy", Some("kWh"))
  const WeekEnergyReturned := Quantity("weekX", "WeekEnergyReturned", "Week Energy Returned", Some("kWh"))
  const ThisMonthEnergy := Quantity("mConsume", "ThisMonthEnergy", "This Month Energy", Some("kWh"))
  const ThisMonthEnergyReturned := Quantity("mConsumeX", "ThisMonthEnergyReturned", "This Month Energy Returned", Some("kWh"))

  /** `keysArr`: ten quantities; the month-returned counter is read as `mConsumeX`. */
  const Keys: seq<Quantity> := [Current, Power, PowerFactor, Voltage, TodayEnergy, TodayEnergyReturned,
                                WeekEnergy, WeekEnergyReturned, ThisMonthEnergy, ThisMonthEnergyReturned]

  /** `mergedKeysArr`. */
  function MergedKeys(): seq<Quantity> {
    WithoutFactorAndVoltage(Keys)
  }

  /** The `refossem16p` catalog. */
  function States(): Catalog {
    ChannelCatalog(Channels, Keys, Plain)
  }

  /** The `refossem16pMerged` catalog. */
  function MergedStates(): Catalog {
    MergedCatalog(MergedKeys())
  }

  /**
   * Label `i` is bank `A`, `B` or `C` (`i / 6`) followed by the digit `i % 6 + 1`,
   * and its index is `i + 1`.
   */
  lemma ChannelsShape()
    ensures |Channels| == 18
    ensures forall i :: 0 <= i < |Channels| ==> Channels[i].1 == i + 1
    ensures forall i :: 0 <= i < |Channels| ==> Channels[i].0 == ["ABC"[i / 6], "123456"[i % 6]]
  {
  }

  lemma LabelInjective(i: nat, j: nat)
    requires i < 18 && j < 18
    ensures ["ABC"[i / 6], "123456"[i % 6]] == ["ABC"[j / 6], "123456"[j % 6]] ==> i == j
  {
    if ["ABC"[i / 6], "123456"[i % 6]] == ["ABC"[j / 6], "123456"[j % 6]] {
      assert "ABC"[i / 6] == "ABC"[j / 6];
      assert "123456"[i % 6] == "123456"[j % 6];
      assert i / 6 == j / 6;
      assert i % 6 == j % 6;
    }
  }

  /** The labels are distinct and dot-free (with `ChannelsShape`: a bijection onto 1..18). */
  lemma ChannelsBijection()
    ensures LabelsDistinct(Channels) && LabelsDotFree(Channels)
  {
    ChannelsShape();
    forall i, j | 0 <= i < j < |Channels| ensures Channels[i].0 != Channels[j].0 {
      LabelInjective(i, j);
    }
    forall i | 0 <= i < |Channels| ensures NoDot(Channels[i].0) {
      assert "ABC"[i / 6] != '.' && "123456"[i % 6] != '.';
    }
  }

  /** Ten quantities with distinct `emKey`s; month-returned is `mConsumeX`. */
  lemma KeysFacts()
    ensures |Keys| == 10 && EmKeysDistinct(Keys)
    ensures Keys[9].emKey == "ThisMonthEnergyReturned" && Keys[9].apiKey == "mConsumeX"
  {
  }

  /** The quantities after power factor and voltage. */
  lemma KeysSplit()
    ensures Keys == [Current, Power, PowerFactor, Voltage]
                    + [TodayEnergy, TodayEnergyReturned, WeekEnergy, WeekEnergyReturned,
                       ThisMonthEnergy, ThisMonthEnergyReturned]
  {
  }

  lemma TailKept()
    ensures WithoutFactorAndVoltage([TodayEnergy, TodayEnergyReturned, WeekEnergy, WeekEnergyReturned,
                                     ThisMonthEnergy, ThisMonthEnergyReturned])
            == [TodayEnergy, TodayEnergyReturned, WeekEnergy, WeekEnergyReturned,
                ThisMonthEnergy, ThisMonthEnergyReturned]
  {
    FilterKeepsAll([TodayEnergy, TodayEnergyReturned, WeekEnergy, WeekEnergyReturned,
                    ThisMonthEnergy, ThisMonthEnergyReturned]);
  }

  /** `mergedKeysArr` is `keysArr` without `factor` and `voltage`, in the same order: 8 quantities. */
  lemma MergedKeysInOrder()
    ensures MergedKeys() == [Current, Power, TodayEnergy, TodayEnergyReturned,
                             WeekEnergy, WeekEnergyReturned, ThisMonthEnergy, ThisMonthEnergyReturned]
  {
    var rest := [TodayEnergy, TodayEnergyReturned, WeekEnergy, WeekEnergyReturned,
                 ThisMonthEnergy, ThisMonthEnergyReturned];
    KeysSplit();
    FilterAppend([Current, Power, PowerFactor, Voltage], rest);
    FilterFront(Current, Power, PowerFactor, Voltage);
    TailKept();
  }

  /** No merged quantity is `factor` or `voltage`. */
  lemma MergedKeysExclude(q: Quantity)
    requires q in MergedKeys()
    ensures q in Keys && q.apiKey != "factor" && q.apiKey != "voltage"
  {
    FilterMembers(Keys, q);
  }

  /** The merged quantities have distinct `emKey`s. */
  lemma MergedKeysDistinct()
    ensures EmKeysDistinct(MergedKeys())
  {
    KeysFacts();
    FilterKeepsDistinct(Keys);
  }

  /** The catalog holds 180 distinct state ids. */
  lemma StatesDistinct()
    ensures |States()| == 180 && DistinctKeys(States()) && |KeySet(States())| == 180
  {
    ChannelsBijection();
    KeysFacts();
    ChannelCatalogDistinct(Channels, Keys, Plain);
  }

  /**
   * Each state id `"{label}.{emKey}"` maps to that quantity's definition, read through
   * `getElectricity(Channels[label], apiKey)`.
   */
  lemma StatesLookup(i: nat, j: nat)
    requires i < |Channels| && j < |Keys|
    ensures Lookup(States(), CatalogKey(Channels[i].0, Keys[j].emKey))
            == Some(StateOf(Keys[j], ElectricityGetter(Channels[i].1, Keys[j].apiKey)))
  {
    ChannelsBijection();
    KeysFacts();
    ChannelCatalogLookup(Channels, Keys, Plain, i, j);
  }

  /**
   * Every entry is in the `Appliance.Control.ElectricityX` group with the all-channel
   * payload and ack `electricity`, reads one of the channels 1..18, and has role `value.{apiKey}`.
   */
  lemma StatesEntry(n: nat)
    requires n < |States()|
    ensures var e := States()[n].1;
      && e.http.Some?
      && e.http.value.namespace == ElectricityNamespace
      && e.http.value.payload == ChannelQuery("electricity", AllChannels)
      && e.http.value.ack == "electricity"
      && e.http.value.getter.ElectricityGetter?
      && 1 <= e.http.value.getter.channel <= 18
      && e.common.role == "value." + e.http.value.getter.apiKey
  {
    ChannelsShape();
    ChannelCatalogEntry(Channels, Keys, Plain, n);
    DivBound(n, |Channels|, |Keys|);
  }

  /**
   * The merged catalog holds 8 distinct state ids, the merged quantities' `emKey`s,
   * each read through `getElectricity(0xffff, apiKey)`.
   */
  lemma MergedStatesFacts()
    ensures |MergedStates()| == 8 && DistinctKeys(MergedStates()) && |KeySet(MergedStates())| == 8
    ensures forall j :: 0 <= j < |MergedKeys()| ==>
      Lookup(MergedStates(), MergedKeys()[j].emKey)
        == Some(StateOf(MergedKeys()[j], ElectricityGetter(AllChannels, MergedKeys()[j].apiKey)))
  {
    MergedKeysInOrder();
    MergedKeysDistinct();
    MergedCatalogDistinct(MergedKeys());
    forall j | 0 <= j < |MergedKeys()|
      ensures Lookup(MergedStates(), MergedKeys()[j].emKey)
              == Some(StateOf(MergedKeys()[j], ElectricityGetter(AllChannels, MergedKeys()[j].apiKey)))
    {
      MergedCatalogLookup(MergedKeys(), j);
    }
  }
}
