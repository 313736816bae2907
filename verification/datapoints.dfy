/**
 * The model registry (lib/datapoints.js): which device classes are supported, and the
 * datapoint catalog of each, completed with the shared default datapoints.
 */
module Datapoints {
  import opened Wrappers
  import opened Json
  import opened Catalog
  import Em06
  import Em06p
  import Em16p

  /** `deviceTypes`. */
  const DeviceTypes: seq<string> := ["em06", "em06p", "em16p"]

  /** `getDeviceTypeByClass(deviceClass)`: exactly the three model names are supported. */
  function GetDeviceTypeByClass(deviceClass: string): (r: bool)
    ensures r <==> deviceClass == "em06" || deviceClass == "em06p" || deviceClass == "em16p"
  {
    deviceClass in DeviceTypes
  }

  /** The catalog module of a model name. */
  function ModelCatalog(name: string): Option<Catalog> {
    if name == "em06" then Some(Em06.States())
    else if name == "em06p" then Some(Em06p.States())
    else if name == "em16p" then Some(Em16p.States())
    else None
  }

  /**
   * `getDeviceByClass(devName)`: for a supported class, the model's catalog overlaid with
   * `refossdefaults`; `undefined` for anything else, including a name that is not a string.
   */
  function GetDeviceByClass(devName: Option<Json>, defaults: Catalog): (r: Option<Catalog>)
    ensures r.Some? <==> devName.Some? && devName.value.JString? && GetDeviceTypeByClass(devName.value.s)
  {
    match devName
    case Some(JString(n)) =>
      (match ModelCatalog(n)
       case Some(model) => Some(Spread(model, defaults))
       case None => None)
    case _ => None
  }

  /** Each model catalog has distinct state ids. */
  lemma ModelCatalogDistinct(name: string)
    requires GetDeviceTypeByClass(name)
    ensures ModelCatalog(name).Some? && DistinctKeys(ModelCatalog(name).value)
  {
    if name == "em06" {
      Em06.StatesDistinct();
    } else if name == "em06p" {
      Em06p.StatesDistinct();
    } else {
      Em16p.StatesDistinct();
    }
  }

  /**
   * For a supported class the catalog has distinct ids: the model's ids first, in order,
   * then the defaults' new ones; a default overrides the model entry with the same id.
   */
  lemma DeviceByClassLookup(name: string, defaults: Catalog, k: string)
    requires GetDeviceTypeByClass(name) && DistinctKeys(defaults)
    ensures var model := ModelCatalog(name).value;
      var r := GetDeviceByClass(Some(JString(name)), defaults).value;
      && DistinctKeys(r)
      && KeySet(r) == KeySet(model) + KeySet(defaults)
      && |r| >= |model|
      && (forall i :: 0 <= i < |model| ==> r[i].0 == model[i].0)
      && Lookup(r, k) == if Lookup(defaults, k).Some? then Lookup(defaults, k) else Lookup(model, k)
  {
    ModelCatalogDistinct(name);
    SpreadSemantics(ModelCatalog(name).value, defaults, k);
  }

  /** The model tables read only the snapshot: none of their datapoints reads the session. */
  lemma ModelReadsSnapshot(name: string, i: nat)
    requires GetDeviceTypeByClass(name) && i < |ModelCatalog(name).value|
    ensures !ReadsSession(ModelCatalog(name).value[i].1)
  {
    if name == "em06" {
      Em06.StatesEntry(i);
    } else if name == "em06p" {
      Em06p.StatesEntry(i);
    } else {
      Em16p.StatesEntry(i);
    }
  }

  /**
   * A datapoint of a supported class that reads the session is one of `refossdefaults`:
   * the spread takes it from the defaults, unchanged.
   */
  lemma SessionReadsFromDefaults(name: string, defaults: Catalog, k: string)
    requires GetDeviceTypeByClass(name) && DistinctKeys(defaults)
    requires var r := GetDeviceByClass(Some(JString(name)), defaults).value;
      Lookup(r, k).Some? && ReadsSession(Lookup(r, k).value)
    ensures Lookup(defaults, k) == Lookup(GetDeviceByClass(Some(JString(name)), defaults).value, k)
  {
    DeviceByClassLookup(name, defaults, k);
    var model := ModelCatalog(name).value;
    if Lookup(defaults, k).None? {
      var i := LookupFound(model, k);
      ModelReadsSnapshot(name, i);
    }
  }
}
