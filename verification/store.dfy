/**
 * The host's object database as the engine sees it: typed objects by id, and state
 * values by id. `objectHelper.setOrUpdateObject`, `getObjectAsync`, `delObjectAsync`
 * and `setStateAsync` act on it.
 */
module Store {
  import opened Wrappers
  import opened Json
  import opened Catalog
  import opened Telemetry

  /** An object the engine creates: a device, a channel folder, or a datapoint. */
  datatype ObjDef =
    | DeviceObj(name: string, onlineId: string, info: Announcement)
    | ChannelObj(name: string)
    | StateObj(common: Common)

  datatype Db = Db(objects: map<string, ObjDef>, states: map<string, Value>)

  const EmptyDb := Db(map[], map[])

  /**
   * `setOrUpdateObject(id, obj, ['name'], value)`: the object is created or replaced, and
   * its state is written only when an initial value is given (not `undefined`).
   */
  function Upserted(db: Db, id: string, obj: ObjDef, v: Value): (r: Db)
    ensures id in r.objects && r.objects[id] == obj
    ensures r.objects.Keys == db.objects.Keys + {id}
    ensures forall k :: k in db.objects && k != id ==> r.objects[k] == db.objects[k]
    ensures v != Undefined ==> id in r.states && r.states[id] == v
    ensures forall k :: k in db.states && (k != id || v == Undefined) ==> k in r.states && r.states[k] == db.states[k]
    ensures r.states.Keys == if v == Undefined then db.states.Keys else db.states.Keys + {id}
  {
    Db(db.objects[id := obj], if v == Undefined then db.states else db.states[id := v])
  }

  /** `setStateAsync(id, {val, ack: true})`: the value is stored whether or not the object exists. */
  function WithState(db: Db, id: string, v: Value): (r: Db)
    ensures r.objects == db.objects
    ensures id in r.states && r.states[id] == v
    ensures r.states.Keys == db.states.Keys + {id}
    ensures forall k :: k in db.states && k != id ==> r.states[k] == db.states[k]
  {
    Db(db.objects, db.states[id := v])
  }

  /** `delObjectAsync(id)`: the object is gone; state values are left alone. */
  function Deleted(db: Db, id: string): (r: Db)
    ensures id !in r.objects
    ensures r.objects.Keys == db.objects.Keys - {id}
    ensures forall k :: k in r.objects ==> r.objects[k] == db.objects[k]
    ensures r.states == db.states
  {
    Db(db.objects - {id}, db.states)
  }

  /** Repeating an identical `setOrUpdateObject` call changes nothing. */
  lemma UpsertIdempotent(db: Db, id: string, obj: ObjDef, v: Value)
    ensures Upserted(Upserted(db, id, obj, v), id, obj, v) == Upserted(db, id, obj, v)
  {
    var once := Upserted(db, id, obj, v);
    var twice := Upserted(once, id, obj, v);
    assert twice.objects == once.objects;
    assert twice.states == once.states;
  }

  /** Deleting twice is deleting once, and deleting an absent object changes nothing. */
  lemma DeleteIdempotent(db: Db, id: string)
    ensures Deleted(Deleted(db, id), id) == Deleted(db, id)
    ensures id !in db.objects ==> Deleted(db, id) == db
  {
    assert Deleted(Deleted(db, id), id).objects == Deleted(db, id).objects;
    if id !in db.objects {
      assert Deleted(db, id).objects == db.objects;
    }
  }

  /** The shared object database; sessions and the adapter act on it through these methods. */
  class ObjectStore {
    var db: Db

    constructor()
      ensures db == EmptyDb
    {
      db := EmptyDb;
    }

    /** `getObjectAsync(id)` resolves to an object. */
    function Has(id: string): bool
      reads this
    {
      id in db.objects
    }

    /** `getStateAsync(id)`: the stored value, if any. */
    function StateValue(id: string): Option<Value>
      reads this
    {
      if id in db.states then Some(db.states[id]) else None
    }

    method Upsert(id: string, obj: ObjDef, v: Value)
      modifies this
      ensures db == Upserted(old(db), id, obj, v)
    {
      db := Upserted(db, id, obj, v);
    }

    method SetState(id: string, v: Value)
      modifies this
      ensures db == WithState(old(db), id, v)
    {
      db := WithState(db, id, v);
    }

    method Delete(id: string)
      modifies this
      ensures db == Deleted(old(db), id)
    {
      db := Deleted(db, id);
    }
  }
}
