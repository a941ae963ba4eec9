/** `DaoEntity`: a `DaoArray` that trades in entity objects. It remembers which entity
    objects it loaded or inserted (so that saving one again updates it) and which it deleted. */
module DaoEntities {
  import opened Php
  import opened Schema
  import opened Query
  import opened DaoArrays

  /** An entity object as the converter builds it: an object holding the row's fields. The
      converter is taken as the identity on rows, so turning an entity back into a row gives
      its fields. */
  class Entity {
    var fields: Row

    constructor (fields: Row)
      ensures this.fields == fields
    {
      this.fields := fields;
    }
  }

  /** What `load($id)` returns: the first entity for an id (null when none was found),
      or the whole list without one. */
  datatype Loaded = One(entity: Option<Entity>) | All(entities: seq<Entity>)

  class DaoEntity {
    const dao: DaoArray              // the `DaoArray` part of the object
    var entity: Option<Entity>       // the entity last saved or removed
    var loaded: seq<Entity>          // `$loadedEntity`: entities loaded or inserted, in order
    var deleted: seq<Entity>         // `$deletedEntity`: entities removed, in order

    constructor (dao: DaoArray)
      ensures this.dao == dao && entity == None && loaded == [] && deleted == []
    {
      this.dao := dao;
      entity := None;
      loaded := [];
      deleted := [];
    }

    /** `isRetrieved($entity)`: this DAO loaded or inserted that very object. */
    function IsRetrieved(e: Entity): (b: bool)
      reads this
      ensures b <==> exists i :: 0 <= i < |loaded| && loaded[i] == e
    {
      e in loaded
    }

    /** `isDeleted($entity)`: this DAO removed that very object. */
    function IsDeleted(e: Entity): (b: bool)
      reads this
      ensures b <==> exists i :: 0 <= i < |deleted| && deleted[i] == e
    {
      e in deleted
    }

    /** `hash($entity)`: records the object as retrieved. */
    method Hash(e: Entity)
      modifies this`loaded
      ensures loaded == old(loaded) + [e]
      ensures IsRetrieved(e)
    {
      loaded := loaded + [e];
    }

    /** `create($data)`: a new entity holding the data; the DAO does not remember it. */
    method Create(data: Row) returns (e: Entity)
      ensures fresh(e) && e.fields == data
      ensures !IsRetrieved(e)
    {
      e := new Entity(data);
    }

    /** `save($entity)`: an entity this DAO retrieved is updated by its key; any other is
        inserted, receives the returned id under the primary key and counts as retrieved
        from then on. The time stamps go to the database only, not into the entity. */
    method Save(e: Entity, reading: Moment, generatedId: Value)
      modifies this`entity, this`loaded, dao`where, dao`issued, dao.clock, e
      ensures dao.clock.now == Some(CurrentTime(old(dao.clock.now), reading))
      ensures entity == Some(e)
      ensures IsRetrieved(e)
      ensures dao.where == []
      ensures var now := CurrentTime(old(dao.clock.now), reading);
        old(IsRetrieved(e)) ==>
          && dao.issued == old(dao.issued)
               + [UpdateWhere(dao.table, old(dao.where) + [Eq(dao.primaryKey, Get(old(e.fields), dao.primaryKey))],
                              Stamp(old(e.fields), dao.stamps, now, false))]
          && e.fields == old(e.fields)
          && loaded == old(loaded)
      ensures var now := CurrentTime(old(dao.clock.now), reading);
        var row := Stamp(old(e.fields), dao.stamps, now, true);
        var id := if dao.insertSerial then generatedId else Bool(true);
        !old(IsRetrieved(e)) ==>
          && dao.issued == old(dao.issued)
               + [if dao.insertSerial then InsertGetId(dao.table, row) else InsertInto(dao.table, row)]
          && e.fields == Set(old(e.fields), dao.primaryKey, id)
          && loaded == old(loaded) + [e]
    {
      entity := Some(e);
      var data := e.fields;
      if IsRetrieved(e) {
        var id := Get(e.fields, dao.primaryKey);
        dao.UpdateId(Scalar(id), data, reading);
      } else {
        var id := dao.Insert(data, reading, generatedId);
        e.fields := Set(e.fields, dao.primaryKey, id);
        Hash(e);
      }
    }

    /** `load($id)`: selects all columns (only the row with that id when the id is truthy),
        turns each row into a new entity and records every one as retrieved. */
    method Load(id: Value, fetched: seq<Row>) returns (r: Loaded)
      modifies this`loaded, dao`where, dao`issued
      ensures dao.issued == old(dao.issued)
                + [SelectWhere(dao.table, old(dao.where) + (if Truthy(id) then [Eq(dao.primaryKey, id)] else []), ["*"])]
      ensures dao.where == []
      ensures exists list: seq<Entity> ::
        && |list| == |fetched|
        && (forall i :: 0 <= i < |list| ==> fresh(list[i]) && list[i].fields == fetched[i])
        && (forall i, j :: 0 <= i < j < |list| ==> list[i] != list[j])
        && loaded == old(loaded) + list
        && r == if !Truthy(id) then All(list) else One(if list == [] then None else Some(list[0]))
    {
      if Truthy(id) {
        dao.SetId(Scalar(id));
      }
      assert dao.where == old(dao.where) + (if Truthy(id) then [Eq(dao.primaryKey, id)] else []);
      var rows := dao.Select(["*"], fetched);
      ghost var selected := dao.issued;
      var list: seq<Entity> := [];
      var i := 0;
      while i < |rows|
        invariant 0 <= i <= |rows| && |list| == i
        invariant forall j :: 0 <= j < i ==> fresh(list[j]) && list[j].fields == rows[j]
        invariant forall j, k :: 0 <= j < k < i ==> list[j] != list[k]
        invariant loaded == old(loaded) + list
        invariant dao.issued == selected && dao.where == []
      {
        var e := new Entity(rows[i]);
        list := list + [e];
        Hash(e);
        i := i + 1;
      }
      if Truthy(id) {
        r := One(if list == [] then None else Some(list[0]));
      } else {
        r := All(list);
      }
    }

    /** `remove($entity)`: passes the entity's key value to the builder's delete and records
        the object as deleted. */
    method Remove(e: Entity)
      modifies this`entity, this`deleted, dao`where, dao`issued
      ensures entity == Some(e)
      ensures dao.issued == old(dao.issued) + [DeleteWhere(dao.table, old(dao.where), Get(e.fields, dao.primaryKey))]
      ensures dao.where == []
      ensures deleted == old(deleted) + [e] && IsDeleted(e)
      ensures loaded == old(loaded)
    {
      entity := Some(e);
      var key := Get(e.fields, dao.primaryKey);
      dao.Delete(key);
      deleted := deleted + [e];
    }
  }

  /** A created entity is inserted by its first save and updated by its second, by the id
      the first one returned; both saves stamp with the same instant. */
  method SaveTwice(d: DaoEntity, data: Row, first: Moment, second: Moment)
    requires d.dao.insertSerial && d.dao.where == []
    modifies d, d.dao, d.dao.clock
  {
    var e := d.Create(data);
    ghost var instant := CurrentTime(d.dao.clock.now, first);
    d.Save(e, first, Int(42));
    assert d.dao.issued[|d.dao.issued| - 1].InsertGetId?;
    assert Get(e.fields, d.dao.primaryKey) == Int(42);
    d.Save(e, second, Int(43));
    assert d.dao.issued[|d.dao.issued| - 1].UpdateWhere?;
    assert d.dao.issued[|d.dao.issued| - 1].where == [Eq(d.dao.primaryKey, Int(42))];
    assert d.dao.clock.now == Some(instant);
    assert d.dao.issued[|d.dao.issued| - 1].row == Stamp(e.fields, d.dao.stamps, instant, false);
  }
}
