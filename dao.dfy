/** `Dao`: the data access object that keeps the data of its last insert, update or select
    and converts between entities and arrays through a converter. The converter's two
    conversions are given as functions on rows; its `set` writes one field of a row. */
module Daos {
  import opened Php
  import opened Naming
  import opened Schema
  import opened Query

  /** The `$data` a `Dao` keeps: none yet, the row of the last insert or update, or the
      entities of the last select. */
  datatype Data = NoData | Record(row: Row) | Records(rows: seq<Row>)

  /** The converted form of every fetched row, in order. */
  function ToEntities(toEntity: Row -> Row, rows: seq<Row>): (r: seq<Row>)
    ensures |r| == |rows| && forall i :: 0 <= i < |rows| ==> r[i] == toEntity(rows[i])
  {
    if rows == [] then [] else [toEntity(rows[0])] + ToEntities(toEntity, rows[1..])
  }

  class Dao {
    const table: string
    const primaryKey: string
    const insertSerial: bool
    const columns: seq<string>
    const stamps: StampNames
    const clock: Clock
    const toArray: Row -> Row    // `$convert->toArray`
    const toEntity: Row -> Row   // `$convert->toEntity`
    var data: Data               // `$data`
    var where: seq<Cond>         // conditions on the last query builder
    var issued: seq<Statement>   // statements executed so far

    /** `new Dao($db, $convert)` for a class named `className` configured as `config`. */
    constructor (className: string, config: Config, clock: Clock, toArray: Row -> Row, toEntity: Row -> Row)
      ensures table == TableName(className, config.table)
      ensures primaryKey == KeyName(table, config.primaryKey)
      ensures insertSerial == config.insertSerial && columns == config.columns && stamps == config.stamps
      ensures this.clock == clock && this.toArray == toArray && this.toEntity == toEntity
      ensures data == NoData && where == [] && issued == []
    {
      table := TableName(className, config.table);
      primaryKey := KeyName(TableName(className, config.table), config.primaryKey);
      insertSerial := config.insertSerial;
      columns := config.columns;
      stamps := config.stamps;
      this.clock := clock;
      this.toArray := toArray;
      this.toEntity := toEntity;
      data := NoData;
      where := [];
      issued := [];
    }

    /** `query()`: a fresh builder on the table. */
    method Query()
      modifies this`where
      ensures where == []
    {
      where := [];
    }

    /** `where($column, '=', $value)` forwarded by `__call`: one more condition. */
    method Where(c: Cond)
      modifies this`where
      ensures where == old(where) + [c]
    {
      where := where + [c];
    }

    /** `insert($data)`: keeps the stamped data, inserts its array form and, with a serial
        key, writes the generated id into the kept data under the primary key; then a
        fresh builder. Returns the id, or true without a serial key. */
    method Insert(row: Row, reading: Moment, generatedId: Value) returns (id: Value)
      modifies this`data, this`where, this`issued, clock
      ensures clock.now == Some(CurrentTime(old(clock.now), reading))
      ensures var stamped := Stamp(row, stamps, CurrentTime(old(clock.now), reading), true);
        && issued == old(issued)
             + [if insertSerial then InsertGetId(table, toArray(stamped)) else InsertInto(table, toArray(stamped))]
        && data == Record(if insertSerial then Set(stamped, primaryKey, generatedId) else stamped)
      ensures id == if insertSerial then generatedId else Bool(true)
      ensures where == []
    {
      var now := clock.Current(reading);
      data := Record(Stamp(row, stamps, now, true));
      var values := toArray(data.row);
      if insertSerial {
        issued := issued + [InsertGetId(table, values)];
        id := generatedId;
        data := Record(Set(data.row, primaryKey, id));
      } else {
        issued := issued + [InsertInto(table, values)];
        id := Bool(true);
      }
      Query();
    }

    /** `update($data)`: keeps the stamped data and updates the rows the builder selects
        with its array form; then a fresh builder. */
    method Update(row: Row, reading: Moment)
      modifies this`data, this`where, this`issued, clock
      ensures clock.now == Some(CurrentTime(old(clock.now), reading))
      ensures var stamped := Stamp(row, stamps, CurrentTime(old(clock.now), reading), false);
        && issued == old(issued) + [UpdateWhere(table, old(where), toArray(stamped))]
        && data == Record(stamped)
      ensures where == []
    {
      var now := clock.Current(reading);
      data := Record(Stamp(row, stamps, now, false));
      issued := issued + [UpdateWhere(table, where, toArray(data.row))];
      Query();
    }

    /** `select($columns)`: the rows the builder selects (`fetched`), each converted to an
        entity in place, kept and returned; then a fresh builder. */
    method Select(columns: seq<string>, fetched: seq<Row>) returns (rows: seq<Row>)
      modifies this`data, this`where, this`issued
      ensures issued == old(issued) + [SelectWhere(table, old(where), columns)]
      ensures rows == ToEntities(toEntity, fetched)
      ensures data == Records(rows)
      ensures where == []
    {
      issued := issued + [SelectWhere(table, where, columns)];
      rows := fetched;
      var i := 0;
      while i < |rows|
        invariant 0 <= i <= |rows| == |fetched|
        invariant forall j :: 0 <= j < i ==> rows[j] == toEntity(fetched[j])
        invariant forall j :: i <= j < |rows| ==> rows[j] == fetched[j]
      {
        rows := rows[i := toEntity(rows[i])];
        i := i + 1;
      }
      data := Records(rows);
      Query();
    }

    /** `delete($id)`: deletes the rows the builder selects, passing the id on; then a fresh builder. */
    method Delete(id: Value)
      modifies this`where, this`issued
      ensures issued == old(issued) + [DeleteWhere(table, old(where), id)]
      ensures where == []
    {
      issued := issued + [DeleteWhere(table, where, id)];
      Query();
    }
  }

  /** With a serial key, the data an insert keeps holds the generated id under the primary
      key and the inserted columns unchanged beside it. */
  lemma InsertKeepsId(row: Row, stamps: StampNames, now: Moment, primaryKey: string, id: Value)
    ensures var kept := Set(Stamp(row, stamps, now, true), primaryKey, id);
      && Get(kept, primaryKey) == id
      && row.keys <= kept.keys
      && forall k :: k != primaryKey && k !in StampKeys(stamps, true) ==> Get(kept, k) == Get(row, k)
  {
  }
}
