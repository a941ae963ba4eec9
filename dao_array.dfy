/** `DaoArray`: a table's data access object working on plain arrays. It names its table and
    key by convention, stamps date-time columns and hands each operation to a fresh query
    builder, which is modelled by its pending conditions and the log of executed statements. */
module DaoArrays {
  import opened Php
  import opened Naming
  import opened Schema
  import opened Query

  /** The argument of `setId`: a key value, or an array holding it under the primary key. */
  datatype IdArg = Scalar(v: Value) | Arr(row: Row)

  class DaoArray {
    const table: string
    const primaryKey: string
    const insertSerial: bool
    const columns: seq<string>
    const stamps: StampNames
    const clock: Clock
    var where: seq<Cond>         // conditions on the current query builder
    var issued: seq<Statement>   // statements executed so far

    /** `new DaoArray($db)` for a class named `className` configured as `config`. */
    constructor (className: string, config: Config, clock: Clock)
      ensures table == TableName(className, config.table)
      ensures primaryKey == KeyName(table, config.primaryKey)
      ensures insertSerial == config.insertSerial && columns == config.columns && stamps == config.stamps
      ensures this.clock == clock
      ensures where == [] && issued == []
    {
      table := TableName(className, config.table);
      primaryKey := KeyName(TableName(className, config.table), config.primaryKey);
      insertSerial := config.insertSerial;
      columns := config.columns;
      stamps := config.stamps;
      this.clock := clock;
      where := [];
      issued := [];
    }

    /** `query()`: a fresh builder on the table, with no condition. */
    method Query()
      modifies this`where
      ensures where == []
    {
      where := [];
    }

    /** `where($column, '=', $value)` forwarded by `__call` to the builder: one more condition. */
    method Where(c: Cond)
      modifies this`where
      ensures where == old(where) + [c]
    {
      where := where + [c];
    }

    /** The key value `setId` selects by. */
    function IdValue(id: IdArg): (v: Value)
      ensures id.Scalar? ==> v == id.v
      ensures id.Arr? ==> (primaryKey in id.row.vals ==> v == id.row.vals[primaryKey])
                          && (primaryKey !in id.row.vals ==> v == Null)
    {
      match id
      case Scalar(v) => v
      case Arr(row) => Get(row, primaryKey)
    }

    /** `setId($id)`: restricts the builder to the row whose primary key is the id. */
    method SetId(id: IdArg)
      modifies this`where
      ensures where == old(where) + [Eq(primaryKey, IdValue(id))]
    {
      var v: Value;
      if id.Arr? {
        v := Get(id.row, primaryKey);
      } else {
        v := id.v;
      }
      where := where + [Eq(primaryKey, v)];
    }

    /** `updateTimeStamps($data, $insert)`: writes the stamp columns from the shared instant. */
    method UpdateTimeStamps(data: Row, insert: bool, reading: Moment) returns (r: Row)
      modifies clock
      ensures clock.now == Some(CurrentTime(old(clock.now), reading))
      ensures r == Stamp(data, stamps, CurrentTime(old(clock.now), reading), insert)
    {
      var now := clock.Current(reading);
      r := Stamp(data, stamps, now, insert);
    }

    /** `insert($data)`: inserts the stamped row, through `insertGetId` when the DAO has a
        serial key (returning the generated id) and through `insert` otherwise (returning
        true); then a fresh builder. */
    method Insert(data: Row, reading: Moment, generatedId: Value) returns (id: Value)
      modifies this`where, this`issued, clock
      ensures clock.now == Some(CurrentTime(old(clock.now), reading))
      ensures var row := Stamp(data, stamps, CurrentTime(old(clock.now), reading), true);
        issued == old(issued) + [if insertSerial then InsertGetId(table, row) else InsertInto(table, row)]
      ensures id == if insertSerial then generatedId else Bool(true)
      ensures where == []
    {
      var row := UpdateTimeStamps(data, true, reading);
      if insertSerial {
        issued := issued + [InsertGetId(table, row)];
        id := generatedId;
      } else {
        issued := issued + [InsertInto(table, row)];
        id := Bool(true);
      }
      Query();
    }

    /** `update($data)`: updates the rows the builder selects with the stamped data. */
    method Update(data: Row, reading: Moment)
      modifies this`where, this`issued, clock
      ensures clock.now == Some(CurrentTime(old(clock.now), reading))
      ensures issued == old(issued)
                        + [UpdateWhere(table, old(where), Stamp(data, stamps, CurrentTime(old(clock.now), reading), false))]
      ensures where == []
    {
      var row := UpdateTimeStamps(data, false, reading);
      issued := issued + [UpdateWhere(table, where, row)];
      Query();
    }

    /** `update($id, $data)`: the same, restricted first to the row with that id. */
    method UpdateId(id: IdArg, data: Row, reading: Moment)
      modifies this`where, this`issued, clock
      ensures clock.now == Some(CurrentTime(old(clock.now), reading))
      ensures issued == old(issued)
                        + [UpdateWhere(table, old(where) + [Eq(primaryKey, IdValue(id))],
                                       Stamp(data, stamps, CurrentTime(old(clock.now), reading), false))]
      ensures where == []
    {
      SetId(id);
      Update(data, reading);
    }

    /** `select($columns)`: the rows the builder selects (`fetched`, as the database returns
        them); then a fresh builder. */
    method Select(columns: seq<string>, fetched: seq<Row>) returns (rows: seq<Row>)
      modifies this`where, this`issued
      ensures issued == old(issued) + [SelectWhere(table, old(where), columns)]
      ensures rows == fetched
      ensures where == []
    {
      issued := issued + [SelectWhere(table, where, columns)];
      rows := fetched;
      Query();
    }

    /** `delete($id)`: deletes the rows the builder selects, passing the id on; then a fresh builder. */
    method Delete(id: Value)
      modifies this`where, this`issued
      ensures issued == old(issued) + [DeleteWhere(table, old(where), id)]
      ensures where == []
    {
      issued := issued + [DeleteWhere(table, where, id)];
      Query();
    }
  }

  /** Two inserts through DAOs sharing one clock stamp the same instant, whatever the clock
      reads the second time: the `static $now` is taken once. */
  method SharedInstant(users: DaoArray, posts: DaoArray, first: Moment, second: Moment)
    requires users.clock == posts.clock && users != posts
    requires users.clock.now == None
    requires users.stamps == posts.stamps == BaseConfig.stamps
    modifies users, posts, users.clock
  {
    var a := users.Insert(EmptyRow, first, Int(1));
    var b := posts.Insert(EmptyRow, second, Int(2));
    var stamped := posts.issued[|posts.issued| - 1].row;
    assert stamped == Stamp(EmptyRow, BaseConfig.stamps, first, true);
    StampedDateTimes(EmptyRow, BaseConfig.stamps, first, true);
    assert Get(stamped, "created_at") == Get(stamped, "updated_at") == Str(first.dateTime);
  }
}
