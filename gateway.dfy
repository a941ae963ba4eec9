/** `Gateway`: a table data gateway. It names its table after its class and its key after
    the table, and runs finds, updates, deletes and inserts through a query object, which is
    modelled by its conditions and the log of executed statements. */
module DbGateway {
  import opened Php
  import opened Naming
  import opened Query

  /** `substr($class, strrpos($class, '\\'))`: without a `+ 1` the table keeps the
      backslash before the base name; a name without a backslash is taken whole. */
  function GatewayTableName(className: string): (t: string)
    ensures '\\' in className ==> t == "\\" + Basename(className)
    ensures '\\' !in className ==> t == className
  {
    if '\\' in className then
      var b := Basename(className);
      assert |b| < |className|;
      assert className[|className| - |b| - 1..] == [className[|className| - |b| - 1]] + className[|className| - |b|..];
      className[|className| - |b| - 1..]
    else className
  }

  /** A namespaced gateway class `ns\Users` gets the table `\Users`, unlike a DAO of the same
      class, whose table is `Users`; a class outside any namespace gets its own name. */
  lemma GatewayTableKeepsBackslash(ns: string, base: string)
    requires '\\' !in base
    ensures GatewayTableName(ns + "\\" + base) == "\\" + base
    ensures TableName(ns + "\\" + base, "") == base
    ensures GatewayTableName(base) == base
  {
    var name := ns + "\\" + base;
    BasenameOfQualified(ns, base);
    assert name[|ns|] == '\\';
    assert name[|name| - |base| - 1..] == "\\" + base;
  }

  class Gateway {
    const className: string
    var table: string
    var idName: string
    var where: seq<Cond>         // conditions on the current query
    var issued: seq<Statement>   // statements executed so far

    /** `new Gateway()` for a class named `className` that presets `presetTable` and
        `presetId` ("" when unset). */
    constructor (className: string, presetTable: string, presetId: string)
      ensures this.className == className
      ensures table == if TruthyName(presetTable) then presetTable else GatewayTableName(className)
      ensures idName == KeyName(table, presetId)
      ensures where == [] && issued == []
    {
      this.className := className;
      table := presetTable;
      idName := presetId;
      where := [];
      issued := [];
      new;
      if !TruthyName(table) {
        SetTable("");
      }
      if !TruthyName(idName) {
        SetId("");
      }
    }

    /** `setTable($table)`: the given name, or when it is falsy the name derived from the class. */
    method SetTable(name: string)
      modifies this`table
      ensures table == if TruthyName(name) then name else GatewayTableName(className)
    {
      if TruthyName(name) {
        table := name;
      } else {
        table := GatewayTableName(className);
      }
    }

    /** `setId($id)`: the given key name, or when it is falsy `<table>_id`. */
    method SetId(name: string)
      modifies this`idName
      ensures idName == KeyName(table, name)
    {
      if TruthyName(name) {
        idName := name;
      } else {
        idName := table + "_id";
      }
    }

    /** `query()`: a fresh query on the table and key. */
    method Query()
      modifies this`where
      ensures where == []
    {
      where := [];
    }

    /** `fetch($value, $column)`: on the current query, adds `column = value` unless the
        value is null (the column defaults to the key), then selects; `fetched` is what the
        database returns. */
    method Fetch(value: Value, column: string, fetched: seq<Row>) returns (rows: seq<Row>)
      modifies this`where, this`issued
      ensures var col := if TruthyName(column) then column else idName;
        where == old(where) + (if value.Null? then [] else [Eq(col, value)])
      ensures issued == old(issued) + [SelectWhere(table, where, [])]
      ensures rows == fetched
    {
      var col := column;
      if !TruthyName(col) {
        col := idName;
      }
      if !value.Null? {
        where := where + [Eq(col, value)];
      }
      issued := issued + [SelectWhere(table, where, [])];
      rows := fetched;
    }

    /** `find($id)`: a fresh query for the row with that key. */
    method Find(id: Value, fetched: seq<Row>) returns (rows: seq<Row>)
      modifies this`where, this`issued
      ensures where == (if id.Null? then [] else [Eq(idName, id)])
      ensures issued == old(issued) + [SelectWhere(table, where, [])]
      ensures rows == fetched
    {
      Query();
      rows := Fetch(id, "", fetched);
    }

    /** `update($data, $id)`: updates the row with that key; when the id is falsy the key is
        taken out of the data and used instead. */
    method Update(data: Row, id: Value) returns (self: Gateway)
      modifies this`where, this`issued
      ensures self == this
      ensures var key := if Truthy(id) then id else Get(data, idName);
        var row := if Truthy(id) then data else Unset(data, idName);
        && where == [Eq(idName, key)]
        && issued == old(issued) + [UpdateWhere(table, [Eq(idName, key)], row)]
    {
      var key := id;
      var row := data;
      if !Truthy(key) {
        key := Get(row, idName);
        row := Unset(row, idName);
      }
      Query();
      where := [Eq(idName, key)];
      issued := issued + [UpdateWhere(table, where, row)];
      self := this;
    }

    /** `delete($id)`: deletes at most one row, the one with that key. */
    method Delete(id: Value)
      modifies this`where, this`issued
      ensures where == [Eq(idName, id)]
      ensures issued == old(issued) + [DeleteOne(table, [Eq(idName, id)])]
    {
      Query();
      where := [Eq(idName, id)];
      issued := issued + [DeleteOne(table, where)];
    }

    /** `insertData($data)`: inserts the data as given. */
    method InsertData(data: Row)
      modifies this`where, this`issued
      ensures where == []
      ensures issued == old(issued) + [InsertInto(table, data)]
    {
      Query();
      issued := issued + [InsertInto(table, data)];
    }

    /** `insertId(&$data)`: inserts the data without its key, then writes the id the
        database generated (`lastId`) back into the caller's data and returns it. */
    method InsertId(data: Row, lastId: Value) returns (id: Value, written: Row)
      modifies this`where, this`issued
      ensures where == []
      ensures issued == old(issued) + [InsertInto(table, Unset(data, idName))]
      ensures id == lastId
      ensures written == Set(Unset(data, idName), idName, lastId)
      ensures idName !in issued[|issued| - 1].row.vals
      ensures Get(written, idName) == lastId
      ensures forall k :: k != idName ==> Get(written, k) == Get(data, k)
    {
      var row := Unset(data, idName);
      InsertData(row);
      id := lastId;
      written := Set(row, idName, id);
      ReplaceMovesKeyLast(data, idName, lastId);
    }

    /** `insertValue(&$data)`: inserts the data as given and returns the key's value it
        holds, or true when it holds none. */
    method InsertValue(data: Row) returns (id: Value)
      modifies this`where, this`issued
      ensures where == []
      ensures issued == old(issued) + [InsertInto(table, data)]
      ensures id == if idName in data.vals then data.vals[idName] else Bool(true)
    {
      InsertData(data);
      if idName in data.vals {
        id := data.vals[idName];
      } else {
        id := Bool(true);
      }
    }

    /** `insert(&$data)`: `insertId`. */
    method Insert(data: Row, lastId: Value) returns (id: Value, written: Row)
      modifies this`where, this`issued
      ensures where == []
      ensures issued == old(issued) + [InsertInto(table, Unset(data, idName))]
      ensures id == lastId && written == Set(Unset(data, idName), idName, lastId)
    {
      id, written := InsertId(data, lastId);
    }
  }

  /** Updating with the data as `insertId` wrote it back targets the inserted row by its new
      id and writes the same columns the insert wrote. */
  method InsertThenUpdate(g: Gateway, data: Row, lastId: Value)
    requires WellFormed(data) && Truthy(lastId)
    modifies g
  {
    var id, written := g.InsertId(data, lastId);
    var inserted := g.issued[|g.issued| - 1].row;
    var self := g.Update(written, Null);
    assert g.issued[|g.issued| - 1] == UpdateWhere(g.table, [Eq(g.idName, lastId)], Unset(written, g.idName));
    UnsetAfterReplace(data, g.idName, lastId);
    assert Unset(written, g.idName) == inserted;
  }
}
