/** The statements a DAO hands to its query builder. The builder and the database behind it
    are not modelled; each DAO keeps the conditions on its current builder and the log of
    the statements it has executed. */
module Query {
  import opened Php

  /** A `where column = value` condition. */
  datatype Cond = Eq(column: string, value: Value)

  datatype Statement =
    | InsertInto(table: string, row: Row)
    | InsertGetId(table: string, row: Row)
    | UpdateWhere(table: string, where: seq<Cond>, row: Row)
    | SelectWhere(table: string, where: seq<Cond>, columns: seq<string>)
    | DeleteWhere(table: string, where: seq<Cond>, id: Value)
    | DeleteOne(table: string, where: seq<Cond>)   // a delete limited to one row
}
