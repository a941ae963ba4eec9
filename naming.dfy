/** The naming conventions: table names from class names, key names from table names,
    and join-table names from two table names. */
module Naming {
  import opened Php

  /** The part of a class name after its last backslash; the whole name when it has none. */
  function Basename(name: string): (b: string)
    ensures '\\' !in b
    ensures |b| <= |name| && b == name[|name| - |b|..]
    ensures |b| < |name| ==> name[|name| - |b| - 1] == '\\'
    ensures '\\' !in name ==> b == name
  {
    if name == [] then []
    else if name[|name| - 1] == '\\' then []
    else Basename(name[..|name| - 1]) + [name[|name| - 1]]
  }

  /** A namespaced class name `ns\Base` gives `Base`. */
  lemma BasenameOfQualified(ns: string, base: string)
    requires '\\' !in base
    ensures Basename(ns + "\\" + base) == base
  {
    var name := ns + "\\" + base;
    assert name[|ns|] == '\\';
    assert name[|name| - |base|..] == base;
  }

  /** The table of a DAO: the preset name when it is truthy, else the class's base name. */
  function TableName(className: string, preset: string): (t: string)
    ensures TruthyName(preset) ==> t == preset
    ensures !TruthyName(preset) ==> '\\' !in t && |t| <= |className| && t == className[|className| - |t|..]
    ensures !TruthyName(preset) && |t| < |className| ==> className[|className| - |t| - 1] == '\\'
    ensures !TruthyName(preset) && '\\' !in className ==> t == className
  {
    if TruthyName(preset) then preset else Basename(className)
  }

  /** The primary key of a DAO: the preset name when it is truthy, else `<table>_id`. */
  function KeyName(table: string, preset: string): (k: string)
    ensures TruthyName(preset) ==> k == preset
    ensures !TruthyName(preset) ==> |k| == |table| + 3 && k[..|table|] == table && k[|table|..] == "_id"
  {
    if TruthyName(preset) then preset else table + "_id"
  }

  /** Byte-wise string order, which PHP's `sort` applies to two non-numeric strings. */
  predicate LexLe(a: string, b: string)
  {
    a == [] || (b != [] && (a[0] < b[0] || (a[0] == b[0] && LexLe(a[1..], b[1..]))))
  }

  lemma {:induction false} LexLeTotal(a: string, b: string)
    ensures LexLe(a, b) || LexLe(b, a)
  {
    if a != [] && b != [] && a[0] == b[0] {
      LexLeTotal(a[1..], b[1..]);
    }
  }

  lemma {:induction false} LexLeAntisymmetric(a: string, b: string)
    requires LexLe(a, b) && LexLe(b, a)
    ensures a == b
  {
    if a != [] && b != [] {
      LexLeAntisymmetric(a[1..], b[1..]);
      assert a == [a[0]] + a[1..] && b == [b[0]] + b[1..];
    }
  }

  /** `implode('_', sort([$a, $b]))`: the join table of two tables. */
  function JoinName(a: string, b: string): (j: string)
    ensures j == a + "_" + b || j == b + "_" + a
    ensures |j| == |a| + |b| + 1
  {
    if LexLe(a, b) then a + "_" + b else b + "_" + a
  }

  /** The join-table name is the smaller table name, `_`, then the larger one. */
  lemma JoinNameSorted(a: string, b: string)
    ensures || (JoinName(a, b) == a + "_" + b && LexLe(a, b))
            || (JoinName(a, b) == b + "_" + a && LexLe(b, a))
  {
    LexLeTotal(a, b);
  }

  /** The join-table name does not depend on which side is the source. */
  lemma JoinNameSymmetric(a: string, b: string)
    ensures JoinName(a, b) == JoinName(b, a)
  {
    LexLeTotal(a, b);
    if LexLe(a, b) && LexLe(b, a) {
      LexLeAntisymmetric(a, b);
    }
  }

  /** Authors and roles are joined through `author_role`, whichever side asks. */
  lemma AuthorRoleJoin()
    ensures JoinName("author", "role") == "author_role"
    ensures JoinName("role", "author") == "author_role"
  {
    JoinNameSymmetric("author", "role");
  }

  /** A DAO with table `author` and no preset key gets the key `author_id`. */
  lemma AuthorKey(className: string)
    ensures KeyName(TableName(className, "author"), "") == "author_id"
  {
  }
}
