/** Many-to-many relations through a join table: the relation descriptor, its defaults,
    and the linking of one source entity to a list of target entities. */
module Relations {
  import opened Php
  import opened Naming
  import opened Query

  /** The entries of the relation descriptor `$info`. */
  datatype Field = Target | JoinBy | TargetKey | TargetBy | JoinTargetKey | SourceKey | JoinSourceKey

  /** The relation descriptor `$info`: entry to a name, or null. */
  type Info = map<Field, Option<string>>

  /** A DAO's `getTable()` and `getKeyName()`. */
  datatype Meta = Meta(table: string, key: string)

  /** `isset($info[$k])`: present and not null. */
  predicate IsSet(info: Info, k: Field)
  {
    k in info && info[k].Some?
  }

  /** `$info[$k]`, null when absent. */
  function Entry(info: Info, k: Field): Option<string>
  {
    if k in info then info[k] else None
  }

  /** A name used as an array key: PHP turns a null key into "". */
  function KeyOf(name: Option<string>): string
  {
    if name.Some? then name.value else ""
  }

  /** All six entries `setupHasJoin` fills are set. */
  predicate Resolved(info: Info)
  {
    && IsSet(info, JoinBy) && IsSet(info, TargetKey) && IsSet(info, TargetBy)
    && IsSet(info, JoinTargetKey) && IsSet(info, SourceKey) && IsSet(info, JoinSourceKey)
  }

  /** The entry k after `if (!isset($info[$k])) $info[$k] = $v;`. */
  function Pick(info: Info, k: Field, v: Option<string>): (r: Option<string>)
    ensures v.Some? ==> r.Some?
  {
    if IsSet(info, k) then info[k] else v
  }

  /** `setupHasJoin`: every unset entry of the descriptor gets its default; the key entries
      default to the DAOs' keys, the join-table columns to the resolved keys. */
  function Resolve(info: Info, source: Meta, target: Meta): (r: Info)
    // entries already set are kept, and afterwards all six are set
    ensures forall k :: IsSet(info, k) ==> k in r && r[k] == info[k]
    ensures Resolved(r)
    // the target's entry neither appears, disappears nor changes
    ensures (Target in r <==> Target in info) && Entry(r, Target) == Entry(info, Target)
    // the defaults
    ensures !IsSet(info, JoinBy) ==> Entry(r, JoinBy) == Some(JoinName(source.table, target.table))
    ensures !IsSet(info, TargetKey) ==> Entry(r, TargetKey) == Some(target.key)
    ensures !IsSet(info, TargetBy) ==> Entry(r, TargetBy) == Entry(r, TargetKey)
    ensures !IsSet(info, JoinTargetKey) ==> Entry(r, JoinTargetKey) == Entry(r, TargetKey)
    ensures !IsSet(info, SourceKey) ==> Entry(r, SourceKey) == Some(source.key)
    ensures !IsSet(info, JoinSourceKey) ==> Entry(r, JoinSourceKey) == Entry(r, SourceKey)
  {
    var targetKey := Pick(info, TargetKey, Some(target.key));
    var sourceKey := Pick(info, SourceKey, Some(source.key));
    info[JoinBy := Pick(info, JoinBy, Some(JoinName(source.table, target.table)))]
        [TargetKey := targetKey]
        [TargetBy := Pick(info, TargetBy, targetKey)]
        [JoinTargetKey := Pick(info, JoinTargetKey, targetKey)]
        [SourceKey := sourceKey]
        [JoinSourceKey := Pick(info, JoinSourceKey, sourceKey)]
  }

  /** Resolving an already resolved descriptor changes nothing. */
  lemma ResolveIdempotent(info: Info, source: Meta, target: Meta)
    ensures Resolve(Resolve(info, source, target), source, target) == Resolve(info, source, target)
  {
  }

  /** The join table resolved for a fresh relation is the same whichever DAO is the source. */
  lemma JoinTableIndependentOfSide(a: Meta, b: Meta, t1: string, t2: string)
    ensures Entry(Resolve(map[Target := Some(t1)], a, b), JoinBy) == Entry(Resolve(map[Target := Some(t2)], b, a), JoinBy)
  {
    JoinNameSymmetric(a.table, b.table);
  }

  /** Authors (key `author_id`) related to roles (key `role_id`). */
  lemma AuthorRoleDescriptor()
    ensures var r := Resolve(map[Target := Some("RoleDao")], Meta("author", "author_id"), Meta("role", "role_id"));
      && Entry(r, JoinBy) == Some("author_role")
      && Entry(r, SourceKey) == Some("author_id") && Entry(r, JoinSourceKey) == Some("author_id")
      && Entry(r, TargetKey) == Some("role_id") && Entry(r, JoinTargetKey) == Some("role_id")
      && Entry(r, TargetBy) == Some("role_id")
  {
    AuthorRoleJoin();
  }

  /** The join row `[joinSourceKey => $sourceId, joinTargetKey => $id]`. */
  function JoinRow(info: Info, sourceId: Value, targetId: Value): (r: Row)
    ensures var s, t := KeyOf(Entry(info, JoinSourceKey)), KeyOf(Entry(info, JoinTargetKey));
      && Get(r, t) == targetId
      && (s != t ==> Get(r, s) == sourceId)
  {
    Set(Set(EmptyRow, KeyOf(Entry(info, JoinSourceKey)), sourceId), KeyOf(Entry(info, JoinTargetKey)), targetId)
  }

  /** The join row holds the two ids under the two join columns; when the columns share a
      name the array literal keeps only the target id. */
  lemma JoinRowColumns(info: Info, sourceId: Value, targetId: Value)
    ensures var s, t := KeyOf(Entry(info, JoinSourceKey)), KeyOf(Entry(info, JoinTargetKey));
      var row := JoinRow(info, sourceId, targetId);
      && WellFormed(row)
      && (s != t ==> row.keys == [s, t] && Get(row, s) == sourceId && Get(row, t) == targetId)
      && (s == t ==> row.keys == [t] && Get(row, t) == targetId)
  {
  }

  /** The insert `relate` issues for one target entity. */
  function JoinInsert(info: Info, source: Row, target: Row): (st: Statement)
    ensures st.InsertInto? && st.table == KeyOf(Entry(info, JoinBy))
    ensures Get(st.row, KeyOf(Entry(info, JoinTargetKey))) == Get(target, KeyOf(Entry(info, TargetKey)))
    ensures KeyOf(Entry(info, JoinSourceKey)) != KeyOf(Entry(info, JoinTargetKey)) ==>
              Get(st.row, KeyOf(Entry(info, JoinSourceKey))) == Get(source, KeyOf(Entry(info, SourceKey)))
  {
    InsertInto(KeyOf(Entry(info, JoinBy)),
               JoinRow(info, Get(source, KeyOf(Entry(info, SourceKey))),
                             Get(target, KeyOf(Entry(info, TargetKey)))))
  }

  /** The inserts `relate` issues for a list of target entities, in their order. */
  function JoinInserts(info: Info, source: Row, targets: seq<Row>): (r: seq<Statement>)
    ensures |r| == |targets|
  {
    if targets == [] then [] else [JoinInsert(info, source, targets[0])] + JoinInserts(info, source, targets[1..])
  }

  /** The i-th insert is the one for the i-th target. */
  lemma {:induction false} JoinInsertsAt(info: Info, source: Row, targets: seq<Row>)
    ensures forall i :: 0 <= i < |targets| ==> JoinInserts(info, source, targets)[i] == JoinInsert(info, source, targets[i])
  {
    if targets != [] {
      JoinInsertsAt(info, source, targets[1..]);
    }
  }

  /** The insert for the i-th target. */
  lemma JoinInsertAt(info: Info, source: Row, targets: seq<Row>, i: int)
    requires 0 <= i < |targets|
    ensures JoinInserts(info, source, targets)[i] == JoinInsert(info, source, targets[i])
  {
    JoinInsertsAt(info, source, targets);
  }

  /** Author 7 linked to roles 1, 2 and 3: three rows into `author_role`, in that order. */
  lemma AuthorRolesScenario(info: Info)
    requires info == Resolve(map[Target := Some("RoleDao")], Meta("author", "author_id"), Meta("role", "role_id"))
    ensures var author := Row(["author_id"], map["author_id" := Int(7)]);
      var role := (id: int) => Row(["role_id"], map["role_id" := Int(id)]);
      JoinInserts(info, author, [role(1), role(2), role(3)]) ==
        [ InsertInto("author_role", Row(["author_id", "role_id"], map["author_id" := Int(7), "role_id" := Int(1)])),
          InsertInto("author_role", Row(["author_id", "role_id"], map["author_id" := Int(7), "role_id" := Int(2)])),
          InsertInto("author_role", Row(["author_id", "role_id"], map["author_id" := Int(7), "role_id" := Int(3)])) ]
  {
    AuthorRoleDescriptor();
    var author := Row(["author_id"], map["author_id" := Int(7)]);
    var role := (id: int) => Row(["role_id"], map["role_id" := Int(id)]);
    assert "author_id" != "role_id" by { assert "author_id"[0] != "role_id"[0]; }
    forall id: int
      ensures JoinInsert(info, author, role(id))
           == InsertInto("author_role", Row(["author_id", "role_id"], map["author_id" := Int(7), "role_id" := Int(id)]))
    {
      assert Get(role(id), "role_id") == Int(id);
      assert Get(author, "author_id") == Int(7);
    }
    JoinInsertsAt(info, author, [role(1), role(2), role(3)]);
  }

  /** What `Magic::get` finds: a scalar, or an array (one entity's fields). */
  datatype Found = Scalar(v: Value) | Array(row: Row)

  /** A PHP integer key in canonical decimal form: "0", or digits without a leading zero. */
  predicate IsIndexName(k: string)
  {
    && |k| > 0
    && (forall i :: 0 <= i < |k| ==> '0' <= k[i] <= '9')
    && (k[0] == '0' ==> |k| == 1)
  }

  /** The number a canonical decimal key names. */
  function IndexOf(k: string): nat
    requires forall i :: 0 <= i < |k| ==> '0' <= k[i] <= '9'
  {
    if k == [] then 0 else 10 * IndexOf(k[..|k| - 1]) + (k[|k| - 1] - '0') as nat
  }

  /** `Magic::get($list, $key)` on the list of target entities: the list is keyed 0, 1, ...,
      so only a key that names one of those indices finds something (that entity's fields);
      any other key finds null. */
  function ListGet(targets: seq<Row>, key: string): (f: Found)
    ensures !IsIndexName(key) ==> f == Scalar(Null)
  {
    if IsIndexName(key) && IndexOf(key) < |targets| then Array(targets[IndexOf(key)]) else Scalar(Null)
  }

  /** The values `foreach ($found as $id)` visits: an array's values in key order; a
      scalar is no array, so PHP only warns and the body runs zero times. */
  function ForeachValues(found: Found): (ids: seq<Value>)
    ensures found.Scalar? ==> ids == []
    ensures found.Array? ==> |ids| == |found.row.keys|
  {
    match found
    case Scalar(_) => []
    case Array(row) => seq(|row.keys|, i requires 0 <= i < |row.keys| => Get(row, row.keys[i]))
  }

  /** `relate` as written (HasJoin.php:107-116): the target key is looked up on the list of
      targets rather than on each target, the loop runs over what that lookup found, and the
      relation is then linked and `true` returned. The inserts it issues, and the flag. */
  function RelateAsWritten(info: Info, source: Row, targets: seq<Row>): (r: (seq<Statement>, bool))
    ensures r.1
  {
    var sourceId := Get(source, KeyOf(Entry(info, SourceKey)));
    var ids := ForeachValues(ListGet(targets, KeyOf(Entry(info, TargetKey))));
    (seq(|ids|, i requires 0 <= i < |ids| => InsertInto(KeyOf(Entry(info, JoinBy)), JoinRow(info, sourceId, ids[i]))),
     true)
  }

  /** As written, `relate` loses every link: for any non-empty list of targets and a target
      key that is a column name (no list index), it inserts no row at all, fewer than the one
      per target intended, and still marks the relation linked and returns true. */
  lemma RelateAsWrittenLosesLinks(info: Info, source: Row, targets: seq<Row>)
    requires targets != []
    requires !IsIndexName(KeyOf(Entry(info, TargetKey)))
    ensures RelateAsWritten(info, source, targets).0 == []
    ensures |RelateAsWritten(info, source, targets).0| < |JoinInserts(info, source, targets)|
    ensures RelateAsWritten(info, source, targets).1
  {
    var found := ListGet(targets, KeyOf(Entry(info, TargetKey)));
    assert found == Scalar(Null);
    assert ForeachValues(found) == [];
  }

  /** The author/role relation as written: `role_id` is no list index, so linking author 7
      to three roles inserts nothing. */
  lemma AuthorRolesAsWritten(info: Info, source: Row, targets: seq<Row>)
    requires info == Resolve(map[Target := Some("RoleDao")], Meta("author", "author_id"), Meta("role", "role_id"))
    requires |targets| == 3
    ensures RelateAsWritten(info, source, targets) == ([], true)
  {
    AuthorRoleDescriptor();
    assert !IsIndexName("role_id") by { assert !('0' <= "role_id"[0] <= '9'); }
    RelateAsWrittenLosesLinks(info, source, targets);
  }

  /** Where the first failing insert of `relate` is, if any: (index of the target, error). */
  type Failure = Option<(nat, Exception)>

  /** How many inserts `relate` completes before the failing one (all of them without one). */
  function Completed(failure: Failure, n: nat): (k: nat)
    ensures k <= n
  {
    if failure.Some? && failure.value.0 < n then failure.value.0 else n
  }

  /** `HasJoin` with the state of `RelationAbstract`. */
  class HasJoin {
    var info: Info
    var source: Row          // the source entity's fields
    var target: seq<Row>     // the target entities' fields
    var isLinked: bool
    var issued: seq<Statement>  // inserts sent to the join table's DAO
    const sourceMeta: Meta   // the source DAO (`$this->dao`)
    const targetMeta: Meta   // the target DAO (`Dao::dao($target)`)

    /** `new HasJoin($target)`: the descriptor names only the target, then every default is resolved. */
    constructor (targetName: string, sourceMeta: Meta, targetMeta: Meta)
      ensures this.sourceMeta == sourceMeta && this.targetMeta == targetMeta
      ensures info == Resolve(map[Target := Some(targetName)], sourceMeta, targetMeta)
      ensures source == EmptyRow && target == [] && !isLinked && issued == []
    {
      this.sourceMeta := sourceMeta;
      this.targetMeta := targetMeta;
      info := map[Target := Some(targetName)];
      source := EmptyRow;
      target := [];
      isLinked := false;
      issued := [];
      new;
      SetupHasJoin();
    }

    /** `setupHasJoin`: fills the unset entries of `$info` in place. */
    method SetupHasJoin()
      modifies this`info
      ensures info == Resolve(old(info), sourceMeta, targetMeta)
    {
      var m := info;
      if !IsSet(m, Field.JoinBy) {
        m := m[Field.JoinBy := Some(JoinName(sourceMeta.table, targetMeta.table))];
      }
      ghost var i1 := old(info)[Field.JoinBy := Pick(old(info), Field.JoinBy, Some(JoinName(sourceMeta.table, targetMeta.table)))];
      assert m == i1;
      if !IsSet(m, Field.TargetKey) {
        m := m[Field.TargetKey := Some(targetMeta.key)];
      }
      ghost var targetKey := Pick(old(info), Field.TargetKey, Some(targetMeta.key));
      ghost var i2 := i1[Field.TargetKey := targetKey];
      assert m == i2;
      if !IsSet(m, TargetBy) {
        m := m[TargetBy := m[Field.TargetKey]];
      }
      ghost var i3 := i2[TargetBy := Pick(old(info), TargetBy, targetKey)];
      assert m == i3;
      if !IsSet(m, JoinTargetKey) {
        m := m[JoinTargetKey := m[Field.TargetKey]];
      }
      ghost var i4 := i3[JoinTargetKey := Pick(old(info), JoinTargetKey, targetKey)];
      assert m == i4;
      if !IsSet(m, Field.SourceKey) {
        m := m[Field.SourceKey := Some(sourceMeta.key)];
      }
      ghost var sourceKey := Pick(old(info), Field.SourceKey, Some(sourceMeta.key));
      ghost var i5 := i4[Field.SourceKey := sourceKey];
      assert m == i5;
      if !IsSet(m, JoinSourceKey) {
        m := m[JoinSourceKey := m[Field.SourceKey]];
      }
      ghost var i6 := i5[JoinSourceKey := Pick(old(info), JoinSourceKey, sourceKey)];
      assert m == i6;
      assert i6 == Resolve(old(info), sourceMeta, targetMeta);
      info := m;
    }

    /** `targetKey($key, $joinKey)`: overwrites exactly these two entries. */
    method TargetKey(key: Option<string>, joinKey: Option<string>) returns (self: HasJoin)
      modifies this`info
      ensures self == this
      ensures info == old(info)[Field.TargetKey := key][JoinTargetKey := joinKey]
    {
      info := info[Field.TargetKey := key][JoinTargetKey := joinKey];
      self := this;
    }

    /** `joinBy($joinBy)`: overwrites exactly the join-table entry. */
    method JoinBy(joinBy: Option<string>) returns (self: HasJoin)
      modifies this`info
      ensures self == this
      ensures info == old(info)[Field.JoinBy := joinBy]
    {
      info := info[Field.JoinBy := joinBy];
      self := this;
    }

    /** `sourceKey($key, $joinKey)`: overwrites exactly these two entries. */
    method SourceKey(key: Option<string>, joinKey: Option<string>) returns (self: HasJoin)
      modifies this`info
      ensures self == this
      ensures info == old(info)[Field.SourceKey := key][JoinSourceKey := joinKey]
    {
      info := info[Field.SourceKey := key][JoinSourceKey := joinKey];
      self := this;
    }

    /** `setSource`: replaces the source entity and nothing else. */
    method SetSource(source: Row)
      modifies this`source
      ensures this.source == source
    {
      this.source := source;
    }

    /** `setTarget`: replaces the target entities and nothing else. */
    method SetTarget(target: seq<Row>)
      modifies this`target
      ensures this.target == target
    {
      this.target := target;
    }

    /** `isLinked()`: reads the flag. */
    function IsLinked(): (linked: bool)
      reads this
      ensures linked <==> isLinked
    {
      isLinked
    }

    /** `relate` in its intended form: one insert per target entity into the join table, in
        target order, then the relation is linked. A failing insert (`failure`, the database's
        verdict) propagates its error at once: the remaining targets are not inserted and the
        flag is not set. */
    method Relate(failure: Failure) returns (r: Result<bool>)
      modifies this`isLinked, this`issued
      ensures var n := Completed(failure, |target|);
        issued == old(issued) + JoinInserts(info, source, target)[..n]
      ensures old(isLinked) ==> isLinked
      ensures Completed(failure, |target|) == |target| ==> isLinked && r == Ok(true)
      ensures Completed(failure, |target|) < |target| ==>
                isLinked == old(isLinked) && r == Thrown(failure.value.1)
    {
      var info, source, targets := this.info, this.source, this.target;
      ghost var inserts := JoinInserts(info, source, targets);
      var i := 0;
      while i < |targets|
        invariant 0 <= i <= |targets| && (failure.Some? ==> i <= failure.value.0)
        invariant issued == old(issued) + inserts[..i]
        invariant isLinked == old(isLinked)
      {
        if failure.Some? && failure.value.0 == i {
          r := Thrown(failure.value.1);
          return;
        }
        // `$join->insert([joinSourceKey => $sourceId, joinTargetKey => $id])`
        var inserted := JoinInsert(info, source, targets[i]);
        JoinInsertAt(info, source, targets, i);
        issued := issued + [inserted];
        PrefixStep(inserts, i);
        i := i + 1;
      }
      isLinked := true;
      r := Ok(true);
    }
  }

  /** Linking with no targets inserts nothing and still links. */
  method RelateNoTargets(sourceMeta: Meta, targetMeta: Meta, source: Row)
  {
    var rel := new HasJoin("RoleDao", sourceMeta, targetMeta);
    rel.SetSource(source);
    var r := rel.Relate(None);
    assert rel.issued == [] && rel.IsLinked() && r == Ok(true);
  }
}
