/** PHP values and string-keyed arrays, as far as the DAO layer uses them. */
module Php {

  datatype Option<+T> = None | Some(value: T)

  /** A scalar PHP value: what entity fields, ids and row cells hold in this model. */
  datatype Value = Null | Bool(b: bool) | Int(i: int) | Str(s: string)

  /** PHP's boolean conversion of a string: only "" and "0" are false. */
  predicate TruthyName(s: string)
  {
    s != "" && s != "0"
  }

  /** PHP's boolean conversion of a scalar, as in `if ($id)`. */
  predicate Truthy(v: Value)
  {
    match v
    case Null => false
    case Bool(b) => b
    case Int(i) => i != 0
    case Str(s) => TruthyName(s)
  }

  /** The class of an exception (or fatal error) the code raises. */
  datatype ExceptionKind = InvalidArgumentException | RuntimeException | FatalError | DatabaseError

  datatype Exception = Exception(kind: ExceptionKind, message: string)

  /** The outcome of an operation that may throw. */
  datatype Result<+T> = Ok(value: T) | Thrown(error: Exception)

  ghost predicate Distinct(s: seq<string>)
  {
    forall i, j :: 0 <= i < j < |s| ==> s[i] != s[j]
  }

  /** A PHP array with string keys: its keys in insertion order and the value under each. */
  datatype Row = Row(keys: seq<string>, vals: map<string, Value>)

  /** Every PHP array is well formed: each key once, and exactly the keys that hold a value. */
  ghost predicate WellFormed(a: Row)
  {
    Distinct(a.keys) && forall k :: k in a.vals <==> k in a.keys
  }

  const EmptyRow: Row := Row([], map[])

  /** `$a[$k]`: the value under k, or null (PHP's undefined-index notice) when k is absent. */
  function Get(a: Row, k: string): Value
  {
    if k in a.vals then a.vals[k] else Null
  }

  /** `$a[$k] = $v`: an existing key keeps its place, a new key goes last. */
  function Set(a: Row, k: string, v: Value): (r: Row)
    ensures WellFormed(a) ==> WellFormed(r)
    ensures k in r.vals && Get(r, k) == v
    ensures forall x {:trigger Get(r, x)} {:trigger x in r.vals} :: x != k ==> (x in r.vals <==> x in a.vals) && Get(r, x) == Get(a, x)
    ensures k in a.vals ==> r.keys == a.keys
    ensures k !in a.vals ==> r.keys == a.keys + [k]
  {
    if k in a.vals then Row(a.keys, a.vals[k := v]) else Row(a.keys + [k], a.vals[k := v])
  }

  /** The keys of s other than k, in their order. */
  function Without(s: seq<string>, k: string): (t: seq<string>)
    ensures forall x :: x in t <==> x in s && x != k
    ensures Distinct(s) ==> Distinct(t)
  {
    if s == [] then []
    else if s[0] == k then Without(s[1..], k)
    else
      var rest := Without(s[1..], k);
      assert Distinct(s) ==> s[0] !in s[1..];
      [s[0]] + rest
  }

  /** `unset($a[$k])`: k leaves the array, the other keys keep their order. */
  function Unset(a: Row, k: string): (r: Row)
    ensures WellFormed(a) ==> WellFormed(r)
    ensures k !in r.vals && k !in r.keys
    ensures forall x {:trigger Get(r, x)} {:trigger x in r.vals} :: x != k ==> (x in r.vals <==> x in a.vals) && Get(r, x) == Get(a, x)
    ensures r.keys == Without(a.keys, k)
  {
    Row(Without(a.keys, k), a.vals - {k})
  }

  /** Writing a key just removed puts it last and leaves every other entry as it was:
      what `unset($data[$id]); ...; $data[$id] = $v` does to the caller's array. */
  lemma ReplaceMovesKeyLast(a: Row, k: string, v: Value)
    ensures Set(Unset(a, k), k, v).keys == Without(a.keys, k) + [k]
    ensures Get(Set(Unset(a, k), k, v), k) == v
    ensures forall x :: x != k ==> Get(Set(Unset(a, k), k, v), x) == Get(a, x)
  {
  }

  /** Dropping a key that does not occur changes nothing. */
  lemma {:induction false} WithoutAbsent(s: seq<string>, k: string)
    requires k !in s
    ensures Without(s, k) == s
  {
    if s != [] {
      WithoutAbsent(s[1..], k);
    }
  }

  /** Writing a key just removed and removing it again gives the array without it: the
      write-back of a generated key is undone by taking the key out once more. */
  lemma UnsetAfterReplace(a: Row, k: string, v: Value)
    ensures Unset(Set(Unset(a, k), k, v), k) == Unset(a, k)
  {
    var t := Without(a.keys, k);
    WithoutAbsent(t, k);
    assert Without(t + [k], k) == t by {
      WithoutLastDropped(t, k);
    }
  }

  lemma {:induction false} WithoutLastDropped(s: seq<string>, k: string)
    ensures Without(s + [k], k) == Without(s, k)
  {
    if s == [] {
      assert [k][1..] == [];
    } else {
      assert (s + [k])[1..] == s[1..] + [k];
      WithoutLastDropped(s[1..], k);
    }
  }

  /** Taking one more element of a sequence appends it. */
  lemma PrefixStep<T>(s: seq<T>, i: int)
    requires 0 <= i < |s|
    ensures s[..i + 1] == s[..i] + [s[i]]
  {
  }
}
