/** What a DAO subclass configures (table, key, serial insert, column list, time-stamp
    columns) and the rules that use it: column lists and time stamps. */
module Schema {
  import opened Php

  /** The names of the automatic date-time columns; a falsy name switches that column off. */
  datatype StampNames = StampNames(
    createdAt: string, createdDate: string, createdTime: string,
    updatedAt: string, updatedDate: string, updatedTime: string)

  /** The properties a DAO subclass may preset. */
  datatype Config = Config(
    table: string,        // "" when unset
    primaryKey: string,   // "" when unset
    insertSerial: bool,   // truthy `$insertSerial`: insert through insertGetId
    columns: seq<string>,
    stamps: StampNames)

  /** What the base classes declare. */
  const BaseConfig: Config :=
    Config("", "", true, [], StampNames("created_at", "", "", "updated_at", "", ""))

  /** One instant, formatted with the DAO's `date_formats`, with 'Y-m-d' and with 'H:i:s'. */
  datatype Moment = Moment(dateTime: string, date: string, time: string)

  /** `getCurrentTime()`: the cached instant, or the clock's reading when none is cached yet. */
  function CurrentTime(cache: Option<Moment>, reading: Moment): Moment
  {
    if cache.Some? then cache.value else reading
  }

  /** The `static $now` of `getCurrentTime`: one instant per PHP process, shared by every DAO
      of the class, taken from the clock on first use. */
  class Clock {
    var now: Option<Moment>

    constructor ()
      ensures now == None
    {
      now := None;
    }

    /** `getCurrentTime()`: the cached instant, caching the clock's reading on first use. */
    method Current(reading: Moment) returns (m: Moment)
      modifies this
      ensures m == CurrentTime(old(now), reading)
      ensures now == Some(m)
      ensures old(now).Some? ==> now == old(now)
    {
      if now.None? {
        now := Some(reading);
      }
      m := now.value;
    }
  }

  /** The one-element set of a truthy column name; nothing for a falsy one. */
  function Named(name: string): set<string>
  {
    if TruthyName(name) then {name} else {}
  }

  /** The columns `updateTimeStamps` writes: the truthy `updated_*` names, and on insert
      the truthy `created_*` names too. */
  function StampKeys(names: StampNames, insert: bool): set<string>
  {
    Named(names.updatedAt) + Named(names.updatedDate) + Named(names.updatedTime)
    + if insert then Named(names.createdAt) + Named(names.createdDate) + Named(names.createdTime)
      else {}
  }

  /** `$this->name && $data[$this->name] = $v`. */
  function SetIf(data: Row, name: string, v: string): (r: Row)
    ensures data.keys <= r.keys
    ensures TruthyName(name) ==> name in r.vals && Get(r, name) == Str(v)
    ensures forall k :: k !in Named(name) ==> (k in r.vals <==> k in data.vals) && Get(r, k) == Get(data, k)
  {
    if TruthyName(name) then Set(data, name, Str(v)) else data
  }

  /** Three stamp columns written in turn with the three renderings of one instant. */
  function SetThree(data: Row, full: string, date: string, time: string, now: Moment): (r: Row)
    ensures data.keys <= r.keys
    ensures forall k :: k in Named(full) + Named(date) + Named(time) ==> k in r.vals
    ensures forall k :: k !in Named(full) + Named(date) + Named(time) ==>
              (k in r.vals <==> k in data.vals) && Get(r, k) == Get(data, k)
    ensures TruthyName(full) && full != date && full != time ==> Get(r, full) == Str(now.dateTime)
    ensures TruthyName(date) && date != time ==> Get(r, date) == Str(now.date)
    ensures TruthyName(time) ==> Get(r, time) == Str(now.time)
  {
    var r1 := SetIf(data, full, now.dateTime);
    var r2 := SetIf(r1, date, now.date);
    SetIf(r2, time, now.time)
  }

  /** `updateTimeStamps`: the row with every configured stamp column written from one instant. */
  function Stamp(data: Row, names: StampNames, now: Moment, insert: bool): (r: Row)
    // keys already present keep their order
    ensures data.keys <= r.keys
    // every configured stamp column is written, and no other column changes
    ensures forall k :: k in StampKeys(names, insert) ==> k in r.vals
    ensures forall k :: k !in StampKeys(names, insert) ==>
              (k in r.vals <==> k in data.vals) && Get(r, k) == Get(data, k)
  {
    var updated := SetThree(data, names.updatedAt, names.updatedDate, names.updatedTime, now);
    if !insert then updated
    else SetThree(updated, names.createdAt, names.createdDate, names.createdTime, now)
  }

  /** The writes `updateTimeStamps` makes, in order: each stamp column's name with the
      rendering of the instant it receives (`updated_*`, then on insert `created_*`). */
  function StampWrites(names: StampNames, now: Moment, insert: bool): (ws: seq<(string, string)>)
    ensures |ws| == if insert then 6 else 3
  {
    [(names.updatedAt, now.dateTime), (names.updatedDate, now.date), (names.updatedTime, now.time)]
    + if insert then [(names.createdAt, now.dateTime), (names.createdDate, now.date), (names.createdTime, now.time)]
      else []
  }

  /** The name of the i-th write is truthy and no later write reuses it. */
  predicate LastWriteOf(ws: seq<(string, string)>, i: int)
  {
    0 <= i < |ws| && TruthyName(ws[i].0) && forall j :: i < j < |ws| ==> ws[j].0 != ws[i].0
  }

  /** Every configured stamp column holds the rendering of the one instant its write gives
      it, unless a later write in the order reuses its name. */
  lemma StampValues(data: Row, names: StampNames, now: Moment, insert: bool)
    ensures var ws := StampWrites(names, now, insert);
      forall i :: LastWriteOf(ws, i) ==> Get(Stamp(data, names, now, insert), ws[i].0) == Str(ws[i].1)
  {
    var ws := StampWrites(names, now, insert);
    forall i | LastWriteOf(ws, i)
      ensures Get(Stamp(data, names, now, insert), ws[i].0) == Str(ws[i].1)
    {
      if i < 3 {
        UpdatedValue(data, names, now, insert, i);
      } else {
        CreatedValue(data, names, now, i);
      }
    }
  }

  /** An `updated_*` write not reused later survives into the stamped row. */
  lemma UpdatedValue(data: Row, names: StampNames, now: Moment, insert: bool, i: int)
    requires i < 3 && LastWriteOf(StampWrites(names, now, insert), i)
    ensures var w := StampWrites(names, now, insert)[i];
      Get(Stamp(data, names, now, insert), w.0) == Str(w.1)
  {
    var ws := StampWrites(names, now, insert);
    var k := ws[i].0;
    var updated := SetThree(data, names.updatedAt, names.updatedDate, names.updatedTime, now);
    assert Get(updated, k) == Str(ws[i].1) by {
      if i == 0 {
        assert ws[1].0 != k && ws[2].0 != k;
      } else if i == 1 {
        assert ws[2].0 != k;
      }
    }
    if insert {
      assert k !in Named(names.createdAt) + Named(names.createdDate) + Named(names.createdTime) by {
        assert ws[3].0 != k && ws[4].0 != k && ws[5].0 != k;
      }
    }
  }

  /** A `created_*` write not reused later survives into the row stamped for an insert. */
  lemma CreatedValue(data: Row, names: StampNames, now: Moment, i: int)
    requires 3 <= i && LastWriteOf(StampWrites(names, now, true), i)
    ensures var w := StampWrites(names, now, true)[i];
      Get(Stamp(data, names, now, true), w.0) == Str(w.1)
  {
    var ws := StampWrites(names, now, true);
    var k := ws[i].0;
    if i == 3 {
      assert ws[4].0 != k && ws[5].0 != k;
    } else if i == 4 {
      assert ws[5].0 != k;
    }
  }

  /** On insert, with distinct `created_at` and `updated_at` columns not reused by a later
      write, the two hold the same rendering of the instant. */
  lemma StampedDateTimes(data: Row, names: StampNames, now: Moment, insert: bool)
    requires TruthyName(names.updatedAt)
    requires names.updatedAt !in {names.updatedDate, names.updatedTime}
    requires insert ==> names.updatedAt !in {names.createdAt, names.createdDate, names.createdTime}
    requires insert && TruthyName(names.createdAt) ==> names.createdAt !in {names.createdDate, names.createdTime}
    ensures Get(Stamp(data, names, now, insert), names.updatedAt) == Str(now.dateTime)
    ensures insert && TruthyName(names.createdAt) ==>
              Get(Stamp(data, names, now, insert), names.createdAt) == Get(Stamp(data, names, now, insert), names.updatedAt)
  {
    StampValues(data, names, now, insert);
    var ws := StampWrites(names, now, insert);
    assert ws[0] == (names.updatedAt, now.dateTime);
    if insert {
      assert ws[3] == (names.createdAt, now.dateTime);
    }
  }

  /** An update leaves every `created_*` column that is not also an `updated_*` column alone. */
  lemma UpdateKeepsCreated(data: Row, names: StampNames, now: Moment, k: string)
    requires k in {names.createdAt, names.createdDate, names.createdTime}
    requires k !in {names.updatedAt, names.updatedDate, names.updatedTime}
    ensures Get(Stamp(data, names, now, false), k) == Get(data, k)
    ensures k in Stamp(data, names, now, false).vals <==> k in data.vals
  {
  }

  /** `getColumns`: the configured list when it is not empty, else the keys of the data. */
  function Columns(configured: seq<string>, data: Row): (r: seq<string>)
    ensures |configured| > 0 ==> r == configured
    ensures |configured| == 0 ==> r == data.keys
    ensures |configured| == 0 && WellFormed(data) ==> Distinct(r) && forall k :: k in r <==> k in data.vals
  {
    if |configured| > 0 then configured else data.keys
  }
}
