/**
 * The two SQL statements the plugin sends: the conditional `CREATE TABLE`
 * issued once per new identity, and the one-row `INSERT` issued per stored
 * value. Each comes with a reader of the model's own, used to state which
 * table and which column values a statement carries.
 */
module Statements {
  import opened Wrappers
  import opened CTypes
  import opened Decimal

  predicate StartsWith(s: string, p: string)
  {
    |p| <= |s| && s[..|p|] == p
  }

  /** Splits `s` before the first occurrence of `d`. */
  function TakeUntil(s: string, d: char): (r: (string, string))
    ensures r.0 + r.1 == s
    ensures d !in r.0
    ensures r.1 == [] || r.1[0] == d
  {
    if s == [] then ([], [])
    else if s[0] == d then ([], s)
    else
      var (a, b) := TakeUntil(s[1..], d);
      assert s == [s[0]] + (a + b);
      ([s[0]] + a, b)
  }

  lemma {:induction false} TakeUntilConcat(a: string, b: string, d: char)
    requires d !in a
    requires b == [] || b[0] == d
    ensures TakeUntil(a + b, d) == (a, b)
  {
    if a == [] {
      assert a + b == b;
    } else {
      assert (a + b)[0] == a[0] && (a + b)[1..] == a[1..] + b;
      TakeUntilConcat(a[1..], b, d);
      assert [a[0]] + a[1..] == a;
    }
  }

  // ---------------------------------------------------------------------------
  // CREATE TABLE IF NOT EXISTS

  const CreatePrefix: string := "CREATE TABLE IF NOT EXISTS "
  /** The column type of `Value`: every metric is stored as an unsigned 64-bit integer. */
  const StorageType: string := "BIGINT UNSIGNED"

  /**
   * The statement `createTable` sends: an auto-increment key, the component
   * id, the value, a timestamp defaulting to the insertion time and a level
   * defaulting to 0, with an index on the time and one on (CompId, Level, Time).
   */
  function CreateTableStatement(t: string): (q: string)
    ensures StartsWith(q, CreatePrefix + t + " ")
  {
    var q := CreatePrefix + (t + (" " + CreateColumns(t)));
    assert q == (CreatePrefix + t + " ") + CreateColumns(t);
    q
  }

  const ColumnsHead: string := "(`TableKey`  INT NOT NULL AUTO_INCREMENT NOT NULL, `CompId`  INT(32) NOT NULL, `Value` "
  const ColumnsTail: string := " NOT NULL, `Time`  TIMESTAMP NOT NULL DEFAULT CURRENT_TIMESTAMP, `Level`  INT(32) NOT NULL DEFAULT 0, PRIMARY KEY  (`TableKey` ), KEY "
  const TimeIndex: string := "_Time (`Time` ), KEY "
  const LevelIndex: string := "_Level (`CompId` ,`Level` ,`Time` ))"

  /** The column and index list; both index names are derived from the table name. */
  function CreateColumns(t: string): string
  {
    ColumnsHead + StorageType + ColumnsTail + t + TimeIndex + t + LevelIndex
  }

  /** The table a `CREATE TABLE IF NOT EXISTS` statement creates. */
  function ParseCreate(q: string): Option<string>
  {
    if StartsWith(q, CreatePrefix) then
      var (t, rest) := TakeUntil(q[|CreatePrefix|..], ' ');
      if rest == [] then None else Some(t)
    else None
  }

  /** A table name without blanks is read back from the statement that creates it. */
  lemma CreateTableRoundTrip(t: string)
    requires ' ' !in t
    ensures ParseCreate(CreateTableStatement(t)) == Some(t)
  {
    var rest := " " + CreateColumns(t);
    assert CreateTableStatement(t)[|CreatePrefix|..] == t + rest;
    TakeUntilConcat(t, rest, ' ');
  }

  // ---------------------------------------------------------------------------
  // INSERT INTO

  /** The table and the column values an `INSERT` carries. */
  datatype InsertRow = InsertRow(table: string, compId: int, value: nat, time: int, level: int)

  const InsertPrefix: string := "INSERT INTO "
  const ValuesOpen: string := " VALUES( NULL, "
  const Comma: string := ", "
  const TimeOpen: string := ", FROM_UNIXTIME("
  const TimeClose: string := "), "
  const ValuesClose: string := " )"

  /**
   * `INSERT INTO %s VALUES( NULL, %d, %lu, FROM_UNIXTIME(%d), %ld )` with the
   * table name, `(int)comp_id`, the value, `(int)tv.tv_sec` and the level.
   */
  function InsertStatement(t: string, compId: uint32, tv: TimeVal, value: uint64, level: int64): (q: string)
    ensures StartsWith(q, InsertPrefix + t + " ")
  {
    InsertPrefix + (t + (ValuesOpen + (IntToDec(ToInt32(compId)) + (Comma + (NatToDec(value)
      + (TimeOpen + (IntToDec(ToInt32(tv.sec)) + (TimeClose + (IntToDec(level) + ValuesClose)))))))))
  }

  /** Splits an `INSERT` in the shape above into its table and column values. */
  function ParseInsert(q: string): Option<InsertRow>
  {
    if !StartsWith(q, InsertPrefix) then None else
    var (t, r1) := TakeUntil(q[|InsertPrefix|..], ' ');
    if !StartsWith(r1, ValuesOpen) then None else
    var (c, r2) := TakeUntil(r1[|ValuesOpen|..], ',');
    if !IsIntText(c) || !StartsWith(r2, Comma) then None else
    var (v, r3) := TakeUntil(r2[|Comma|..], ',');
    if v == [] || !AllDigits(v) || !StartsWith(r3, TimeOpen) then None else
    var (s, r4) := TakeUntil(r3[|TimeOpen|..], ')');
    if !IsIntText(s) || !StartsWith(r4, TimeClose) then None else
    var (l, r5) := TakeUntil(r4[|TimeClose|..], ' ');
    if !IsIntText(l) || r5 != ValuesClose then None else
    Some(InsertRow(t, ParseInt(c), DecValue(v), ParseInt(s), ParseInt(l)))
  }

  lemma IntTextAvoids(i: int, d: char)
    requires !IsDigit(d) && d != '-'
    ensures d !in IntToDec(i)
  {
  }

  /**
   * The row an `INSERT` adds carries the component id and the seconds of the
   * timestamp as 32-bit signed ints, the value unchanged and the level unchanged.
   */
  lemma InsertRoundTrip(t: string, compId: uint32, tv: TimeVal, value: uint64, level: int64)
    requires ' ' !in t
    ensures ParseInsert(InsertStatement(t, compId, tv, value, level))
         == Some(InsertRow(t, ToInt32(compId), value, ToInt32(tv.sec), level))
  {
    var c, v, s, l := IntToDec(ToInt32(compId)), NatToDec(value), IntToDec(ToInt32(tv.sec)), IntToDec(level);
    var r4 := TimeClose + (l + ValuesClose);
    var r3 := TimeOpen + (s + r4);
    var r2 := Comma + (v + r3);
    var r1 := ValuesOpen + (c + r2);
    var q := InsertPrefix + (t + r1);
    assert q == InsertStatement(t, compId, tv, value, level);
    assert q[|InsertPrefix|..] == t + r1;
    TakeUntilConcat(t, r1, ' ');
    assert r1[|ValuesOpen|..] == c + r2;
    IntTextAvoids(ToInt32(compId), ',');
    TakeUntilConcat(c, r2, ',');
    assert r2[|Comma|..] == v + r3;
    TakeUntilConcat(v, r3, ',');
    assert r3[|TimeOpen|..] == s + r4;
    IntTextAvoids(ToInt32(tv.sec), ')');
    TakeUntilConcat(s, r4, ')');
    assert r4[|TimeClose|..] == l + ValuesClose;
    IntTextAvoids(level, ' ');
    TakeUntilConcat(l, ValuesClose, ' ');
    IntToDecRoundTrip(ToInt32(compId));
    IntToDecRoundTrip(ToInt32(tv.sec));
    IntToDecRoundTrip(level);
    NatToDecRoundTrip(value);
  }

  /** Only the whole seconds of the timestamp reach the statement. */
  lemma InsertDropsMicroseconds(t: string, compId: uint32, tv1: TimeVal, tv2: TimeVal, value: uint64, level: int64)
    requires tv1.sec == tv2.sec
    ensures InsertStatement(t, compId, tv1, value, level) == InsertStatement(t, compId, tv2, value, level)
  {
  }

  /**
   * From 2^31 seconds after the epoch (January 2038) `(int)tv.tv_sec` wraps, so
   * the statement carries -2^31 as the time.
   */
  lemma InsertTimeWrapsIn2038(t: string, compId: uint32, usec: int, value: uint64, level: int64)
    requires ' ' !in t
    ensures var row := ParseInsert(InsertStatement(t, compId, TimeVal(TWO_31, usec), value, level));
      row.Some? && row.value.time == -TWO_31
  {
    InsertRoundTrip(t, compId, TimeVal(TWO_31, usec), value, level);
    assert ToInt32(TWO_31) == -TWO_31;
  }
}
