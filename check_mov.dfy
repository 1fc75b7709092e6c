/**
 * The column report of `check-mov-recepcao.js`: Firebird's RDB$FIELDS type codes described as
 * SQL types, and the nullability / default text of a column. The metadata queries and the
 * console output are not part of this model; a NULL length, precision or scale is 0 here.
 */
module FirebirdTypes {
  import opened Wrappers
  import opened Js

  const SmallInt := 7
  const Integer := 8
  const Float := 10
  const Date := 12
  const Time := 13
  const Text := 14
  const Int64 := 16
  const Double := 27
  const Timestamp := 35
  const Varying := 37
  const Blob := 261

  /** The codes the report gives a fixed name or a sized one. */
  predicate KnownCode(code: int)
  {
    code in {SmallInt, Integer, Float, Date, Time, Text, Int64, Double, Timestamp, Varying, Blob}
  }

  function Abs(x: int): nat { if x < 0 then -x else x }

  /** `getFirebirdTypeDescription(type, subtype, length, precision, scale)`. */
  function TypeDescription(code: int, subtype: int, length: int, precision: int, scale: int): (d: string)
    ensures code == Int64 && scale != 0 ==> d == "NUMERIC(" + IntToString(precision) + "," + IntToString(Abs(scale)) + ")"
    ensures code == Int64 && scale == 0 ==> d == "BIGINT"
    ensures code == Text ==> d == "VARCHAR(" + IntToString(length) + ")"
    ensures code == Varying ==> d == "CHAR(" + IntToString(length) + ")"
    ensures code == Blob ==> d == (if subtype == 1 then "TEXT BLOB" else "BLOB")
    ensures !KnownCode(code) ==> d == "UNKNOWN(" + IntToString(code) + ")"
  {
    if code == SmallInt then "SMALLINT"
    else if code == Integer then "INTEGER"
    else if code == Float then "FLOAT"
    else if code == Date then "DATE"
    else if code == Time then "TIME"
    else if code == Text then "VARCHAR(" + IntToString(length) + ")"
    else if code == Int64 then
      (if scale != 0 then "NUMERIC(" + IntToString(precision) + "," + IntToString(Abs(scale)) + ")" else "BIGINT")
    else if code == Double then "DOUBLE PRECISION"
    else if code == Timestamp then "TIMESTAMP"
    else if code == Varying then "CHAR(" + IntToString(length) + ")"
    else if code == Blob then (if subtype == 1 then "TEXT BLOB" else "BLOB")
    else "UNKNOWN(" + IntToString(code) + ")"
  }

  /** The description of an unknown code carries the code back: it can be read off the text. */
  lemma UnknownNamesItsCode(code: int, subtype: int, length: int, precision: int, scale: int)
    requires !KnownCode(code)
    ensures var d := TypeDescription(code, subtype, length, precision, scale);
      |d| > 9 && d[..8] == "UNKNOWN(" && ParseInt(d[8..|d| - 1]) == Num(code)
  {
    var d := TypeDescription(code, subtype, length, precision, scale);
    assert d[8..|d| - 1] == IntToString(code);
    ParseIntToString(code);
  }

  /** `NULL_FLAG === null ? 'NULL' : 'NOT NULL'` followed by ` DEFAULT x` when a default is set. */
  function NullabilityText(nullFlag: Option<int>, defaultSource: Option<string>): (t: string)
    ensures nullFlag.None? && (defaultSource.None? || defaultSource.value == "") ==> t == "NULL"
    ensures nullFlag.Some? && (defaultSource.None? || defaultSource.value == "") ==> t == "NOT NULL"
    ensures defaultSource.Some? && defaultSource.value != "" ==>
      t == (if nullFlag.None? then "NULL" else "NOT NULL") + " DEFAULT " + defaultSource.value
  {
    (if nullFlag.None? then "NULL" else "NOT NULL") +
    (if defaultSource.Some? && defaultSource.value != "" then " DEFAULT " + defaultSource.value else "")
  }
}
