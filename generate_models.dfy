/**
 * `scripts/generate-models.js`: the connection read from config.ini, the Firebird -> TypeScript
 * type table, the interface naming and the text written to src/models/dbModels.ts. Reading
 * config.ini, the metadata queries and writing the file are not part of this model: the parsed
 * INI and the tables with their columns are parameters.
 */
module GenerateModels {
  import opened Wrappers
  import opened Js
  import opened Config
  import opened Database
  import opened FirebirdTypes

  // ---------------------------------------------------------------- connection

  const DefaultServer := "localhost/3050"
  const DefaultPortText := "3050"

  /** `cfg.Producao.BD_Servidor || 'localhost/3050'`. */
  function ServerOf(section: map<string, string>): (s: string)
    ensures "BD_Servidor" in section && section["BD_Servidor"] != "" ==> s == section["BD_Servidor"]
    ensures !("BD_Servidor" in section && section["BD_Servidor"] != "") ==> s == DefaultServer
  {
    if "BD_Servidor" in section && section["BD_Servidor"] != "" then section["BD_Servidor"] else DefaultServer
  }

  /** `parseInt(server.split('/')[1] || '3050', 10)`: only a missing or empty port text is replaced. */
  function ScriptPort(server: string): (port: JsNumber)
    ensures var parts := Split(server, '/');
      |parts| >= 2 && parts[1] != "" ==> port == ParseInt(parts[1])
    ensures var parts := Split(server, '/');
      !(|parts| >= 2 && parts[1] != "") ==> port == ParseInt(DefaultPortText)
  {
    var parts := Split(server, '/');
    ParseInt(if |parts| >= 2 && parts[1] != "" then parts[1] else DefaultPortText)
  }

  /**
   * Where the script and the server agree: the same host always, and the same port whenever the
   * port text parses to a non-zero number (the server then falls back to 3050, the script does not).
   */
  lemma ScriptAgreesWithServer(server: string)
    ensures Split(server, '/')[0] == HostOf(server)
    ensures var parts := Split(server, '/');
      |parts| >= 2 && ParseInt(parts[1]).Truthy() ==> ScriptPort(server) == Num(PortOf(server))
  {
    var parts := Split(server, '/');
    if |parts| >= 2 && ParseInt(parts[1]).Truthy() {
      assert parts[1] != "";
    }
  }

  /** The connection options `loadConfig` returns; the path and the credentials may be absent. */
  datatype ScriptOptions = ScriptOptions(
    host: string, port: JsNumber, database: Option<string>, user: Option<string>, password: Option<string>)

  function Lookup(section: map<string, string>, key: string): (v: Option<string>)
    ensures key in section ==> v == Some(section[key])
    ensures key !in section ==> v.None?
  {
    if key in section then Some(section[key]) else None
  }

  /** `loadConfig`: without a Producao section the script fails reading `cfg.Producao.BD_Servidor`. */
  function LoadScriptConfig(ini: Ini): (r: Result<ScriptOptions>)
    ensures "Producao" !in ini ==> r.Failure?
    ensures "Producao" in ini ==> r.Ok? && r.value.host == Split(ServerOf(ini["Producao"]), '/')[0]
    ensures "Producao" in ini ==> r.value.port == ScriptPort(ServerOf(ini["Producao"]))
    ensures "Producao" in ini ==> r.value.database == Lookup(ini["Producao"], "BD_Path")
  {
    if "Producao" !in ini then Failure("Cannot read properties of undefined (reading 'BD_Servidor')")
    else
      var section := ini["Producao"];
      var server := ServerOf(section);
      Ok(ScriptOptions(Split(server, '/')[0], ScriptPort(server),
                       Lookup(section, "BD_Path"), Lookup(section, "BD_Username"), Lookup(section, "BD_Password")))
  }

  // ---------------------------------------------------------------- types

  const NumberType := "number | null"
  const DateType := "Date | string | null"
  const StringType := "string | null"

  /** `mapType` as written: 14 is taken for TIMESTAMP, and TIMESTAMP's own code 35 falls to the default. */
  function MapTypeAsWritten(fieldType: int): (t: string)
    ensures fieldType in {SmallInt, Integer, Int64, Double, Float, 11} ==> t == NumberType
    ensures fieldType in {Date, Text} ==> t == DateType
    ensures fieldType !in {SmallInt, Integer, Int64, Double, Float, 11, Date, Text} ==> t == StringType
  {
    if fieldType in {SmallInt, Integer, Int64, Double, Float, 11} then NumberType
    else if fieldType in {Date, Text} then DateType
    else StringType
  }

  /**
   * A TIMESTAMP column (code 35, as the type report names it) is typed as a plain string, and a
   * fixed-length CHAR column (code 14) as a date.
   */
  lemma AsWrittenMistypesTimestamps()
    ensures TypeDescription(Timestamp, 0, 0, 0, 0) == "TIMESTAMP" && MapTypeAsWritten(Timestamp) == StringType
    ensures MapTypeAsWritten(Text) == DateType
  {
  }

  /** The type table with the two timestamp codes as Firebird numbers them: 12 DATE and 35 TIMESTAMP. */
  function MapType(fieldType: int): (t: string)
    ensures fieldType in {SmallInt, Integer, Int64, Double, Float, 11} ==> t == NumberType
    ensures fieldType in {Date, Timestamp} ==> t == DateType
    ensures fieldType !in {SmallInt, Integer, Int64, Double, Float, 11, Date, Timestamp} ==> t == StringType
  {
    if fieldType in {SmallInt, Integer, Int64, Double, Float, 11} then NumberType
    else if fieldType in {Date, Timestamp} then DateType
    else StringType
  }

  /** The corrected table types a column as a date exactly when the type report names a date type. */
  lemma MapTypeMatchesDescription(fieldType: int, subtype: int, length: int, precision: int, scale: int)
    ensures MapType(fieldType) == DateType <==>
      TypeDescription(fieldType, subtype, length, precision, scale) in {"DATE", "TIMESTAMP"}
  {
    var d := TypeDescription(fieldType, subtype, length, precision, scale);
    if fieldType in {Text, Varying} {
      assert d[0] in {'V', 'C'};
    } else if !KnownCode(fieldType) {
      assert d[0] == 'U';
    } else if fieldType == Int64 && scale != 0 {
      assert d[0] == 'N';
    }
  }

  // ---------------------------------------------------------------- names

  /** `s.charAt(0).toUpperCase() + s.slice(1)`. */
  function Capitalize(s: string): (c: string)
    ensures |c| == |s|
    ensures s != "" ==> c[0] == UpperChar(s[0]) && c[1..] == s[1..]
  {
    if s == "" then "" else [UpperChar(s[0])] + s[1..]
  }

  function CapitalizeAll(parts: seq<string>): (c: seq<string>)
    ensures |c| == |parts|
  {
    if parts == [] then [] else [Capitalize(parts[0])] + CapitalizeAll(parts[1..])
  }

  /** `toInterfaceName`: lower-case, split on '_', capitalise each piece, join without separator. */
  function ToInterfaceName(table: string): string
  {
    Join(CapitalizeAll(Split(Lower(table), '_')), "")
  }

  lemma LowerConcat(a: string, b: string)
    ensures Lower(a + b) == Lower(a) + Lower(b)
  {
    var l := Lower(a + b);
    forall i | 0 <= i < |a + b| ensures l[i] == (Lower(a) + Lower(b))[i] {
      if i < |a| {
        assert (a + b)[i] == a[i];
      } else {
        assert (a + b)[i] == b[i - |a|];
      }
    }
  }

  lemma LowerKeepsOut(a: string, c: char)
    requires c !in a && !IsUpperAscii(c) && !IsLowerAscii(c)
    ensures c !in Lower(a)
  {
    forall i | 0 <= i < |a| ensures Lower(a)[i] != c {
      assert Lower(a)[i] == LowerChar(a[i]);
    }
  }

  /** A name without '_' is one word: lower-cased with its first letter raised. */
  lemma {:induction false} OneWordName(table: string)
    requires '_' !in table
    ensures ToInterfaceName(table) == Capitalize(Lower(table))
  {
    LowerKeepsOut(table, '_');
    SplitWithoutSep(Lower(table), '_');
  }

  /** Each '_'-separated word of a table name becomes one capitalised word of the interface name. */
  lemma {:induction false} InterfaceNameCons(word: string, rest: string)
    requires '_' !in word
    ensures ToInterfaceName(word + "_" + rest) == Capitalize(Lower(word)) + ToInterfaceName(rest)
  {
    LowerConcat(word + "_", rest);
    LowerConcat(word, "_");
    assert Lower("_") == "_";
    LowerKeepsOut(word, '_');
    SplitCons(Lower(word), '_', Lower(rest));
    var tail := Split(Lower(rest), '_');
    var parts := [Lower(word)] + tail;
    assert parts[1..] == tail;
    var caps := CapitalizeAll(parts);
    assert caps == [Capitalize(Lower(word))] + CapitalizeAll(tail);
    assert caps[1..] == CapitalizeAll(tail);
    assert |caps| >= 2;
    assert Join(caps, "") == caps[0] + "" + Join(caps[1..], "");
    assert caps[0] + "" == caps[0];
  }

  // ---------------------------------------------------------------- output

  datatype ColumnMeta = ColumnMeta(name: string, fieldType: int, subType: int, scale: int)

  datatype TableMeta = TableMeta(name: string, columns: seq<ColumnMeta>)

  const Header := "// Auto-generated from Firebird metadata. Do not edit manually.\n\n"

  /**
   * `  COL: type;` for one column, its name trimmed and typed by `mapType` (the script's own
   * table is `MapTypeAsWritten`): the two-space indent, the name, `: `, the type and `;`.
   */
  function ColumnLine(mapType: int -> string, c: ColumnMeta): (line: string)
    ensures |line| == |Trim(c.name)| + |mapType(c.fieldType)| + 6
    ensures line[..2] == "  " && line[2..2 + |Trim(c.name)|] == Trim(c.name)
    ensures line[2 + |Trim(c.name)|..] == ": " + mapType(c.fieldType) + ";\n"
  {
    var line := "  " + Trim(c.name) + ": " + mapType(c.fieldType) + ";\n";
    assert line == "  " + Trim(c.name) + (": " + mapType(c.fieldType) + ";\n");
    line
  }

  function LineWriter(mapType: int -> string): ColumnMeta -> string
  {
    c => ColumnLine(mapType, c)
  }

  /** The pieces of text, one after the other. */
  function ConcatAll(pieces: seq<string>): string
  {
    if pieces == [] then "" else ConcatAll(pieces[..|pieces| - 1]) + pieces[|pieces| - 1]
  }

  /** Writing two lists of pieces one after the other is writing their concatenation. */
  lemma {:induction false} ConcatAllAppend(a: seq<string>, b: seq<string>)
    ensures ConcatAll(a + b) == ConcatAll(a) + ConcatAll(b)
    decreases |b|
  {
    if b == [] {
      assert a + b == a;
    } else {
      var front, last := b[..|b| - 1], b[|b| - 1];
      var ab := a + b;
      ConcatAllAppend(a, front);
      assert ab[..|ab| - 1] == a + front && ab[|ab| - 1] == last;
      assert ConcatAll(ab) == ConcatAll(a + front) + last;
      assert ConcatAll(b) == ConcatAll(front) + last;
      assert (ConcatAll(a) + ConcatAll(front)) + last == ConcatAll(a) + (ConcatAll(front) + last);
    }
  }

  /** One more piece of a list adds that piece at the end of the text. */
  lemma ConcatAllPrefix(pieces: seq<string>, k: nat)
    requires k < |pieces|
    ensures ConcatAll(pieces[..k + 1]) == ConcatAll(pieces[..k]) + pieces[k]
  {
    assert pieces[..k + 1][..k] == pieces[..k];
  }

  function InterfaceHead(t: TableMeta): string
  {
    "export interface " + ToInterfaceName(Trim(t.name)) + " {\n"
  }

  /** One table's interface: its head, one line per column in order, and the closing brace. */
  function InterfaceText(mapType: int -> string, t: TableMeta): string
  {
    InterfaceHead(t) + ConcatAll(ArrayMap(t.columns, LineWriter(mapType))) + "}\n\n"
  }

  function InterfaceWriter(mapType: int -> string): TableMeta -> string
  {
    t => InterfaceText(mapType, t)
  }

  /** The file: the header, then every table's interface in order. */
  function ModelsText(mapType: int -> string, tables: seq<TableMeta>): string
  {
    ConcatAll([Header] + ArrayMap(tables, InterfaceWriter(mapType)))
  }

  /** Adding tables to the metadata appends their interfaces to the file and changes nothing before them. */
  lemma ModelsTextAppend(mapType: int -> string, a: seq<TableMeta>, b: seq<TableMeta>)
    ensures ModelsText(mapType, a + b) == ModelsText(mapType, a) + ConcatAll(ArrayMap(b, InterfaceWriter(mapType)))
  {
    var ra, rb := ArrayMap(a, InterfaceWriter(mapType)), ArrayMap(b, InterfaceWriter(mapType));
    ArrayMapAppend(a, b, InterfaceWriter(mapType));
    assert [Header] + (ra + rb) == ([Header] + ra) + rb;
    ConcatAllAppend([Header] + ra, rb);
  }

  /** No column of code 14 (CHAR) or 35 (TIMESTAMP), the two codes the tables disagree on. */
  predicate AgreedCodes(tables: seq<TableMeta>)
  {
    forall i, j :: 0 <= i < |tables| && 0 <= j < |tables[i].columns| ==>
      tables[i].columns[j].fieldType != Text && tables[i].columns[j].fieldType != Timestamp
  }

  /**
   * The script's file and the file of the corrected table are the same text when no column has
   * code 14 or 35; a TIMESTAMP column is where they part: a plain string in the script's, a date
   * in the corrected one.
   */
  lemma WrittenMatchesIntendedOffTimestamps(tables: seq<TableMeta>, c: ColumnMeta)
    ensures AgreedCodes(tables) ==> ModelsText(MapTypeAsWritten, tables) == ModelsText(MapType, tables)
    ensures c.fieldType == Timestamp ==>
      ColumnLine(MapTypeAsWritten, c) == "  " + Trim(c.name) + ": " + StringType + ";\n" &&
      ColumnLine(MapType, c) == "  " + Trim(c.name) + ": " + DateType + ";\n"
  {
    if AgreedCodes(tables) {
      forall i | 0 <= i < |tables|
        ensures InterfaceText(MapTypeAsWritten, tables[i]) == InterfaceText(MapType, tables[i])
      {
        var cols := tables[i].columns;
        var written, intended := ArrayMap(cols, LineWriter(MapTypeAsWritten)), ArrayMap(cols, LineWriter(MapType));
        forall j | 0 <= j < |cols|
          ensures written[j] == intended[j]
        {
          assert cols[j].fieldType != Text && cols[j].fieldType != Timestamp;
        }
        assert written == intended;
      }
      assert ArrayMap(tables, InterfaceWriter(MapTypeAsWritten)) == ArrayMap(tables, InterfaceWriter(MapType));
    }
  }

  /** The `cols.forEach` loop: one line per column, in order, typed by the script's own table. */
  method ColumnsBody(cols: seq<ColumnMeta>) returns (body: string)
    ensures body == ConcatAll(ArrayMap(cols, LineWriter(MapTypeAsWritten)))
  {
    var lines := ArrayMap(cols, LineWriter(MapTypeAsWritten));
    body := "";
    var j := 0;
    while j < |lines|
      invariant 0 <= j <= |lines|
      invariant body == ConcatAll(lines[..j])
    {
      ConcatAllPrefix(lines, j);
      body := body + lines[j];
      j := j + 1;
    }
    assert lines[..j] == lines;
  }

  /** The file is the header followed by the interfaces. */
  lemma HeaderFirst(mapType: int -> string, tables: seq<TableMeta>)
    ensures ModelsText(mapType, tables) == Header + ConcatAll(ArrayMap(tables, InterfaceWriter(mapType)))
  {
    var texts := ArrayMap(tables, InterfaceWriter(mapType));
    ConcatAllAppend([Header], texts);
    ConcatAllPrefix([Header], 0);
  }

  /** One table's interface, its columns written by the inner loop. */
  method InterfaceOf(t: TableMeta) returns (text: string)
    ensures text == InterfaceText(MapTypeAsWritten, t)
  {
    var body := ColumnsBody(t.columns);
    text := InterfaceHead(t) + body + "}\n\n";
  }

  /** The main loop: the header, then per table its head, its column lines and its closing brace. */
  method GenerateText(tables: seq<TableMeta>) returns (out: string)
    ensures out == ModelsText(MapTypeAsWritten, tables)
  {
    ghost var texts := ArrayMap(tables, InterfaceWriter(MapTypeAsWritten));
    var acc := "";
    var i := 0;
    while i < |tables|
      invariant 0 <= i <= |tables|
      invariant acc == ConcatAll(texts[..i])
    {
      var text := InterfaceOf(tables[i]);
      ConcatAllPrefix(texts, i);
      acc := acc + text;
      i := i + 1;
    }
    assert texts[..i] == texts;
    HeaderFirst(MapTypeAsWritten, tables);
    out := Header + acc;
  }
}
