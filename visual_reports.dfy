/**
 * The visual-report routes: data-source field lists, saving a report definition as a JSON file,
 * listing the saved files and filling a report's HTML before it is rendered. The file system is
 * the directory listing and the `read` function; the clock is `now` (milliseconds) with its
 * ISO text; the pt-PT date formatting is `fmtDate`; the PDF rendering is not part of this model.
 */
module VisualReports {
  import opened Wrappers
  import opened Js
  import opened Http
  import opened AuthMiddleware

  // ---------------------------------------------------------------- data-source fields

  datatype Field = Field(name: string, sqlType: string, description: string)

  const ProducaoFields: seq<Field> := [
    Field("SECCAO", "INTEGER", "Secção"), Field("NUMERO", "INTEGER", "Número"),
    Field("CLIENTE", "VARCHAR", "Cliente"), Field("ARTIGO", "VARCHAR", "Artigo"),
    Field("COMPOSICAO", "VARCHAR", "Composição"), Field("PENDENTE", "INTEGER", "Pendente"),
    Field("METROS_PENDENTES", "DECIMAL", "Metros Pendentes"), Field("DATA_ENTRADA", "DATE", "Data Entrada"),
    Field("COR", "VARCHAR", "Cor"), Field("DESENHO", "VARCHAR", "Desenho")]

  const GescomFields: seq<Field> := [
    Field("CODIGO", "VARCHAR", "Código Cliente"), Field("NOME", "VARCHAR", "Nome Cliente"),
    Field("MORADA", "VARCHAR", "Morada"), Field("LOCALIDADE", "VARCHAR", "Localidade"),
    Field("TELEFONE", "VARCHAR", "Telefone"), Field("EMAIL", "VARCHAR", "Email")]

  /** `GET /datasource/:source/fields`: a fixed list per known source, none for any other. */
  function SourceFields(source: string): (fields: seq<Field>)
    ensures source == "producao" ==> fields == ProducaoFields && |fields| == 10
    ensures source == "gescom" ==> fields == GescomFields && |fields| == 6
    ensures source != "producao" && source != "gescom" ==> fields == []
  {
    if source == "producao" then ProducaoFields
    else if source == "gescom" then GescomFields
    else []
  }

  // ---------------------------------------------------------------- file names

  predicate SafeChar(c: char)
  {
    IsLowerAscii(c) || IsDigit(c) || c == '-'
  }

  /** `.replace(/[^a-z0-9]/g, '-')`. */
  function Sanitize(s: string): (r: string)
    ensures |r| == |s|
    ensures forall i :: 0 <= i < |s| ==> r[i] == (if IsLowerAscii(s[i]) || IsDigit(s[i]) then s[i] else '-')
  {
    seq(|s|, i requires 0 <= i < |s| => if IsLowerAscii(s[i]) || IsDigit(s[i]) then s[i] else '-')
  }

  /** Sanitising keeps the length, uses only safe characters and is idempotent. */
  lemma SanitizeSafe(s: string)
    ensures forall i :: 0 <= i < |s| ==> SafeChar(Sanitize(s)[i])
    ensures Sanitize(Sanitize(s)) == Sanitize(s)
  {
  }

  const JsonExt := ".json"

  /** The saved file's name: the lower-cased, sanitised report name, '-', the id and '.json'. */
  function FileName(name: string, id: string): (f: string)
    ensures |f| == |name| + 1 + |id| + |JsonExt|
  {
    Sanitize(Lower(name)) + "-" + id + JsonExt
  }

  predicate EndsWith(s: string, suffix: string)
  {
    |suffix| <= |s| && s[|s| - |suffix|..] == suffix
  }

  /** A saved file ends in '.json' and carries its id, so the list and the lookup by id both see it. */
  lemma {:induction false} FileNameCarriesId(name: string, id: string)
    ensures EndsWith(FileName(name, id), JsonExt)
    ensures Contains(FileName(name, id), id)
  {
    var f := FileName(name, id);
    var k := |Sanitize(Lower(name))| + 1;
    assert f[k..k + |id|] == id;
    ContainsAt(f, id, k);
  }

  // ---------------------------------------------------------------- saving

  /** The decoded token as `req.user` holds it: claim name -> value. */
  type Claims = map<string, JsValue>

  /** The claims a login signs: id, username, role, seccao and isAdmin. */
  function TokenClaims(u: SessionUser): (c: Claims)
    ensures c.Keys == {"id", "username", "role", "seccao", "isAdmin"}
    ensures c["isAdmin"] == Bool(u.isAdmin)
  {
    map["id" := Str(u.id), "username" := Str(u.username), "role" := Str(u.role),
        "seccao" := Number(Num(u.seccao)), "isAdmin" := Bool(u.isAdmin)]
  }

  function Claim(c: Claims, key: string): (v: JsValue)
    ensures key in c ==> v == c[key]
    ensures key !in c ==> v == Undefined
  {
    if key in c then c[key] else Undefined
  }

  datatype SaveBody = SaveBody(name: Option<string>, html: JsValue, css: JsValue, components: JsValue, dataSource: JsValue)

  /** The JSON written for a report. */
  datatype ReportFile = ReportFile(
    id: string, name: string, html: JsValue, css: JsValue, components: JsValue, dataSource: JsValue,
    createdBy: JsValue, createdAt: string, updatedAt: string)

  datatype Saved = Saved(id: string, filename: string)

  /** What the save handler answered and which file it wrote. */
  datatype SaveOutcome = SaveOutcome(reply: Reply<Saved>, written: Option<(string, ReportFile)>)

  const AdminsOnly := "Acesso negado. Apenas administradores podem criar reports."

  /** The write of a report whose name is known: the id is the clock, the file is named after both. */
  function Write(c: Claims, name: string, b: SaveBody, now: nat, isoNow: string): (o: SaveOutcome)
    ensures o.written.Some? && o.reply.Success?
    ensures o.reply.data == Saved(NatToString(now), o.written.value.0)
    ensures o.written.value.0 == FileName(name, NatToString(now))
    ensures o.written.value.1.id == NatToString(now) && o.written.value.1.createdBy == Claim(c, "username")
  {
    var id := NatToString(now);
    var f := FileName(name, id);
    SaveOutcome(Success(200, Saved(id, f)),
                Some((f, ReportFile(id, name, b.html, b.css, b.components, b.dataSource,
                                    Claim(c, "username"), isoNow, isoNow))))
  }

  /**
   * `POST /save` as written: 403 unless the `administrador` claim is 'S'; a missing name fails
   * on `toLowerCase` (500); otherwise the file is written.
   */
  function SaveAsWritten(c: Claims, b: SaveBody, now: nat, isoNow: string): (o: SaveOutcome)
    ensures Claim(c, "administrador") != Str("S") ==> o == SaveOutcome(Error(403, AdminsOnly), None)
    ensures o.written.Some? <==> Claim(c, "administrador") == Str("S") && b.name.Some?
    ensures o.written.Some? ==> o == Write(c, b.name.value, b, now, isoNow)
  {
    if Claim(c, "administrador") != Str("S") then SaveOutcome(Error(403, AdminsOnly), None)
    else if b.name.None? then SaveOutcome(Error(500, "Cannot read properties of undefined (reading 'toLowerCase')"), None)
    else Write(c, b.name.value, b, now, isoNow)
  }

  /** No token a login issues carries `administrador`, so nobody, administrators included, can save. */
  lemma LoginTokensCannotSave(u: SessionUser, b: SaveBody, now: nat, isoNow: string)
    ensures SaveAsWritten(TokenClaims(u), b, now, isoNow).reply == Error(403, AdminsOnly)
  {
    assert "administrador" !in TokenClaims(u);
  }

  /** `POST /save` gated on the `isAdmin` claim the tokens do carry. */
  function Save(c: Claims, b: SaveBody, now: nat, isoNow: string): (o: SaveOutcome)
    ensures Claim(c, "isAdmin") != Bool(true) ==> o == SaveOutcome(Error(403, AdminsOnly), None)
    ensures o.written.Some? <==> Claim(c, "isAdmin") == Bool(true) && b.name.Some?
    ensures o.written.Some? ==> o == Write(c, b.name.value, b, now, isoNow)
  {
    if Claim(c, "isAdmin") != Bool(true) then SaveOutcome(Error(403, AdminsOnly), None)
    else if b.name.None? then SaveOutcome(Error(500, "Cannot read properties of undefined (reading 'toLowerCase')"), None)
    else Write(c, b.name.value, b, now, isoNow)
  }

  /** With the `isAdmin` gate, a logged-in user with a named report saves exactly when an administrator. */
  lemma AdminsCanSave(u: SessionUser, b: SaveBody, now: nat, isoNow: string)
    requires b.name.Some?
    ensures Save(TokenClaims(u), b, now, isoNow).written.Some? <==> u.isAdmin
  {
  }

  // ---------------------------------------------------------------- listing

  datatype ReportSummary = ReportSummary(
    id: string, name: string, dataSource: JsValue, createdBy: JsValue, createdAt: string, updatedAt: string)

  function Summary(r: ReportFile): ReportSummary
  {
    ReportSummary(r.id, r.name, r.dataSource, r.createdBy, r.createdAt, r.updatedAt)
  }

  /** The summaries of the '.json' files that read and parse, in directory order. */
  function Listed(files: seq<string>, read: string -> Option<ReportFile>): (reports: seq<ReportSummary>)
    ensures |reports| <= |files|
  {
    if files == [] then []
    else
      var f := files[|files| - 1];
      Listed(files[..|files| - 1], read) +
      (if EndsWith(f, JsonExt) && read(f).Some? then [Summary(read(f).value)] else [])
  }

  /** Every listed report comes from a '.json' file of the directory that was read successfully. */
  lemma {:induction false} ListedFromJsonFiles(files: seq<string>, read: string -> Option<ReportFile>, s: ReportSummary)
    requires s in Listed(files, read)
    ensures exists f :: f in files && EndsWith(f, JsonExt) && read(f).Some? && Summary(read(f).value) == s
  {
    var f := files[|files| - 1];
    var front := files[..|files| - 1];
    if s in Listed(front, read) {
      ListedFromJsonFiles(front, read, s);
      var g :| g in front && EndsWith(g, JsonExt) && read(g).Some? && Summary(read(g).value) == s;
      assert g in files;
    } else {
      assert f in files;
    }
  }

  /** `GET /list`: a directory that cannot be read lists nothing; otherwise the loop over its files. */
  method ListReports(dir: Option<seq<string>>, read: string -> Option<ReportFile>) returns (r: Reply<seq<ReportSummary>>)
    ensures dir.None? ==> r == Success(200, [])
    ensures dir.Some? ==> r == Success(200, Listed(dir.value, read))
  {
    if dir.None? {
      return Success(200, []);
    }
    var files := dir.value;
    var reports: seq<ReportSummary> := [];
    var i := 0;
    while i < |files|
      invariant 0 <= i <= |files|
      invariant reports == Listed(files[..i], read)
    {
      var file := files[i];
      assert files[..i + 1][..i] == files[..i];
      if EndsWith(file, JsonExt) {
        var parsed := read(file);
        if parsed.Some? {
          reports := reports + [Summary(parsed.value)];
        }
      }
      i := i + 1;
    }
    assert files[..i] == files;
    r := Success(200, reports);
  }

  // ---------------------------------------------------------------- generating

  /** `files.find(file => file.includes(id))`. */
  function FindReport(files: seq<string>, id: string): (f: Option<string>)
    ensures f.Some? ==> f.value in files && Contains(f.value, id)
    ensures f.None? ==> forall g :: g in files ==> !Contains(g, id)
    ensures f.Some? ==> exists k :: 0 <= k < |files| && files[k] == f.value && forall j :: 0 <= j < k ==> !Contains(files[j], id)
  {
    if files == [] then None
    else if Contains(files[0], id) then Some(files[0])
    else
      var rest := FindReport(files[1..], id);
      if rest.Some? then
        assert forall g :: g in files[1..] ==> g in files;
        var k :| 0 <= k < |files[1..]| && files[1..][k] == rest.value && forall j :: 0 <= j < k ==> !Contains(files[1..][j], id);
        assert files[k + 1] == rest.value;
        rest
      else rest
  }

  /** A report saved in the directory is always found by its id (possibly behind another file that names it). */
  lemma SavedReportIsFound(files: seq<string>, name: string, id: string)
    requires FileName(name, id) in files
    ensures FindReport(files, id).Some?
  {
    FileNameCarriesId(name, id);
  }

  /** A row of MOV_RECEPCAO as the report query returns it. */
  datatype DataRow = DataRow(
    seccao: JsValue, numero: JsValue, cliente: JsValue, artigo: JsValue, composicao: JsValue,
    pendente: JsValue, metrosPendentes: JsValue, dataEntrada: JsValue)

  /** The example row used when the database cannot be reached (150.5 metres, kept as its text). */
  function MockRow(now: JsValue): DataRow
  {
    DataRow(Number(Num(1)), Number(Num(12345)), Str("Cliente Exemplo"), Str("ART001"), Str("100% Algodão"),
            Number(Num(5)), Str("150.5"), now)
  }

  /** The rows of a report: the query's for 'producao' (the example row when it fails), none otherwise. */
  function ReportRows(dataSource: JsValue, query: Result<seq<DataRow>>, now: JsValue): (rows: seq<DataRow>)
    ensures dataSource != Str("producao") ==> rows == []
    ensures dataSource == Str("producao") && query.Ok? ==> rows == query.value
    ensures dataSource == Str("producao") && query.Failure? ==> rows == [MockRow(now)]
  {
    if dataSource != Str("producao") then []
    else if query.Ok? then query.value
    else [MockRow(now)]
  }

  const TitleTag := "{{reportTitle}}"
  const DateTag := "{{currentDate}}"
  const PageTag := "{{pageNumber}}"
  const TotalTag := "{{totalPages}}"

  /** The four placeholder replacements, in order. */
  function Substitute(html: string, title: string, date: string): string
  {
    ReplaceAll(ReplaceAll(ReplaceAll(ReplaceAll(html, TitleTag, title), DateTag, date), PageTag, "1"), TotalTag, "1")
  }

  /** Whatever the title and the date say, no page placeholder is left after the replacements. */
  lemma {:induction false} NoPagePlaceholdersLeft(html: string, title: string, date: string)
    ensures !Contains(Substitute(html, title, date), PageTag)
    ensures !Contains(Substitute(html, title, date), TotalTag)
  {
    var s2 := ReplaceAll(ReplaceAll(html, TitleTag, title), DateTag, date);
    var s3 := ReplaceAll(s2, PageTag, "1");
    assert Disjoint("1", PageTag);
    assert Disjoint("1", TotalTag);
    ReplaceAllAvoids(s2, PageTag, "1", PageTag);
    ReplaceAllAvoids(s3, TotalTag, "1", PageTag);
    ReplaceAllAvoids(s3, TotalTag, "1", TotalTag);
  }

  /** `v || d` rendered into a cell. */
  function Cell(v: JsValue, d: string): string
  {
    if v.Truthy() then v.ToText() else d
  }

  /** The eight cells of a row: '' for a missing text or number, 0 for missing quantities. */
  function Cells(row: DataRow, fmtDate: JsValue -> string): (cells: seq<string>)
    ensures |cells| == 8
    ensures !row.seccao.Truthy() ==> cells[0] == ""
    ensures !row.pendente.Truthy() ==> cells[5] == "0"
    ensures !row.metrosPendentes.Truthy() ==> cells[6] == "0"
    ensures cells[7] == (if row.dataEntrada.Truthy() then fmtDate(row.dataEntrada) else "")
  {
    [Cell(row.seccao, ""), Cell(row.numero, ""), Cell(row.cliente, ""), Cell(row.artigo, ""),
     Cell(row.composicao, ""), Cell(row.pendente, "0"), Cell(row.metrosPendentes, "0"),
     if row.dataEntrada.Truthy() then fmtDate(row.dataEntrada) else ""]
  }

  function CellsHtml(cells: seq<string>): string
  {
    if cells == [] then "" else CellsHtml(cells[..|cells| - 1]) + "\n          <td>" + cells[|cells| - 1] + "</td>"
  }

  function RowHtml(row: DataRow, fmtDate: JsValue -> string): string
  {
    "\n        <tr>" + CellsHtml(Cells(row, fmtDate)) + "\n        </tr>\n      "
  }

  function RowsHtml(rows: seq<DataRow>, fmtDate: JsValue -> string): string
  {
    if rows == [] then "" else RowsHtml(rows[..|rows| - 1], fmtDate) + RowHtml(rows[|rows| - 1], fmtDate)
  }

  /** The first index at which `t` occurs in `s`. */
  function IndexOf(s: string, t: string): (k: nat)
    requires Contains(s, t)
    ensures k + |t| <= |s| && s[k..k + |t|] == t
    decreases |s|
  {
    if StartsWith(s, t) then 0 else 1 + IndexOf(s[1..], t)
  }

  /**
   * `.replace(/<open>[\s\S]*?<close>/g, rep)`: each `open` with a later `close` is replaced, up to
   * and including the first such `close`, by `rep`; scanning resumes after it.
   */
  function ReplaceBlocks(s: string, open: string, close: string, rep: string): string
    requires open != []
    decreases |s|
  {
    if |s| == 0 then []
    else if StartsWith(s, open) && Contains(s[|open|..], close) then
      var k := |open| + IndexOf(s[|open|..], close);
      rep + ReplaceBlocks(s[k + |close|..], open, close, rep)
    else [s[0]] + ReplaceBlocks(s[1..], open, close, rep)
  }

  /** HTML without an opening tag is left as it is. */
  lemma {:induction false} ReplaceBlocksAbsent(s: string, open: string, close: string, rep: string)
    requires open != [] && !Contains(s, open)
    ensures ReplaceBlocks(s, open, close, rep) == s
  {
    if |s| > 0 {
      ReplaceBlocksAbsent(s[1..], open, close, rep);
      assert [s[0]] + s[1..] == s;
    }
  }

  const TheadHtml :=
    "<thead>\n          <tr>\n            <th>Secção</th>\n            <th>Número</th>\n            <th>Cliente</th>\n" +
    "            <th>Artigo</th>\n            <th>Composição</th>\n            <th>Pendente</th>\n" +
    "            <th>Metros</th>\n            <th>Data Entrada</th>\n          </tr>\n        </thead>"

  /** The table rewrite: only with rows, and only when the HTML has a `data-table`. */
  function FillTable(html: string, rows: seq<DataRow>, fmtDate: JsValue -> string): (out: string)
    ensures rows == [] || !Contains(html, "data-table") ==> out == html
    ensures rows != [] && Contains(html, "data-table") ==>
      out == ReplaceBlocks(ReplaceBlocks(html, "<tbody>", "</tbody>", "<tbody>" + RowsHtml(rows, fmtDate) + "</tbody>"),
                           "<thead>", "</thead>", TheadHtml)
  {
    if rows != [] && Contains(html, "data-table") then
      var withBody := ReplaceBlocks(html, "<tbody>", "</tbody>", "<tbody>" + RowsHtml(rows, fmtDate) + "</tbody>");
      ReplaceBlocks(withBody, "<thead>", "</thead>", TheadHtml)
    else html
  }

  /**
   * `POST /generate/:id` up to the HTML handed to the renderer: an unreadable directory or report
   * file, or a report whose `html` is not a string, is 500; no file naming the id is 404.
   */
  function GenerateHtml(
    id: string, dir: Result<seq<string>>, read: string -> Result<ReportFile>,
    query: Result<seq<DataRow>>, now: JsValue, today: string, fmtDate: JsValue -> string): (r: Reply<string>)
    ensures dir.Ok? && FindReport(dir.value, id).None? ==> r == Error(404, "Report não encontrado")
    ensures r.Success? ==> dir.Ok? && FindReport(dir.value, id).Some? && read(FindReport(dir.value, id).value).Ok?
    ensures r.Success? ==> read(FindReport(dir.value, id).value).value.html.Str?
    ensures r.Success? ==>
      var report := read(FindReport(dir.value, id).value).value;
      r.data == FillTable(Substitute(report.html.s, report.name, today),
                          ReportRows(report.dataSource, query, now), fmtDate)
  {
    if dir.Failure? then Error(500, dir.message)
    else match FindReport(dir.value, id)
      case None => Error(404, "Report não encontrado")
      case Some(file) =>
        match read(file)
        case Failure(e) => Error(500, e)
        case Ok(report) =>
          if !report.html.Str? then Error(500, "processedHtml.replace is not a function")
          else
            var rows := ReportRows(report.dataSource, query, now);
            Success(200, FillTable(Substitute(report.html.s, report.name, today), rows, fmtDate))
  }
}
