/**
 * The JasperReports handlers: the reception report's data document and the finishing-sheet (FA)
 * report's items, totals and parameters. The listing, the two FA queries and the renderer are
 * parameters; each handler also reports the options it gave the renderer.
 */
module JasperController {
  import opened Wrappers
  import opened Js
  import opened Http
  import opened Sql
  import opened AuthMiddleware
  import opened RecepcaoService
  import opened RecepcaoController
  import opened ReportController
  import opened JasperService

  /** `error?.message || fallback`. */
  function ErrorText(message: string, fallback: string): (t: string)
    ensures message != "" ==> t == message
    ensures message == "" ==> t == fallback
  {
    if message != "" then message else fallback
  }

  /** `req.query.template || d`. */
  function TemplateOr(template: Option<string>, d: string): (t: string)
    ensures template.Some? && template.value != "" ==> t == template.value
    ensures template.None? || template.value == "" ==> t == d
  {
    if template.Some? && template.value != "" then template.value else d
  }

  // ---------------------------------------------------------------- receptions

  /** `{ meta: { generatedAt, filters }, data }`. */
  datatype RecepcoesPayload = RecepcoesPayload(generatedAt: string, filters: Filters, data: seq<Recepcao>)

  /**
   * `generateRecepcoesPDF` once the filters are known: the listing rendered from a document whose
   * `data` is exactly the listing, queried as `data`; any failure is 500 with its message.
   */
  method RenderRecepcoes<T>(
    filters: Filters, template: Option<string>, generatedAt: string,
    list: Filters -> Result<seq<Recepcao>>, render: Options<RecepcoesPayload> -> Result<T>)
    returns (r: Reply<T>, sent: Option<Options<RecepcoesPayload>>)
    ensures list(filters).Failure? ==>
      sent.None? && r == Error(500, ErrorText(list(filters).message, "Erro ao gerar relatório Jasper"))
    ensures list(filters).Ok? ==> sent == Some(Options(
      TemplateOr(template, "recepcoes"), [], Json(RecepcoesPayload(generatedAt, filters, list(filters).value), Some("data"))))
    ensures sent.Some? ==> r == match render(sent.value)
      case Ok(pdf) => Success(200, pdf)
      case Failure(m) => Error(500, ErrorText(m, "Erro ao gerar relatório Jasper"))
  {
    var report := TemplateOr(template, "recepcoes");
    var result := list(filters);
    if result.Failure? {
      return Error(500, ErrorText(result.message, "Erro ao gerar relatório Jasper")), None;
    }
    var dataPayload := RecepcoesPayload(generatedAt, filters, result.value);
    var opts := Options(report, [], Json(dataPayload, Some("data")));
    sent := Some(opts);
    var pdf := render(opts);
    if pdf.Failure? {
      return Error(500, ErrorText(pdf.message, "Erro ao gerar relatório Jasper")), sent;
    }
    r := Success(200, pdf.value);
  }

  /**
   * `generateRecepcoesPDF`: the listing with the report filters (page 1 of 1000, a non-admin held
   * to their section), rendered as `RenderRecepcoes` does.
   */
  method RecepcoesJasper<T>(
    q: ListQuery, template: Option<string>, user: Option<SessionUser>, generatedAt: string,
    list: Filters -> Result<seq<Recepcao>>, render: Options<RecepcoesPayload> -> Result<T>)
    returns (r: Reply<T>, sent: Option<Options<RecepcoesPayload>>)
    ensures list(ReportFiltersOf(q, user)).Failure? ==>
      sent.None? && r == Error(500, ErrorText(list(ReportFiltersOf(q, user)).message, "Erro ao gerar relatório Jasper"))
    ensures list(ReportFiltersOf(q, user)).Ok? ==> sent == Some(Options(
      TemplateOr(template, "recepcoes"), [],
      Json(RecepcoesPayload(generatedAt, ReportFiltersOf(q, user), list(ReportFiltersOf(q, user)).value), Some("data"))))
    ensures sent.Some? ==> r == match render(sent.value)
      case Ok(pdf) => Success(200, pdf)
      case Failure(m) => Error(500, ErrorText(m, "Erro ao gerar relatório Jasper"))
  {
    var filters := ReportFilters(q, user);
    r, sent := RenderRecepcoes(filters, template, generatedAt, list, render);
  }

  /** The reception report passes no parameters: its command line ends with the JSON query. */
  lemma RecepcoesCommandLine(reportFile: string, tmpBase: string, payload: RecepcoesPayload, report: string)
    ensures var opts := Options(report, [], Json(payload, Some("data")));
      BaseArgs(reportFile, PathJoin(tmpBase, "out")) + SourceArgs(opts.dataSource, PathJoin(tmpBase, "data.json")) +
        PairArgs(DefinedEntries(opts.params))
      == BaseArgs(reportFile, PathJoin(tmpBase, "out")) + ["-t", "json", "-i", PathJoin(tmpBase, "data.json"), "--json-query", "data"]
  {
    var opts := Options(report, [], Json(payload, Some("data")));
    var src := SourceArgs(opts.dataSource, PathJoin(tmpBase, "data.json"));
    assert src == src[..4] + src[4..];
  }

  // ---------------------------------------------------------------- finishing sheets

  /** The header row of the sheet, as the database returns it. */
  datatype FaHeader = FaHeader(faSeccao: JsValue, faNumero: JsValue, faData: JsValue, rolos: JsValue, pesos: JsValue, estado: JsValue)

  /** A row of the items query: the movement joined with its reception (NULL where it has none). */
  datatype FaItemRow = FaItemRow(
    movRecData: JsValue, movRecLinha: JsValue, nome: Option<string>, codigo: JsValue,
    descricao: Option<string>, composicaoDescricao: Option<string>,
    movRecRolos: Option<int>, movRecPesos: Option<int>, cliente: JsValue)

  /** An item of the report's data document. */
  datatype FaItem = FaItem(
    data: JsValue, linha: JsValue, nome: string, codigo: JsValue, descricao: string, composicao: string,
    rolos: Option<int>, pesos: Option<int>, cliente: JsValue)

  datatype FaPayload = FaPayload(items: seq<FaItem>)

  /** One item per row: the texts trimmed (NULL as ''), the rest as read. */
  function MapItem(r: FaItemRow): (it: FaItem)
    ensures it.nome == TrimOrEmpty(r.nome) && it.descricao == TrimOrEmpty(r.descricao)
    ensures it.composicao == TrimOrEmpty(r.composicaoDescricao)
    ensures it.data == r.movRecData && it.linha == r.movRecLinha && it.codigo == r.codigo && it.cliente == r.cliente
    ensures it.rolos == r.movRecRolos && it.pesos == r.movRecPesos
  {
    FaItem(
      r.movRecData, r.movRecLinha, TrimOrEmpty(r.nome), r.codigo, TrimOrEmpty(r.descricao),
      TrimOrEmpty(r.composicaoDescricao), r.movRecRolos, r.movRecPesos, r.cliente)
  }

  /** `rows.map(...)`: one item per row, in the query's order. */
  function MapItems(rows: seq<FaItemRow>): (items: seq<FaItem>)
    ensures |items| == |rows|
    ensures forall i :: 0 <= i < |rows| ==> items[i] == MapItem(rows[i])
  {
    seq(|rows|, i requires 0 <= i < |rows| => MapItem(rows[i]))
  }

  /** `Number(it.x || 0)` summed: a NULL quantity counts as 0. */
  function SumOrZero(qs: seq<Option<int>>): int
  {
    if qs == [] then 0 else SumOrZero(qs[..|qs| - 1]) + qs[|qs| - 1].GetOr(0)
  }

  function RolosOf(items: seq<FaItem>): (qs: seq<Option<int>>)
    ensures |qs| == |items| && forall i :: 0 <= i < |items| ==> qs[i] == items[i].rolos
  {
    seq(|items|, i requires 0 <= i < |items| => items[i].rolos)
  }

  function PesosOf(items: seq<FaItem>): (qs: seq<Option<int>>)
    ensures |qs| == |items| && forall i :: 0 <= i < |items| ==> qs[i] == items[i].pesos
  {
    seq(|items|, i requires 0 <= i < |items| => items[i].pesos)
  }

  /** The `reduce` over the items: the rolls and the weight, NULL counted as 0. */
  method FaTotals(items: seq<FaItem>) returns (rolos: int, pesos: int)
    ensures rolos == SumOrZero(RolosOf(items)) && pesos == SumOrZero(PesosOf(items))
  {
    rolos, pesos := 0, 0;
    var i := 0;
    while i < |items|
      invariant 0 <= i <= |items|
      invariant rolos == SumOrZero(RolosOf(items[..i])) && pesos == SumOrZero(PesosOf(items[..i]))
    {
      assert RolosOf(items[..i + 1])[..i] == RolosOf(items[..i]);
      assert PesosOf(items[..i + 1])[..i] == PesosOf(items[..i]);
      rolos := rolos + items[i].rolos.GetOr(0);
      pesos := pesos + items[i].pesos.GetOr(0);
      i := i + 1;
    }
    assert items[..i] == items;
  }

  /** A sheet's totals count only the quantities that are there: NULLs add nothing. */
  lemma {:induction false} TotalsIgnoreNulls(qs: seq<Option<int>>)
    requires forall i :: 0 <= i < |qs| ==> qs[i].None?
    ensures SumOrZero(qs) == 0
  {
    if qs != [] {
      TotalsIgnoreNulls(qs[..|qs| - 1]);
    }
  }

  /** The report parameters: the header's columns as read, then the two totals. */
  function FaParams(h: FaHeader, rolos: int, pesos: int): (ps: seq<(string, JsValue)>)
    ensures |ps| == 8
    ensures ps[6] == ("total_rolos", Number(Num(rolos))) && ps[7] == ("total_pesos", Number(Num(pesos)))
  {
    [("fa_seccao", h.faSeccao), ("fa_numero", h.faNumero), ("fa_data", h.faData),
     ("fa_rolos", h.rolos), ("fa_pesos", h.pesos), ("fa_estado", h.estado),
     ("total_rolos", Number(Num(rolos))), ("total_pesos", Number(Num(pesos)))]
  }

  /** The totals always reach the command line as `total_rolos=<n>` and `total_pesos=<n>`. */
  lemma TotalsPassed(h: FaHeader, rolos: int, pesos: int)
    ensures "total_rolos" + "=" + IntToString(rolos) in PairArgs(DefinedEntries(FaParams(h, rolos, pesos)))
    ensures "total_pesos" + "=" + IntToString(pesos) in PairArgs(DefinedEntries(FaParams(h, rolos, pesos)))
  {
    var ps := FaParams(h, rolos, pesos);
    NumberArgument(ps, 6, "total_rolos", rolos);
    NumberArgument(ps, 7, "total_pesos", pesos);
  }

  /** `parseInt(req.params.x || req.query.x)` for both keys, when both are non-zero numbers. */
  function SheetKey(paramSeccao: Option<string>, paramNumero: Option<string>, querySeccao: Option<string>, queryNumero: Option<string>)
    : (k: Option<(int, int)>)
    ensures var s := ParamNumber(FirstGiven(paramSeccao, querySeccao));
            var n := ParamNumber(FirstGiven(paramNumero, queryNumero));
            (k.Some? <==> s.Truthy() && n.Truthy()) && (k.Some? ==> k.value == (s.n, n.n))
  {
    var s := ParamNumber(FirstGiven(paramSeccao, querySeccao));
    var n := ParamNumber(FirstGiven(paramNumero, queryNumero));
    if s.Truthy() && n.Truthy() then Some((s.n, n.n)) else None
  }

  /** The renderer's answer: the PDF, or 500 with its message (the fallback text when it has none). */
  function RenderReply<T>(pdf: Result<T>, fallback: string): (r: Reply<T>)
    ensures pdf.Ok? ==> r == Success(200, pdf.value)
    ensures pdf.Failure? ==> r == Error(500, ErrorText(pdf.message, fallback))
  {
    if pdf.Ok? then Success(200, pdf.value) else Error(500, ErrorText(pdf.message, fallback))
  }

  /** What the sheet is rendered with: header columns and totals as parameters, the items as `items`. */
  function FaOptions(report: string, h: FaHeader, rows: seq<FaItemRow>): (o: Options<FaPayload>)
    ensures o.report == report && o.dataSource == Json(FaPayload(MapItems(rows)), Some("items"))
    ensures o.params == FaParams(h, SumOrZero(RolosOf(MapItems(rows))), SumOrZero(PesosOf(MapItems(rows))))
  {
    var items := MapItems(rows);
    Options(report, FaParams(h, SumOrZero(RolosOf(items)), SumOrZero(PesosOf(items))), Json(FaPayload(items), Some("items")))
  }

  /**
   * `generateFAPDF`: 400 for a missing, zero or non-numeric section or number, 404 when the
   * header query finds no sheet, otherwise the items and totals rendered with the template
   * given or 'fa'; any failure is 500 with its message.
   */
  method FaJasper<T>(
    paramSeccao: Option<string>, paramNumero: Option<string>, querySeccao: Option<string>, queryNumero: Option<string>,
    template: Option<string>,
    header: (int, int) -> Result<seq<FaHeader>>, itemRows: (int, int) -> Result<seq<FaItemRow>>,
    render: Options<FaPayload> -> Result<T>)
    returns (r: Reply<T>, sent: Option<Options<FaPayload>>)
    ensures SheetKey(paramSeccao, paramNumero, querySeccao, queryNumero).None? ==>
      r == Error(400, "Parâmetros inválidos") && sent.None?
    ensures var k := SheetKey(paramSeccao, paramNumero, querySeccao, queryNumero);
      k.Some? && header(k.value.0, k.value.1) == Ok([]) ==> r == Error(404, "Ficha não encontrada") && sent.None?
    ensures sent.Some? <==>
      var k := SheetKey(paramSeccao, paramNumero, querySeccao, queryNumero);
      k.Some? && header(k.value.0, k.value.1).Ok? && header(k.value.0, k.value.1).value != [] &&
      itemRows(k.value.0, k.value.1).Ok?
    ensures sent.Some? ==>
      var k := SheetKey(paramSeccao, paramNumero, querySeccao, queryNumero).value;
      sent.value == FaOptions(TemplateOr(template, "fa"), header(k.0, k.1).value[0], itemRows(k.0, k.1).value)
    ensures sent.Some? ==> r == RenderReply(render(sent.value), "Erro ao gerar PDF da FA")
    ensures r.Success? ==> sent.Some?
  {
    var key := SheetKey(paramSeccao, paramNumero, querySeccao, queryNumero);
    if key.None? {
      return Error(400, "Parâmetros inválidos"), None;
    }
    var (seccao, numero) := key.value;
    var report := TemplateOr(template, "fa");
    var headerRes := header(seccao, numero);
    if headerRes.Failure? {
      return Error(500, ErrorText(headerRes.message, "Erro ao gerar PDF da FA")), None;
    }
    if |headerRes.value| == 0 {
      return Error(404, "Ficha não encontrada"), None;
    }
    var h := headerRes.value[0];
    var rows := itemRows(seccao, numero);
    if rows.Failure? {
      return Error(500, ErrorText(rows.message, "Erro ao gerar PDF da FA")), None;
    }
    var items := MapItems(rows.value);
    var rolos, pesos := FaTotals(items);
    var opts := Options(report, FaParams(h, rolos, pesos), Json(FaPayload(items), Some("items")));
    sent := Some(opts);
    r := RenderReply(render(opts), "Erro ao gerar PDF da FA");
  }
}
