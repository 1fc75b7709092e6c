/**
 * The HTML report handlers: the filters of a reception report, the template defaults, and the
 * validations of the template handlers. The reception listing, the FA renderer and the
 * active-template store are parameters; the renderer's PDF is left to it.
 */
module ReportController {
  import opened Wrappers
  import opened Js
  import opened Http
  import opened AuthMiddleware
  import opened RecepcaoService
  import opened RecepcaoController
  import opened ReportService

  /** Reports read every record at once: page 1 of 1000, a non-admin held to their section. */
  function ReportFiltersOf(q: ListQuery, user: Option<SessionUser>): (f: Filters)
    ensures f.page == Some(Num(1)) && f.limit == Some(Num(1000))
    ensures IsAdmin(user) ==> f.seccao == NumberParam(q.seccao)
    ensures !IsAdmin(user) ==> f.seccao == Number(Num(UserSeccao(user)))
  {
    Forced(QueryFilters(q, Num(1), Num(1000)), user)
  }

  /** The report handlers' filters: page 1 of 1000, a non-admin held to their section. */
  method ReportFilters(q: ListQuery, user: Option<SessionUser>) returns (f: Filters)
    ensures f == ReportFiltersOf(q, user)
  {
    f := QueryFilters(q, Num(1), Num(1000));
    f := ForceSection(f, user);
  }

  /** `req.query.template || 'recepcoes-default'`, for the download. */
  function PdfTemplateId(template: Option<string>): (id: string)
    ensures template.Some? && template.value != "" ==> id == template.value
    ensures template.None? || template.value == "" ==> id == DefaultId
  {
    if template.Some? && template.value != "" then template.value else DefaultId
  }

  /** `req.query.template || undefined`, for the preview. */
  function PreviewTemplateId(template: Option<string>): (id: Option<string>)
    ensures id.Some? <==> template.Some? && template.value != ""
    ensures id.Some? ==> id == template
  {
    if template.Some? && template.value != "" then template else None
  }

  /** The preview leaves the default to the service, which picks the same template as the download. */
  lemma PreviewMatchesDownload(template: Option<string>)
    ensures PreviewTemplateId(template).GetOr(DefaultId) == PdfTemplateId(template)
  {
  }

  /**
   * `generateRecepcoesPDF` and `previewRecepcoesPDF` up to the renderer: the report shows exactly
   * the records the listing returns for the report filters; 500 when the listing fails.
   */
  method RecepcoesPdf(
    q: ListQuery, template: Option<string>, preview: bool, user: Option<SessionUser>,
    folder: Folder, list: Filters -> Result<seq<Recepcao>>, date: string, now: int)
    returns (r: Reply<ReportData>, used: ReportTemplate)
    ensures list(ReportFiltersOf(q, user)).Failure? ==>
      r == Error(500, if preview then "Erro ao gerar pré-visualização PDF" else "Erro ao gerar relatório PDF")
    ensures list(ReportFiltersOf(q, user)).Ok? ==>
      r.Success? && r.status == 200 &&
      r.data.data == list(ReportFiltersOf(q, user)).value &&
      r.data.filters == Some(ReportFiltersOf(q, user)) &&
      used == GetTemplate(folder, PdfTemplateId(template), now)
  {
    var filters := ReportFilters(q, user);
    var templateId := if preview then PreviewTemplateId(template) else Some(PdfTemplateId(template));
    var result := list(filters);
    if result.Failure? {
      used := DefaultTemplate(now);
      r := Error(500, if preview then "Erro ao gerar pré-visualização PDF" else "Erro ao gerar relatório PDF");
      return;
    }
    var data;
    used, data := RecepcoesReport(folder, result.value, Some(filters), templateId, date, now);
    PreviewMatchesDownload(template);
    r := Success(200, data);
  }

  /** `recepcoes_${new Date().toISOString().split('T')[0]}.pdf`. */
  function DownloadName(iso: string): string
  {
    "recepcoes_" + Split(iso, 'T')[0] + ".pdf"
  }

  /** The download is named after the day of the timestamp. */
  lemma DownloadNamedByDay(day: string, time: string)
    requires 'T' !in day
    ensures DownloadName(day + "T" + time) == "recepcoes_" + day + ".pdf"
  {
    assert day + "T" + time == day + ['T'] + time;
    SplitCons(day, 'T', time);
  }

  /** `req.params.x || req.query.x`. */
  function FirstGiven(a: Option<string>, b: Option<string>): (r: Option<string>)
    ensures a.Some? && a.value != "" ==> r == a
    ensures a.None? || a.value == "" ==> r == b
  {
    if a.Some? && a.value != "" then a else b
  }

  /** `parseInt` of a parameter that may be missing: NaN then. */
  function ParamNumber(p: Option<string>): (n: JsNumber)
    ensures p.Some? ==> n == ParseInt(p.value)
    ensures p.None? ==> n == NaN
  {
    if p.Some? then ParseInt(p.value) else NaN
  }

  /**
   * `generateFAPDF`: 400 when the sheet's section or number is 0 or not a number, then the
   * renderer with the template given or 'fa-default'; 500 when it fails.
   */
  function FaPdf<T>(
    paramSeccao: Option<string>, paramNumero: Option<string>, querySeccao: Option<string>, queryNumero: Option<string>,
    template: Option<string>, render: (int, int, string) -> Result<T>): (r: Reply<T>)
    ensures var s := ParamNumber(FirstGiven(paramSeccao, querySeccao));
            var n := ParamNumber(FirstGiven(paramNumero, queryNumero));
            (!s.Truthy() || !n.Truthy() <==> r == Error(400, "Parâmetros inválidos")) &&
            (s.Truthy() && n.Truthy() ==>
              r == match render(s.n, n.n, if template.Some? && template.value != "" then template.value else "fa-default")
                   case Ok(pdf) => Success(200, pdf)
                   case Failure(_) => Error(500, "Erro ao gerar PDF da Ficha"))
  {
    var seccao := ParamNumber(FirstGiven(paramSeccao, querySeccao));
    var numero := ParamNumber(FirstGiven(paramNumero, queryNumero));
    if !seccao.Truthy() || !numero.Truthy() then Error(400, "Parâmetros inválidos")
    else
      var templateId := if template.Some? && template.value != "" then template.value else "fa-default";
      match render(seccao.n, numero.n, templateId)
      case Ok(pdf) => Success(200, pdf)
      case Failure(_) => Error(500, "Erro ao gerar PDF da Ficha")
  }

  /** The kinds of report with an active template. */
  predicate ReportType(t: Option<string>)
  {
    t == Some("recepcoes") || t == Some("fa")
  }

  /** `getActiveTemplate`: 400 'Tipo inválido' for any other type, else the stored id (500 when the store fails). */
  function GetActiveTemplate(t: Option<string>, active: string -> Result<string>): (r: Reply<(string, string)>)
    ensures !ReportType(t) <==> r == Error(400, "Tipo inválido")
    ensures ReportType(t) && active(t.value).Ok? ==> r == Success(200, (t.value, active(t.value).value))
    ensures ReportType(t) && active(t.value).Failure? ==> r == Error(500, "Erro ao obter template ativo")
  {
    if !ReportType(t) then Error(400, "Tipo inválido")
    else
      var id := active(t.value);
      if id.Failure? then Error(500, "Erro ao obter template ativo") else Success(200, (t.value, id.value))
  }

  /** `setActiveTemplate`: 400 unless a valid type and a template id are given; 500 when the store fails. */
  function SetActiveTemplate(t: Option<string>, templateId: Option<string>, store: (string, string) -> Result<()>)
    : (r: Reply<()>)
    ensures !ReportType(t) || templateId.None? || templateId.value == "" <==>
      r == Error(400, "Parâmetros inválidos")
    ensures ReportType(t) && templateId.Some? && templateId.value != "" ==>
      r == if store(t.value, templateId.value).Ok? then Success(200, ()) else Error(500, "Erro ao definir template ativo")
  {
    if !ReportType(t) || templateId.None? || templateId.value == "" then Error(400, "Parâmetros inválidos")
    else if store(t.value, templateId.value).Ok? then Success(200, ())
    else Error(500, "Erro ao definir template ativo")
  }

  /** The template a body describes is complete enough to save. */
  predicate SavableTemplate(t: ReportTemplate)
  {
    t.id != "" && t.name != "" && t.template.Truthy()
  }

  /**
   * `saveTemplate`: 400 'Dados do template inválidos' unless id, name and template are given;
   * then the template is written stamped, 500 when the directory is missing.
   */
  function SaveTemplateHandler(folder: Folder, t: ReportTemplate, now: int): (r: (Reply<string>, Folder))
    ensures !SavableTemplate(t) ==> r == (Error(400, "Dados do template inválidos"), folder)
    ensures SavableTemplate(t) && !folder.readable ==> r == (Error(500, "Erro ao salvar template"), folder)
    ensures SavableTemplate(t) && folder.readable ==>
      r == (Success(200, "Template salvo com sucesso"), SaveTemplate(folder, t, now).value)
  {
    if !SavableTemplate(t) then (Error(400, "Dados do template inválidos"), folder)
    else
      var saved := SaveTemplate(folder, t, now);
      if saved.Failure? then (Error(500, "Erro ao salvar template"), folder)
      else (Success(200, "Template salvo com sucesso"), saved.value)
  }

  /** The starter template of `createTemplate`, created at `created` (milliseconds). */
  function NewTemplate(name: string, description: Option<string>, created: nat): (t: ReportTemplate)
    ensures t.id == "recepcoes-" + NatToString(created) && t.name == name
    ensures t.description == description.GetOr("")
    ensures t.template == StarterReport && t.styles == StarterStyles && t.createdAt == created
  {
    ReportTemplate(
      "recepcoes-" + NatToString(created), name, description.GetOr(""), StarterReport, StarterStyles,
      created, created)
  }

  /**
   * `createTemplate`: 400 without a name; otherwise the starter template is saved, and the reply
   * shows it as saved (the save stamps the very object that is then sent back).
   */
  function CreateTemplate(folder: Folder, name: Option<string>, description: Option<string>, created: nat, now: int)
    : (r: (Reply<ReportTemplate>, Folder))
    ensures name.None? || name.value == "" ==> r == (Error(400, "Nome do template é obrigatório"), folder)
    ensures name.Some? && name.value != "" && !folder.readable ==> r == (Error(500, "Erro ao criar template"), folder)
    ensures name.Some? && name.value != "" && folder.readable ==>
      var t := NewTemplate(name.value, description, created);
      r == (Success(200, Stamp(t, now)), SaveTemplate(folder, t, now).value)
  {
    if name.None? || name.value == "" then (Error(400, "Nome do template é obrigatório"), folder)
    else
      var template := NewTemplate(name.value, description, created);
      var saved := SaveTemplate(folder, template, now);
      if saved.Failure? then (Error(500, "Erro ao criar template"), folder)
      else (Success(200, Stamp(template, now)), saved.value)
  }

  /** A created template is the one then read back by its id, and it is listed. */
  lemma CreatedTemplateReadsBack(folder: Folder, name: string, description: Option<string>, created: nat, now: int, later: int)
    requires name != "" && folder.readable
    ensures var (reply, after) := CreateTemplate(folder, Some(name), description, created, now);
      reply.Success? && GetTemplate(after, reply.data.id, later) == reply.data && reply.data in Parsed(after.files)
  {
    var t := NewTemplate(name, description, created);
    SaveThenGet(folder, t, now, t.id, later);
    SavedIsListed(folder, t, now);
  }
}
