/**
 * The HTML report service: the totals of a reception report, the template helpers and the
 * template files. The templates directory is a value (`Folder`): whether it can be read, and the
 * files in the order the directory lists them, each with its template or None when the file
 * cannot be read or parsed. The built-in HTML and CSS are named values, not reproduced.
 */
module ReportService {
  import opened Wrappers
  import opened Js
  import opened Sql
  import opened RecepcaoService

  // ---------------------------------------------------------------- templates

  /** A template's markup: text, or one of the built-in documents. */
  datatype Markup = Written(text: string) | DefaultReport | DefaultStyles | StarterReport | StarterStyles
  {
    /** `!template.template` is false: the built-in documents are never empty. */
    predicate Truthy()
    {
      !this.Written? || text != ""
    }
  }

  /** `ReportTemplate`; dates are instants. */
  datatype ReportTemplate = ReportTemplate(
    id: string, name: string, description: string, template: Markup, styles: Markup,
    createdAt: int, updatedAt: int)

  const DefaultId := "recepcoes-default"

  /** `getDefaultRecepcaoTemplate`, created and updated at `now`. */
  function DefaultTemplate(now: int): (t: ReportTemplate)
    ensures t.id == DefaultId && t.template == DefaultReport && t.styles == DefaultStyles
    ensures t.createdAt == now && t.updatedAt == now
  {
    ReportTemplate(
      DefaultId, "Recepções - Template Padrão", "Template padrão para relatório de recepções pendentes",
      DefaultReport, DefaultStyles, now, now)
  }

  /** The templates directory. */
  datatype Folder = Folder(readable: bool, files: seq<(string, Option<ReportTemplate>)>)

  /** The content of the first file called `name`, if there is one. */
  function Find(files: seq<(string, Option<ReportTemplate>)>, name: string): (c: Option<Option<ReportTemplate>>)
    ensures c.Some? <==> exists i :: 0 <= i < |files| && files[i].0 == name
    ensures c.Some? ==> exists i :: 0 <= i < |files| && files[i] == (name, c.value)
  {
    if files == [] then None
    else if files[0].0 == name then Some(files[0].1)
    else
      var c := Find(files[1..], name);
      assert forall i :: 0 < i < |files| ==> files[i] == files[1..][i - 1];
      c
  }

  /** Writing file `name`: its content replaced where it is, or the file added at the end. */
  function Put(files: seq<(string, Option<ReportTemplate>)>, name: string, c: Option<ReportTemplate>)
    : (r: seq<(string, Option<ReportTemplate>)>)
    ensures |r| == |files| || |r| == |files| + 1
  {
    if files == [] then [(name, c)]
    else if files[0].0 == name then [(name, c)] + files[1..]
    else [files[0]] + Put(files[1..], name, c)
  }

  /** A written file reads back as written, and every other file reads as before. */
  lemma {:induction false} FindPut(files: seq<(string, Option<ReportTemplate>)>, name: string, c: Option<ReportTemplate>, other: string)
    ensures Find(Put(files, name, c), name) == Some(c)
    ensures other != name ==> Find(Put(files, name, c), other) == Find(files, other)
  {
    if files != [] && files[0].0 != name {
      FindPut(files[1..], name, c, other);
      assert Put(files, name, c)[1..] == Put(files[1..], name, c);
    } else if files != [] {
      assert Put(files, name, c)[1..] == files[1..];
    }
  }

  /** `${templateId}.json`. */
  function FileName(id: string): string
  {
    id + ".json"
  }

  /**
   * `getTemplate`: the stored template, or the built-in one (at `now`) whenever the file is
   * missing or unreadable or does not parse.
   */
  function GetTemplate(folder: Folder, id: string, now: int): (t: ReportTemplate)
    ensures (folder.readable && Find(folder.files, FileName(id)) == Some(Some(t))) || t == DefaultTemplate(now)
    ensures var c := Find(folder.files, FileName(id));
      folder.readable && c.Some? && c.value.Some? ==> t == c.value.value
    ensures !folder.readable || Find(folder.files, FileName(id)).None? ==> t == DefaultTemplate(now)
    ensures folder.readable && Find(folder.files, FileName(id)) == Some(None) ==> t == DefaultTemplate(now)
  {
    var c := if folder.readable then Find(folder.files, FileName(id)) else None;
    if c.Some? && c.value.Some? then c.value.value else DefaultTemplate(now)
  }

  /** `template.updatedAt = new Date()`. */
  function Stamp(t: ReportTemplate, now: int): (s: ReportTemplate)
    ensures s.updatedAt == now && s == t.(updatedAt := now)
  {
    t.(updatedAt := now)
  }

  /** `saveTemplate`: the template stamped at `now` written to its file; fails where the directory does not exist. */
  function SaveTemplate(folder: Folder, t: ReportTemplate, now: int): (r: Result<Folder>)
    ensures r.Failure? <==> !folder.readable
    ensures r.Ok? ==> r.value == Folder(true, Put(folder.files, FileName(t.id), Some(Stamp(t, now))))
  {
    if !folder.readable then Failure("ENOENT")
    else Ok(Folder(true, Put(folder.files, FileName(t.id), Some(Stamp(t, now)))))
  }

  /** A saved template is read back stamped, and the other templates are unaffected. */
  lemma SaveThenGet(folder: Folder, t: ReportTemplate, now: int, other: string, later: int)
    requires SaveTemplate(folder, t, now).Ok?
    ensures GetTemplate(SaveTemplate(folder, t, now).value, t.id, later) == Stamp(t, now)
    ensures other != t.id ==>
      GetTemplate(SaveTemplate(folder, t, now).value, other, later) == GetTemplate(folder, other, later)
  {
    FindPut(folder.files, FileName(t.id), Some(Stamp(t, now)), FileName(other));
    if other != t.id {
      FileNameInjective(other, t.id);
      FindPut(folder.files, FileName(t.id), Some(Stamp(t, now)), FileName(other));
    }
  }

  /** Different ids have different files. */
  lemma FileNameInjective(a: string, b: string)
    ensures FileName(a) == FileName(b) ==> a == b
  {
    assert FileName(a)[..|a|] == a;
    assert FileName(b)[..|b|] == b;
  }

  predicate EndsWith(s: string, suffix: string)
  {
    |suffix| <= |s| && s[|s| - |suffix|..] == suffix
  }

  /** The templates of the readable `.json` files, in directory order. */
  function Parsed(files: seq<(string, Option<ReportTemplate>)>): (ts: seq<ReportTemplate>)
    ensures |ts| <= |files|
  {
    if files == [] then []
    else
      var last := files[|files| - 1];
      Parsed(files[..|files| - 1]) + if EndsWith(last.0, ".json") && last.1.Some? then [last.1.value] else []
  }

  /** `listTemplates`: the parsed `.json` files, or the built-in template alone when the directory cannot be read. */
  method ListTemplates(folder: Folder, now: int) returns (templates: seq<ReportTemplate>)
    ensures !folder.readable ==> templates == [DefaultTemplate(now)]
    ensures folder.readable ==> templates == Parsed(folder.files)
  {
    if !folder.readable {
      return [DefaultTemplate(now)];
    }
    templates := [];
    var i := 0;
    while i < |folder.files|
      invariant 0 <= i <= |folder.files|
      invariant templates == Parsed(folder.files[..i])
    {
      var file := folder.files[i];
      assert folder.files[..i + 1][..i] == folder.files[..i];
      if EndsWith(file.0, ".json") && file.1.Some? {
        templates := templates + [file.1.value];
      }
      i := i + 1;
    }
    assert folder.files[..i] == folder.files;
  }

  /** Every listed template comes from a readable `.json` file of the directory. */
  lemma {:induction false} ParsedFromJsonFiles(files: seq<(string, Option<ReportTemplate>)>, t: ReportTemplate)
    requires t in Parsed(files)
    ensures exists i :: 0 <= i < |files| && EndsWith(files[i].0, ".json") && files[i].1 == Some(t)
  {
    var front := files[..|files| - 1];
    var last := files[|files| - 1];
    if t in Parsed(front) {
      ParsedFromJsonFiles(front, t);
      var i :| 0 <= i < |front| && EndsWith(front[i].0, ".json") && front[i].1 == Some(t);
      assert files[i] == front[i];
    } else {
      assert EndsWith(last.0, ".json") && last.1 == Some(t);
    }
  }

  /** A readable file with a template is listed. */
  lemma {:induction false} ParsedIncludes(files: seq<(string, Option<ReportTemplate>)>, i: nat)
    requires i < |files| && EndsWith(files[i].0, ".json") && files[i].1.Some?
    ensures files[i].1.value in Parsed(files)
  {
    if i < |files| - 1 {
      ParsedIncludes(files[..|files| - 1], i);
    }
  }

  /** After a save, the listing shows the saved template. */
  lemma SavedIsListed(folder: Folder, t: ReportTemplate, now: int)
    requires SaveTemplate(folder, t, now).Ok?
    ensures Stamp(t, now) in Parsed(SaveTemplate(folder, t, now).value.files)
  {
    var files := SaveTemplate(folder, t, now).value.files;
    FindPut(folder.files, FileName(t.id), Some(Stamp(t, now)), FileName(t.id));
    var i :| 0 <= i < |files| && files[i] == (FileName(t.id), Some(Stamp(t, now)));
    assert EndsWith(FileName(t.id), ".json") by {
      assert FileName(t.id)[|FileName(t.id)| - 5..] == ".json";
    }
    ParsedIncludes(files, i);
  }

  // ---------------------------------------------------------------- helpers

  /** The `subtract` helper: `a - b` on numbers, NaN when either is NaN. */
  function Subtract(a: JsNumber, b: JsNumber): (r: JsNumber)
    ensures r.NaN? <==> a.NaN? || b.NaN?
    ensures r.Num? ==> r.n + b.n == a.n
  {
    if a.NaN? || b.NaN? then NaN else Num(a.n - b.n)
  }

  /** The `eq` helper, `a === b`: equal values, except that NaN equals nothing. */
  predicate StrictEquals(a: JsValue, b: JsValue)
  {
    a == b && a != Number(NaN)
  }

  /** `===` is symmetric, and reflexive for every value but NaN. */
  lemma StrictEqualsLaws(a: JsValue, b: JsValue)
    ensures StrictEquals(a, b) <==> StrictEquals(b, a)
    ensures StrictEquals(a, a) <==> a != Number(NaN)
    ensures StrictEquals(a, b) ==> a == b
  {
  }

  /** `eachWithIndex`'s output as it promises: the block of every element, in order, with its 1-based index. */
  function Indexed<T>(items: seq<T>, block: (T, nat) -> string): (r: string)
  {
    Concat(seq(|items|, i requires 0 <= i < |items| => block(items[i], i + 1)))
  }

  /** The `eachWithIndex` helper: `result += options.fn({ ...items[i], index: i + 1 })`. */
  method EachWithIndex<T>(items: seq<T>, block: (T, nat) -> string) returns (result: string)
    ensures result == Indexed(items, block)
  {
    result := "";
    var i := 0;
    while i < |items|
      invariant 0 <= i <= |items|
      invariant result == Indexed(items[..i], block)
    {
      IndexedSnoc(items[..i], items[i], block);
      assert items[..i + 1] == items[..i] + [items[i]];
      result := result + block(items[i], i + 1);
      i := i + 1;
    }
    assert items[..i] == items;
  }

  /** One more element adds its block, numbered after the others. */
  lemma IndexedSnoc<T>(items: seq<T>, x: T, block: (T, nat) -> string)
    ensures Indexed(items + [x], block) == Indexed(items, block) + block(x, |items| + 1)
  {
    var a := items + [x];
    var parts := seq(|a|, i requires 0 <= i < |a| => block(a[i], i + 1));
    assert parts[..|parts| - 1] == seq(|items|, i requires 0 <= i < |items| => block(items[i], i + 1));
  }

  // ---------------------------------------------------------------- totals

  function Rolos(r: Recepcao): int { r.rolos }
  function Pesos(r: Recepcao): int { r.pesos }
  function RolosEntregues(r: Recepcao): int { r.rolosEntregues }
  function PesosEntregues(r: Recepcao): int { r.pesosEntregues }
  function RolosPendentes(r: Recepcao): int { r.rolos - r.rolosEntregues }
  function PesosPendentes(r: Recepcao): int { r.pesos - r.pesosEntregues }

  /** The sum of one column over the records. */
  function Sum(rs: seq<Recepcao>, col: Recepcao -> int): int
  {
    if rs == [] then 0 else Sum(rs[..|rs| - 1], col) + col(rs[|rs| - 1])
  }

  datatype Totals = Totals(rolosPendentes: int, pesosPendentes: int, rolosTotal: int, pesosTotal: int)

  /** The `reduce` of `generateRecepcoesPDF`: four running sums from zero. */
  method ComputeTotals(recepcoes: seq<Recepcao>) returns (acc: Totals)
    ensures acc == Totals(
      Sum(recepcoes, RolosPendentes), Sum(recepcoes, PesosPendentes), Sum(recepcoes, Rolos), Sum(recepcoes, Pesos))
  {
    acc := Totals(0, 0, 0, 0);
    var i := 0;
    while i < |recepcoes|
      invariant 0 <= i <= |recepcoes|
      invariant acc == Totals(
        Sum(recepcoes[..i], RolosPendentes), Sum(recepcoes[..i], PesosPendentes),
        Sum(recepcoes[..i], Rolos), Sum(recepcoes[..i], Pesos))
    {
      var recepcao := recepcoes[i];
      assert recepcoes[..i + 1][..i] == recepcoes[..i];
      acc := acc.(rolosPendentes := acc.rolosPendentes + (recepcao.rolos - recepcao.rolosEntregues));
      acc := acc.(pesosPendentes := acc.pesosPendentes + (recepcao.pesos - recepcao.pesosEntregues));
      acc := acc.(rolosTotal := acc.rolosTotal + recepcao.rolos);
      acc := acc.(pesosTotal := acc.pesosTotal + recepcao.pesos);
      i := i + 1;
    }
    assert recepcoes[..i] == recepcoes;
  }

  /** What is pending is what was received less what was delivered, over any list of records. */
  lemma {:induction false} PendingIsReceivedLessDelivered(rs: seq<Recepcao>)
    ensures Sum(rs, RolosPendentes) == Sum(rs, Rolos) - Sum(rs, RolosEntregues)
    ensures Sum(rs, PesosPendentes) == Sum(rs, Pesos) - Sum(rs, PesosEntregues)
  {
    if rs != [] {
      PendingIsReceivedLessDelivered(rs[..|rs| - 1]);
    }
  }

  /** The footer's pending totals are the sums of the rows' `subtract` figures. */
  lemma RowFiguresAddUp(r: Recepcao)
    ensures Subtract(Num(r.rolos), Num(r.rolosEntregues)) == Num(RolosPendentes(r))
    ensures Subtract(Num(r.pesos), Num(r.pesosEntregues)) == Num(PesosPendentes(r))
  {
  }

  // ---------------------------------------------------------------- the report

  /** `ReportData`: what the template is rendered with. */
  datatype ReportData = ReportData(
    title: string, subtitle: string, date: string, user: string,
    data: seq<Recepcao>, totals: Totals, filters: Option<Filters>)

  /**
   * `generateRecepcoesPDF` up to the renderer: the template looked up by id (the built-in one
   * when none is given) and the data it is rendered with. `date` is the formatted clock.
   */
  method RecepcoesReport(folder: Folder, recepcoes: seq<Recepcao>, filters: Option<Filters>, templateId: Option<string>,
                         date: string, now: int)
    returns (template: ReportTemplate, data: ReportData)
    ensures template == GetTemplate(folder, templateId.GetOr(DefaultId), now)
    ensures data.data == recepcoes && data.filters == filters && data.date == date
    ensures data.title == "Relatório de Recepções Pendentes" && data.user == "Sistema"
    ensures data.totals.rolosPendentes == data.totals.rolosTotal - Sum(recepcoes, RolosEntregues)
    ensures data.totals.pesosPendentes == data.totals.pesosTotal - Sum(recepcoes, PesosEntregues)
    ensures data.totals.rolosTotal == Sum(recepcoes, Rolos) && data.totals.pesosTotal == Sum(recepcoes, Pesos)
    ensures recepcoes == [] ==> data.totals == Totals(0, 0, 0, 0)
  {
    template := GetTemplate(folder, templateId.GetOr(DefaultId), now);
    var totais := ComputeTotals(recepcoes);
    PendingIsReceivedLessDelivered(recepcoes);
    data := ReportData(
      "Relatório de Recepções Pendentes", "Tinturaria - Gestão de Produção", date, "Sistema",
      recepcoes, totais, filters);
  }
}
