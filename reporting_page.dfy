/**
 * The report-template administration page: the list of templates, the one selected, its copy,
 * a new one, and the preview addresses. The backend's answers, the clock and the name typed at
 * the prompt are parameters; `encode` stands for `encodeURIComponent`.
 */
module ReportingPage {
  import opened Wrappers
  import opened Js

  datatype ReportTemplate = ReportTemplate(id: string, name: string, description: Option<string>, template: string, styles: string)

  /** `{ success, data }` of a listing or a read. */
  datatype Answer<T> = Answer(success: bool, data: Option<T>)

  const CopyTag := "-copy-"
  const CopySuffix := " (cópia)"

  /** `duplicate`'s copy: the same template under a new id and a marked name. */
  function Copy(m: ReportTemplate, now: nat): (c: ReportTemplate)
    ensures c.id == m.id + CopyTag + NatToString(now) && c.name == m.name + CopySuffix
    ensures c.template == m.template && c.styles == m.styles && c.description == m.description
  {
    m.(id := m.id + CopyTag + NatToString(now), name := m.name + CopySuffix)
  }

  /** A copy never has its original's id, and its id begins with the original's. */
  lemma CopyIsDistinct(m: ReportTemplate, now: nat)
    ensures Copy(m, now).id != m.id && StartsWith(Copy(m, now).id, m.id)
    ensures Copy(m, now) != m
  {
    assert |Copy(m, now).id| > |m.id|;
    assert Copy(m, now).id[..|m.id|] == m.id;
  }

  /** The selection after a listing: the first template, only when none is selected and there is one. */
  function AutoSelected(selectedId: string, list: seq<ReportTemplate>): (s: string)
    ensures selectedId != "" ==> s == selectedId
    ensures selectedId == "" && list == [] ==> s == ""
    ensures selectedId == "" && list != [] ==> s == list[0].id
    ensures s == selectedId || exists t :: t in list && t.id == s
  {
    if selectedId == "" && list != [] then list[0].id else selectedId
  }

  /** The preview address of the receptions report with the selected template. */
  function RecepcoesPreviewUrl(apiBase: string, selectedId: string, encode: string -> string): (u: string)
    ensures StartsWith(u, apiBase + "/reports/recepcoes/preview?template=")
    ensures u[|apiBase + "/reports/recepcoes/preview?template="|..] == encode(selectedId)
  {
    var prefix := apiBase + "/reports/recepcoes/preview?template=";
    assert (prefix + encode(selectedId))[..|prefix|] == prefix;
    prefix + encode(selectedId)
  }

  /** The FA preview address: empty unless both the section and the number are filled in. */
  function FaPreviewUrl(apiBase: string, seccao: string, numero: string, selectedId: string, encode: string -> string): (u: string)
    ensures u == "" <==> seccao == "" || numero == ""
    ensures u != "" ==> u == apiBase + "/reports/fa/" + seccao + "/" + numero + "?template=" + encode(selectedId)
  {
    if seccao == "" || numero == "" then ""
    else
      var u := apiBase + "/reports/fa/" + seccao + "/" + numero + "?template=" + encode(selectedId);
      assert |u| > 0;
      u
  }

  /** The name from the prompt is used only when it was neither cancelled nor left empty. */
  predicate NameGiven(name: Option<string>)
  {
    name.Some? && name.value != ""
  }

  class ReportingState {
    var templates: seq<ReportTemplate>
    var selectedId: string
    var model: Option<ReportTemplate>
    var faSeccao: string
    var faNumero: string

    constructor()
      ensures templates == [] && selectedId == "" && model == None && faSeccao == "" && faNumero == ""
    {
      templates := [];
      selectedId := "";
      model := None;
      faSeccao := "";
      faNumero := "";
    }

    /** `loadTemplates`: a successful answer replaces the list (`data || []`) and may pick the first one. */
    method LoadTemplates(response: Result<Answer<seq<ReportTemplate>>>)
      modifies this`templates, this`selectedId
      ensures response.Ok? && response.value.success ==>
        templates == response.value.data.GetOr([]) && selectedId == AutoSelected(old(selectedId), templates)
      ensures !(response.Ok? && response.value.success) ==> templates == old(templates) && selectedId == old(selectedId)
    {
      if response.Ok? && response.value.success {
        templates := response.value.data.GetOr([]);
        selectedId := AutoSelected(selectedId, templates);
      }
    }

    /** `loadTemplate` for the selection: a successful answer becomes the model being edited. */
    method LoadTemplate(response: Result<Answer<ReportTemplate>>)
      modifies this`model
      ensures response.Ok? && response.value.success ==> model == response.value.data
      ensures !(response.Ok? && response.value.success) ==> model == old(model)
    {
      if response.Ok? && response.value.success {
        model := response.value.data;
      }
    }

    /** `duplicate`: without a model nothing happens; otherwise its copy is put first and selected. */
    method Duplicate(now: nat)
      modifies this`templates, this`selectedId, this`model
      ensures old(model).None? ==> templates == old(templates) && selectedId == old(selectedId) && model == None
      ensures old(model).Some? ==>
        var c := Copy(old(model).value, now);
        templates == [c] + old(templates) && selectedId == c.id && model == Some(c)
    {
      if model.None? {
        return;
      }
      var c := Copy(model.value, now);
      templates := [c] + templates;
      selectedId := c.id;
      model := Some(c);
    }

    /**
     * `createNew`: a cancelled or empty name does nothing; otherwise the template is created,
     * the list reloaded and the new template selected.
     */
    method CreateNew(name: Option<string>, created: Result<Answer<string>>, reload: Result<Answer<seq<ReportTemplate>>>)
      returns (requested: Option<string>)
      modifies this`templates, this`selectedId
      ensures requested.Some? <==> NameGiven(name)
      ensures requested.Some? ==> requested == name
      ensures !NameGiven(name) ==> templates == old(templates) && selectedId == old(selectedId)
      ensures NameGiven(name) && created.Ok? && created.value.success && created.value.data.Some? ==>
        selectedId == created.value.data.value
      ensures NameGiven(name) && created.Ok? && created.value.success && reload.Ok? && reload.value.success ==>
        templates == reload.value.data.GetOr([])
      ensures NameGiven(name) && created.Ok? && created.value.success && created.value.data.None? ==>
        if reload.Ok? && reload.value.success then selectedId == AutoSelected(old(selectedId), templates)
        else selectedId == old(selectedId)
      ensures NameGiven(name) && created.Ok? && created.value.success && !(reload.Ok? && reload.value.success) ==>
        templates == old(templates)
      ensures NameGiven(name) && !(created.Ok? && created.value.success) ==> templates == old(templates) && selectedId == old(selectedId)
    {
      if !NameGiven(name) {
        return None;
      }
      requested := name;
      if created.Ok? && created.value.success {
        LoadTemplates(reload);
        if created.value.data.Some? {
          selectedId := created.value.data.value;
        }
      }
    }

    /** `save`: without a model nothing is sent; a saved model reloads the list. */
    method Save(outcome: Result<()>, reload: Result<Answer<seq<ReportTemplate>>>) returns (sent: Option<ReportTemplate>)
      modifies this`templates, this`selectedId
      ensures sent == model
      ensures sent.None? || outcome.Failure? ==> templates == old(templates) && selectedId == old(selectedId)
      ensures sent.Some? && outcome.Ok? && reload.Ok? && reload.value.success ==> templates == reload.value.data.GetOr([])
    {
      sent := model;
      if model.Some? && outcome.Ok? {
        LoadTemplates(reload);
      }
    }
  }
}
