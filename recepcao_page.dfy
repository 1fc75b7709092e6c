/**
 * The reception page of the dye house: a paged, filtered list of received lots, and a form to
 * create or edit one. The backend's answers, today's date and the user's confirmations are
 * parameters; the query string the page builds is read back with the listing handler's own parsing.
 */
module RecepcaoPage {
  import opened Wrappers
  import opened Js
  import opened SearchModal
  import RecepcaoController
  import Http
  import RecepcaoService

  /** A received lot as the listing returns it. */
  datatype MovRecepcao = MovRecepcao(
    seccao: int, data: string, linha: int, cliente: int, nome: string, codigo: int, descricao: string,
    composicao: int, composicaoDescricao: string, rolos: int, pesos: int, gramagem: int, medidas: int,
    branquear: string, desencolar: string, tingir: string, rolosEntregues: int, pesosEntregues: int,
    requisicao: Option<string>)

  /** The create/edit form. */
  datatype FormData = FormData(
    seccao: int, data: string, cliente: int, nome: string, codigo: int, descricao: string,
    composicao: int, composicaoDescricao: string, rolos: int, pesos: int, gramagem: int, medidas: int,
    branquear: string, desencolar: string, tingir: string, rolosEntregues: int, pesosEntregues: int,
    requisicao: string)

  datatype ListFilters = ListFilters(nome: string, requisicao: string, dataInicio: string, dataFim: string)

  /** An entry of a lookup list (clients, articles, compositions). */
  datatype Entry = Entry(codigo: int, text: string)

  /** The rows of a page and the number of pages. */
  datatype Page = Page(rows: seq<MovRecepcao>, totalPages: int)

  // ---------------------------------------------------------------- pagination

  /** "Anterior": one page back, never before the first. */
  function PrevPage(p: int): (r: int)
    ensures r >= 1 && r <= if p > 1 then p else 1
    ensures p > 1 ==> r == p - 1
  {
    if p - 1 > 1 then p - 1 else 1
  }

  /** "Próxima": one page on, never past the last. */
  function NextPage(p: int, totalPages: int): (r: int)
    ensures r <= totalPages && r <= p + 1
    ensures p < totalPages ==> r == p + 1
    ensures p >= totalPages ==> r == totalPages
  {
    if p + 1 < totalPages then p + 1 else totalPages
  }

  /** Paging keeps a page within range, and a step forward is undone by a step back and conversely. */
  lemma PagingStaysInRange(p: int, totalPages: int)
    requires 1 <= p <= totalPages
    ensures 1 <= PrevPage(p) <= totalPages && 1 <= NextPage(p, totalPages) <= totalPages
    ensures p < totalPages ==> PrevPage(NextPage(p, totalPages)) == p
    ensures p > 1 ==> NextPage(PrevPage(p), totalPages) == p
  {
  }

  // ---------------------------------------------------------------- the table

  /** The rolls and the weight still to deliver, as the table shows them. */
  function PendingRolos(m: MovRecepcao): (n: int)
    ensures n + m.rolosEntregues == m.rolos
  {
    m.rolos - m.rolosEntregues
  }

  function PendingPesos(m: MovRecepcao): (n: int)
    ensures n + m.pesosEntregues == m.pesos
  {
    m.pesos - m.pesosEntregues
  }

  const Treatments := ["Branquear", "Desencolar", "Tingir"]

  /** The treatments flagged 'S', in the fixed order. */
  function Flagged(m: MovRecepcao): (r: seq<string>)
    ensures IsSubsequence(r, Treatments)
    ensures "Branquear" in r <==> m.branquear == "S"
    ensures "Desencolar" in r <==> m.desencolar == "S"
    ensures "Tingir" in r <==> m.tingir == "S"
  {
    var r := (if m.branquear == "S" then ["Branquear"] else []) + (if m.desencolar == "S" then ["Desencolar"] else [])
      + (if m.tingir == "S" then ["Tingir"] else []);
    FlaggedSubsequence(m.branquear == "S", m.desencolar == "S", m.tingir == "S");
    r
  }

  lemma FlaggedSubsequence(b: bool, d: bool, t: bool)
    ensures IsSubsequence((if b then ["Branquear"] else []) + (if d then ["Desencolar"] else [])
                          + (if t then ["Tingir"] else []), Treatments)
  {
    var tail := (if t then ["Tingir"] else []);
    assert IsSubsequence(tail, ["Tingir"]);
    var mid := (if d then ["Desencolar"] else []) + tail;
    assert Treatments[1..] == ["Desencolar", "Tingir"];
    assert ["Desencolar", "Tingir"][1..] == ["Tingir"];
    assert IsSubsequence(mid, ["Desencolar", "Tingir"]);
    assert Treatments[1..] == ["Desencolar", "Tingir"];
  }

  /** The treatments column: the flagged names joined by ", ", or '-' when none is flagged. */
  function ProcessLabel(m: MovRecepcao): (s: string)
    ensures s == "-" <==> m.branquear != "S" && m.desencolar != "S" && m.tingir != "S"
    ensures Flagged(m) != [] ==> StartsWith(s, Flagged(m)[0])
  {
    var names := Flagged(m);
    if names == [] then "-"
    else
      assert |Join(names, ", ")| >= |names[0]| >= |"Tingir"|;
      Join(names, ", ")
  }

  // ---------------------------------------------------------------- the form

  /** `data.split('T')[0]`: the date part of a timestamp. */
  function DatePart(s: string): (r: string)
    ensures 'T' !in r && StartsWith(s, r)
    ensures |r| < |s| ==> s[|r|] == 'T'
  {
    SplitHeadIsPrefix(s, 'T');
    Split(s, 'T')[0]
  }

  /** The first piece of a split is the text up to the first separator. */
  lemma {:induction false} SplitHeadIsPrefix(s: string, sep: char)
    ensures StartsWith(s, Split(s, sep)[0])
    ensures |Split(s, sep)[0]| < |s| ==> s[|Split(s, sep)[0]|] == sep
  {
    if |s| > 0 && s[0] != sep {
      SplitHeadIsPrefix(s[1..], sep);
      assert s == [s[0]] + s[1..];
    }
  }

  /** A date without a time is its own date part. */
  lemma DatePartOfDate(s: string)
    requires 'T' !in s
    ensures DatePart(s) == s
  {
    SplitWithoutSep(s, 'T');
  }

  /** `resetForm`: section 1, today's date, zeros, 'N' flags and empty texts. */
  function EmptyForm(today: string): (f: FormData)
    ensures f.seccao == 1 && f.data == today && f.branquear == "N" && f.desencolar == "N" && f.tingir == "N"
    ensures f.cliente == 0 && f.codigo == 0 && f.composicao == 0 && f.rolos == 0 && f.pesos == 0
    ensures f.nome == "" && f.descricao == "" && f.composicaoDescricao == "" && f.requisicao == ""
    ensures f.gramagem == 0 && f.medidas == 0 && f.rolosEntregues == 0 && f.pesosEntregues == 0
  {
    FormData(1, today, 0, "", 0, "", 0, "", 0, 0, 0, 0, "N", "N", "N", 0, 0, "")
  }

  /** `handleEdit`'s form: the lot's fields, the date part of its date, '' for a missing requisition. */
  function FormOf(m: MovRecepcao): (f: FormData)
    ensures f.data == DatePart(m.data) && f.requisicao == m.requisicao.GetOr("")
    ensures f.seccao == m.seccao && f.cliente == m.cliente && f.nome == m.nome && f.codigo == m.codigo
    ensures f.rolos == m.rolos && f.pesos == m.pesos && f.rolosEntregues == m.rolosEntregues
    ensures f.branquear == m.branquear && f.desencolar == m.desencolar && f.tingir == m.tingir
    ensures f.descricao == m.descricao && f.composicao == m.composicao && f.composicaoDescricao == m.composicaoDescricao
    ensures f.gramagem == m.gramagem && f.medidas == m.medidas && f.pesosEntregues == m.pesosEntregues
  {
    FormData(m.seccao, DatePart(m.data), m.cliente, m.nome, m.codigo, m.descricao, m.composicao,
             m.composicaoDescricao, m.rolos, m.pesos, m.gramagem, m.medidas, m.branquear, m.desencolar,
             m.tingir, m.rolosEntregues, m.pesosEntregues, m.requisicao.GetOr(""))
  }

  /** `list.find(e => e.codigo === code)`. */
  function FindEntry(list: seq<Entry>, code: int): (r: Option<Entry>)
    ensures r.Some? ==> r.value in list && r.value.codigo == code
    ensures r.None? ==> forall e :: e in list ==> e.codigo != code
    ensures r.Some? ==> exists i :: 0 <= i < |list| && list[i] == r.value && forall j :: 0 <= j < i ==> list[j].codigo != code
  {
    if list == [] then None
    else if list[0].codigo == code then
      assert list[0] == list[0];
      Some(list[0])
    else
      var r := FindEntry(list[1..], code);
      if r.Some? then
        var i :| 0 <= i < |list[1..]| && list[1..][i] == r.value && forall j :: 0 <= j < i ==> list[1..][j].codigo != code;
        assert list[i + 1] == r.value;
        r
      else r
  }

  /** The name a lookup handler stores: the entry's text, or '' when the code is unknown. */
  function LookupText(list: seq<Entry>, code: int): (s: string)
    ensures FindEntry(list, code).None? ==> s == ""
    ensures FindEntry(list, code).Some? ==> s == FindEntry(list, code).value.text
  {
    if FindEntry(list, code).Some? then FindEntry(list, code).value.text else ""
  }

  // ---------------------------------------------------------------- the query string

  type Params = seq<(string, string)>

  /** `URLSearchParams.get`: the first value under a key. */
  function Get(ps: Params, key: string): (v: Option<string>)
    ensures v.Some? ==> (key, v.value) in ps
    ensures v.None? ==> forall p :: p in ps ==> p.0 != key
  {
    if ps == [] then None else if ps[0].0 == key then Some(ps[0].1) else Get(ps[1..], key)
  }

  lemma {:induction false} GetAppend(a: Params, b: Params, key: string)
    ensures Get(a + b, key) == if Get(a, key).Some? then Get(a, key) else Get(b, key)
  {
    if a != [] && a[0].0 != key {
      assert (a + b)[0] == a[0];
      assert (a + b)[1..] == a[1..] + b;
      GetAppend(a[1..], b, key);
      assert Get(a, key) == Get(a[1..], key);
    } else if a != [] {
      assert (a + b)[0] == a[0] && a + b != [];
      assert Get(a + b, key) == Some(a[0].1) == Get(a, key);
    } else {
      assert a + b == b;
    }
  }

  /** `...(value && { key: value })`: the pair only when the value is not empty. */
  function Optional(key: string, value: string): (ps: Params)
    ensures value == "" ==> ps == []
    ensures value != "" ==> ps == [(key, value)]
  {
    if value == "" then [] else [(key, value)]
  }

  /** The query string of a listing, a print or a preview: page, limit, then the filters in use. */
  function QueryParams(page: string, limit: string, f: ListFilters): (ps: Params)
    ensures |ps| >= 2 && ps[0] == ("page", page) && ps[1] == ("limit", limit)
    ensures forall p :: p in ps[2..] ==> p.1 != ""
  {
    [("page", page), ("limit", limit)] + Optional("nome", f.nome) + Optional("requisicao", f.requisicao)
      + Optional("dataInicio", f.dataInicio) + Optional("dataFim", f.dataFim)
  }

  /** `value || undefined` as the listing handler sees an absent parameter. */
  function NonEmpty(s: string): (o: Option<string>)
    ensures o.None? <==> s == ""
  {
    if s == "" then None else Some(s)
  }

  /** The query the listing handler receives from a query string. */
  function Received(ps: Params): (q: RecepcaoController.ListQuery)
    ensures q.page == Get(ps, "page") && q.limit == Get(ps, "limit") && q.nome == Get(ps, "nome")
  {
    RecepcaoController.ListQuery(
      Get(ps, "seccao"), Get(ps, "dataInicio"), Get(ps, "dataFim"), Get(ps, "cliente"), Get(ps, "nome"),
      Get(ps, "codigo"), Get(ps, "composicao"), Get(ps, "branquear"), Get(ps, "desencolar"), Get(ps, "tingir"),
      Get(ps, "utilizador"), Get(ps, "requisicao"), Get(ps, "page"), Get(ps, "limit"))
  }

  lemma GetOptional(k: string, v: string, key: string)
    ensures Get(Optional(k, v), key) == if key == k then NonEmpty(v) else None
  {
  }

  /** Under each key the query string holds the page's value, and nothing under any other key. */
  lemma GetQueryParams(page: string, limit: string, f: ListFilters, key: string)
    ensures Get(QueryParams(page, limit, f), key) ==
      if key == "page" then Some(page) else if key == "limit" then Some(limit)
      else if key == "nome" then NonEmpty(f.nome) else if key == "requisicao" then NonEmpty(f.requisicao)
      else if key == "dataInicio" then NonEmpty(f.dataInicio) else if key == "dataFim" then NonEmpty(f.dataFim)
      else None
  {
    var head: Params := [("page", page), ("limit", limit)];
    var a := Optional("nome", f.nome);
    var b := Optional("requisicao", f.requisicao);
    var c := Optional("dataInicio", f.dataInicio);
    var d := Optional("dataFim", f.dataFim);
    assert QueryParams(page, limit, f) == head + (a + (b + (c + d)));
    GetAppend(head, a + (b + (c + d)), key);
    GetAppend(a, b + (c + d), key);
    GetAppend(b, c + d, key);
    GetAppend(c, d, key);
    GetOptional("nome", f.nome, key);
    GetOptional("requisicao", f.requisicao, key);
    GetOptional("dataInicio", f.dataInicio, key);
    GetOptional("dataFim", f.dataFim, key);
  }

  /** Each parameter of the query string reads back as the page's value, or as absent. */
  lemma QueryParamsReadBack(page: string, limit: string, f: ListFilters)
    ensures Received(QueryParams(page, limit, f)) == RecepcaoController.ListQuery(
      None, NonEmpty(f.dataInicio), NonEmpty(f.dataFim), None, NonEmpty(f.nome), None, None, None, None, None,
      None, NonEmpty(f.requisicao), Some(page), Some(limit))
  {
    var ps := QueryParams(page, limit, f);
    GetQueryParams(page, limit, f, "seccao");
    GetQueryParams(page, limit, f, "dataInicio");
    GetQueryParams(page, limit, f, "dataFim");
    GetQueryParams(page, limit, f, "cliente");
    GetQueryParams(page, limit, f, "nome");
    GetQueryParams(page, limit, f, "codigo");
    GetQueryParams(page, limit, f, "composicao");
    GetQueryParams(page, limit, f, "branquear");
    GetQueryParams(page, limit, f, "desencolar");
    GetQueryParams(page, limit, f, "tingir");
    GetQueryParams(page, limit, f, "utilizador");
    GetQueryParams(page, limit, f, "requisicao");
    GetQueryParams(page, limit, f, "page");
    GetQueryParams(page, limit, f, "limit");
  }

  /**
   * The listing the server runs for the page's query string: the page asked for, ten rows,
   * and exactly the text and date filters the user filled in.
   */
  lemma ListingQueryRoundTrip(page: int, f: ListFilters)
    ensures var q := Received(QueryParams(IntToString(page), "10", f));
      var g := RecepcaoController.QueryFilters(q, Http.QueryNumber(q.page, 1), Http.QueryNumber(q.limit, 50));
      g.page == Some(Num(page)) && g.limit == Some(Num(10)) && g.nome == f.nome && g.requisicao == f.requisicao &&
      g.dataInicio == (if f.dataInicio == "" then Undefined else Str(f.dataInicio)) &&
      g.dataFim == (if f.dataFim == "" then Undefined else Str(f.dataFim)) &&
      g.cliente == Undefined && g.codigo == Undefined && g.utilizador == ""
  {
    var text := IntToString(page);
    QueryParamsReadBack(text, "10", f);
    var q := Received(QueryParams(text, "10", f));
    assert q.page == Some(text) && q.limit == Some("10");
    ParseIntToString(page);
    assert text != "" by { assert |NatToString(if page < 0 then -page else page)| > 0; }
    TenReadsBack();
    assert Http.QueryNumber(q.page, 1) == Num(page);
    assert Http.QueryNumber(q.limit, 50) == Num(10);
  }

  lemma TenReadsBack()
    ensures ParseInt("10") == Num(10)
  {
    ParseNatToString(10);
    assert NatToString(10) == NatToString(1) + [DigitChar(0)] == "10";
  }

  // ---------------------------------------------------------------- the page

  class RecepcaoState {
    var recepcoes: seq<MovRecepcao>
    var currentPage: int
    var totalPages: int
    var filters: ListFilters
    var form: FormData
    var editMode: bool
    var selected: Option<MovRecepcao>
    var showModal: bool
    var clientes: seq<Entry>
    var artigos: seq<Entry>
    var composicoes: seq<Entry>

    constructor(today: string)
      ensures recepcoes == [] && currentPage == 1 && totalPages == 1 && filters == ListFilters("", "", "", "")
      ensures form == EmptyForm(today) && !editMode && selected == None && !showModal
      ensures clientes == [] && artigos == [] && composicoes == []
    {
      recepcoes := [];
      currentPage := 1;
      totalPages := 1;
      filters := ListFilters("", "", "", "");
      form := EmptyForm(today);
      editMode := false;
      selected := None;
      showModal := false;
      clientes := [];
      artigos := [];
      composicoes := [];
    }

    /** `loadRecepcoes`: asks for the current page, ten rows, with the filters in use; a failure changes nothing. */
    method LoadRecepcoes(response: Result<Page>) returns (query: Params)
      modifies this`recepcoes, this`totalPages
      ensures query == QueryParams(IntToString(currentPage), "10", filters)
      ensures response.Ok? ==> recepcoes == response.value.rows && totalPages == response.value.totalPages
      ensures response.Failure? ==> recepcoes == old(recepcoes) && totalPages == old(totalPages)
    {
      query := QueryParams(IntToString(currentPage), "10", filters);
      if response.Ok? {
        recepcoes := response.value.rows;
        totalPages := response.value.totalPages;
      }
    }

    /** The query string of the print and the preview: page 1 and up to 1000 rows. */
    method ReportQuery() returns (query: Params)
      ensures query == QueryParams("1", "1000", filters)
    {
      query := QueryParams("1", "1000", filters);
    }

    method GoPrevious()
      modifies this`currentPage
      ensures currentPage == PrevPage(old(currentPage))
    {
      currentPage := PrevPage(currentPage);
    }

    method GoNext()
      modifies this`currentPage
      ensures currentPage == NextPage(old(currentPage), totalPages)
    {
      currentPage := NextPage(currentPage, totalPages);
    }

    /** `handleEdit`: edit mode on that lot, its values in the form, the dialog open. */
    method HandleEdit(m: MovRecepcao)
      modifies this`editMode, this`selected, this`form, this`showModal
      ensures editMode && selected == Some(m) && form == FormOf(m) && showModal
    {
      editMode := true;
      selected := Some(m);
      form := FormOf(m);
      showModal := true;
    }

    /** `resetForm`. */
    method ResetForm(today: string)
      modifies this`form
      ensures form == EmptyForm(today)
    {
      form := EmptyForm(today);
    }

    /**
     * `handleSubmit`: an edit sends the form to the lot's key, anything else creates; after a
     * success the dialog closes, edit mode ends, the list reloads and the form is reset.
     */
    method HandleSubmit(outcome: Result<()>, reload: Result<Page>, today: string)
      returns (sent: (Option<(int, string, int)>, FormData))
      modifies this`showModal, this`editMode, this`selected, this`recepcoes, this`totalPages, this`form
      ensures sent.1 == old(form)
      ensures old(editMode) && old(selected).Some? ==>
        sent.0 == Some((old(selected).value.seccao, old(selected).value.data, old(selected).value.linha))
      ensures !(old(editMode) && old(selected).Some?) ==> sent.0.None?
      ensures outcome.Ok? ==> !showModal && !editMode && selected == None && form == EmptyForm(today)
      ensures outcome.Ok? && reload.Ok? ==> recepcoes == reload.value.rows && totalPages == reload.value.totalPages
      ensures outcome.Ok? && reload.Failure? ==> recepcoes == old(recepcoes) && totalPages == old(totalPages)
      ensures outcome.Failure? ==> showModal == old(showModal) && editMode == old(editMode) && form == old(form)
      ensures outcome.Failure? ==> selected == old(selected) && recepcoes == old(recepcoes) && totalPages == old(totalPages)
    {
      var key := if editMode && selected.Some? then Some((selected.value.seccao, selected.value.data, selected.value.linha)) else None;
      sent := (key, form);
      if outcome.Ok? {
        showModal := false;
        editMode := false;
        selected := None;
        var _ := LoadRecepcoes(reload);
        ResetForm(today);
      }
    }

    /** `handleDelete` and `handleFechar`: with the user's confirmation, the call on the lot's key and a reload. */
    method HandleKeyedAction(m: MovRecepcao, confirmed: bool, outcome: Result<()>, reload: Result<Page>)
      returns (sent: Option<(int, string, int)>)
      modifies this`recepcoes, this`totalPages
      ensures sent.Some? <==> confirmed
      ensures sent.Some? ==> sent.value == (m.seccao, m.data, m.linha)
      ensures !(confirmed && outcome.Ok? && reload.Ok?) ==> recepcoes == old(recepcoes)
      ensures confirmed && outcome.Ok? && reload.Ok? ==> recepcoes == reload.value.rows
    {
      if !confirmed {
        return None;
      }
      sent := Some((m.seccao, m.data, m.linha));
      if outcome.Ok? {
        var _ := LoadRecepcoes(reload);
      }
    }

    /** `handleClienteChange`: the code and the client's name, or '' when the code is unknown. */
    method HandleClienteChange(code: int)
      modifies this`form
      ensures form == old(form).(cliente := code, nome := LookupText(clientes, code))
    {
      form := form.(cliente := code, nome := LookupText(clientes, code));
    }

    /** `handleArtigoChange`. */
    method HandleArtigoChange(code: int)
      modifies this`form
      ensures form == old(form).(codigo := code, descricao := LookupText(artigos, code))
    {
      form := form.(codigo := code, descricao := LookupText(artigos, code));
    }

    /** `handleComposicaoChange`. */
    method HandleComposicaoChange(code: int)
      modifies this`form
      ensures form == old(form).(composicao := code, composicaoDescricao := LookupText(composicoes, code))
    {
      form := form.(composicao := code, composicaoDescricao := LookupText(composicoes, code));
    }
  }
}
