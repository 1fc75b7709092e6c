/** The HTTP handlers of the lookup tables: query defaults, create validation and error statuses. */
module TabelasController {
  import opened Wrappers
  import opened Js
  import opened Http
  import opened Sql
  import opened TabelasService

  /** The raw query string of a list request. */
  datatype ListQuery = ListQuery(page: Option<string>, limit: Option<string>, search: Option<string>)

  /** The filters a list handler passes to the service: page, limit and a search that is never empty. */
  function ListFiltersOf(q: ListQuery): (f: ListFilters)
    ensures f.page == Some(QueryNumber(q.page, 1)) && f.limit == Some(QueryNumber(q.limit, 50))
    ensures f.search.Some? <==> q.search.Some? && q.search.value != ""
    ensures f.search.Some? ==> f.search == q.search
  {
    ListFilters(
      Some(QueryNumber(q.page, 1)), Some(QueryNumber(q.limit, 50)),
      if q.search.Some? && q.search.value != "" then q.search else None)
  }

  /**
   * The page a listing serves: the number written in the query when it is positive, otherwise 1
   * (absent, empty, non-numeric, zero or negative); the limit likewise with 50.
   */
  lemma ListedPage(q: ListQuery, n: nat)
    ensures q.page.None? ==> PageOf(ListFiltersOf(q).page) == 1
    ensures q.limit.None? ==> LimitOf(ListFiltersOf(q).limit) == 50
    ensures q.page == Some(NatToString(n)) ==> PageOf(ListFiltersOf(q).page) == if n > 0 then n else 1
    ensures q.limit == Some(NatToString(n)) ==> LimitOf(ListFiltersOf(q).limit) == if n > 0 then n else 50
  {
    ParseNatToString(n);
  }

  /** Dropping an empty search does not change whether the service searches. */
  lemma SearchKept(q: ListQuery)
    ensures Searching(ListFiltersOf(q).search) <==> Searching(q.search)
  {
  }

  /** The body of a create request, before validation. */
  datatype CreateBody = CreateBody(codigo: JsValue, text: JsValue)

  /**
   * `typeof dto.codigo !== 'number' || !dto.<text>` gives 400 'Dados inválidos'; the text is
   * `nome` for clients and `descricao` for articles and compositions.
   */
  function ValidateCreate(b: CreateBody): (r: Result<JsNumber>)
    ensures r.Ok? <==> b.codigo.Number? && b.text.Truthy()
    ensures r.Ok? ==> r.value == b.codigo.x
    ensures r.Failure? ==> r.message == "Dados inválidos"
  {
    if !b.codigo.Number? || !b.text.Truthy() then Failure("Dados inválidos") else Ok(b.codigo.x)
  }

  /** The noun of the table in the handlers' error texts. */
  function Noun(t: Table): string
  {
    match t
    case Clientes => "cliente"
    case Artigos => "artigo"
    case Composicoes => "composição"
  }

  /** A create: 400 for invalid data, 201 with the created record, 500 when the service fails. */
  function CreateReply<T>(t: Table, b: CreateBody, created: Result<T>): (r: Reply<T>)
    ensures ValidateCreate(b).Failure? ==> r == Error(400, "Dados inválidos")
    ensures ValidateCreate(b).Ok? && created.Ok? ==> r == Success(201, created.value)
    ensures ValidateCreate(b).Ok? && created.Failure? ==> r == Error(500, "Erro ao criar " + Noun(t))
  {
    var v := ValidateCreate(b);
    if v.Failure? then Error(400, v.message)
    else if created.Failure? then Error(500, "Erro ao criar " + Noun(t))
    else Success(201, created.value)
  }

  /** A lookup: any error of the service, not only a missing row, is 404 with the table's text. */
  function GetReply<T>(t: Table, found: Result<T>): (r: Reply<T>)
    ensures r.Error? <==> found.Failure?
    ensures r.Error? ==> r.status == 404 && r.message == t.NotFound()
    ensures r.Success? ==> r == Success(200, found.value)
  {
    if found.Failure? then Error(404, t.NotFound()) else Success(200, found.value)
  }

  /** A code with no row is answered 404 with the table's not-found text. */
  lemma MissingClienteIs404(rows: seq<ClienteRow>)
    requires rows == []
    ensures GetReply(Clientes, GetCliente(rows)) == Error(404, "Cliente não encontrado")
  {
  }

  /** An update: the updated record, or 500 for any error of the service. */
  function UpdateReply<T>(t: Table, updated: Result<T>): (r: Reply<T>)
    ensures r.Error? <==> updated.Failure?
    ensures r.Error? ==> r.status == 500 && r.message == "Erro ao atualizar " + Noun(t)
    ensures r.Success? ==> r == Success(200, updated.value)
  {
    if updated.Failure? then Error(500, "Erro ao atualizar " + Noun(t)) else Success(200, updated.value)
  }

  /** An update with no defined field is refused by the service, and the handler answers it 500. */
  lemma EmptyUpdateIs500(t: Table, codigo: JsNumber, entries: seq<(string, JsValue)>)
    requires forall i :: 0 <= i < |entries| ==> entries[i].1 == Undefined
    ensures UpdateReply(t, UpdateOutcome(t, codigo, entries)).Rejects(500)
  {
    NoneDefined(entries);
  }
}
