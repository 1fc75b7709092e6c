/**
 * The lookup tables of the production database (clients, articles and fabric compositions):
 * paged listing with an optional search, lookup by code, creation with defaults and partial
 * updates. The three tables follow one pattern, so each operation is written once over `Table`.
 */
module TabelasService {
  import opened Wrappers
  import opened Js
  import opened Sql

  datatype Table = Clientes | Artigos | Composicoes
  {
    function Name(): string
    {
      match this
      case Clientes => "TAB_CLIENTES"
      case Artigos => "TAB_ARTIGOS"
      case Composicoes => "TAB_COMPOSICOES"
    }

    /** The code column. */
    function KeyColumn(): string
    {
      match this
      case Clientes => "CLIENTE"
      case Artigos => "CODIGO"
      case Composicoes => "COMPOSICAO"
    }

    /** The text column the search matches and the listing is ordered by. */
    function TextColumn(): string
    {
      match this
      case Clientes => "NOME"
      case _ => "DESCRICAO"
    }

    /** The columns listings and lookups select. */
    function ListColumns(): seq<string>
    {
      match this
      case Clientes => ["CLIENTE as CODIGO", "NOME", "CONTACTOS"]
      case Artigos => ["CODIGO", "DESCRICAO", "UN_MEDIDA", "SITUACAO", "SECCAO"]
      case Composicoes => ["COMPOSICAO as CODIGO", "DESCRICAO"]
    }

    function NotFound(): string
    {
      match this
      case Clientes => "Cliente não encontrado"
      case Artigos => "Artigo não encontrado"
      case Composicoes => "Composição não encontrada"
    }
  }

  /** No table or column name contains a placeholder. */
  lemma TableNamesClean(t: Table)
    ensures '?' !in t.Name() && '?' !in t.KeyColumn() && '?' !in t.TextColumn()
  {
  }

  lemma ColumnsClean(t: Table)
    ensures '?' !in Join(t.ListColumns(), Comma)
  {
    assert '?' !in Comma;
    assert forall i :: 0 <= i < |t.ListColumns()| ==> '?' !in t.ListColumns()[i];
    JoinClean(t.ListColumns(), Comma);
  }

  // ---------------------------------------------------------------- listing

  datatype ListFilters = ListFilters(page: Option<JsNumber>, limit: Option<JsNumber>, search: Option<string>)

  /** `filters.page && filters.page > 0 ? filters.page : 1`: absent, NaN, zero and negative pages become 1. */
  function PageOf(page: Option<JsNumber>): (p: int)
    ensures p >= 1
    ensures page.Some? && page.value.Num? && page.value.n > 0 ==> p == page.value.n
    ensures !(page.Some? && page.value.Num? && page.value.n > 0) ==> p == 1
  {
    if page.Some? && page.value.Num? && page.value.n > 0 then page.value.n else 1
  }

  /** The same rule for the limit, with default 50. */
  function LimitOf(limit: Option<JsNumber>): (l: int)
    ensures l >= 1
    ensures limit.Some? && limit.value.Num? && limit.value.n > 0 ==> l == limit.value.n
    ensures !(limit.Some? && limit.value.Num? && limit.value.n > 0) ==> l == 50
  {
    if limit.Some? && limit.value.Num? && limit.value.n > 0 then limit.value.n else 50
  }

  /** `(page - 1) * limit`: the rows of the pages before this one. */
  function Offset(page: int, limit: int): (o: int)
    requires page >= 1 && limit >= 1
    ensures o >= 0
    ensures o < page * limit
  {
    (page - 1) * limit
  }

  /** Consecutive pages start `limit` rows apart, so the pages tile the result. */
  lemma OffsetsTile(page: int, limit: int)
    requires page >= 1 && limit >= 1
    ensures Offset(page + 1, limit) == Offset(page, limit) + limit
  {
  }

  /** Only active rows are listed. */
  const ActiveOnly := " WHERE 1=1 AND " + "COALESCE(SITUACAO, " + "'ACT') = 'ACT'"

  /** The search condition: the upper-cased text column CONTAINING the first value, or the code LIKE the second. */
  function SearchClause(t: Table): string
  {
    Bound(" AND (UPPER(" + t.TextColumn() + ") CONTAINING ")
      + Bound(" OR CAST(" + t.KeyColumn() + " AS VARCHAR(20)) LIKE ") + ")"
  }

  /** `if (filters.search)`: an absent or empty search adds nothing. */
  predicate Searching(search: Option<string>)
  {
    search.Some? && search.value != ""
  }

  /** The WHERE clause and parameters of every list query. */
  method BuildListWhere(t: Table, search: Option<string>) returns (where: string, params: seq<Param>)
    ensures !Searching(search) ==> where == ActiveOnly && params == []
    ensures Searching(search) ==> where == ActiveOnly + SearchClause(t)
    ensures Searching(search) ==>
      params == [PText(Upper(search.value)), PText("%" + search.value + "%")]
    ensures Placeholders(where) == |params|
  {
    params := [];
    where := ActiveOnly;
    ActiveOnlyClean();
    if search.Some? && search.value != "" {
      where := where + SearchClause(t);
      params := params + [PText(Upper(search.value)), PText("%" + search.value + "%")];
      SearchBindsTwo(t);
      CountConcat(ActiveOnly, SearchClause(t), '?');
    }
  }

  lemma ActiveOnlyClean()
    ensures Placeholders(ActiveOnly) == 0
  {
    assert '?' !in " WHERE 1=1 AND " && '?' !in "COALESCE(SITUACAO, " && '?' !in "'ACT') = 'ACT'";
    NoPlaceholders(ActiveOnly);
  }

  lemma PieceClean(a: string, col: string, b: string)
    requires '?' !in a && '?' !in col && '?' !in b
    ensures '?' !in a + col + b
  {
    assert forall x :: x in a + col + b ==> x in a || x in col || x in b;
  }

  /** A search binds exactly its two values. */
  lemma SearchBindsTwo(t: Table)
    ensures Placeholders(SearchClause(t)) == 2
  {
    TableNamesClean(t);
    var a := " AND (UPPER(" + t.TextColumn() + ") CONTAINING ";
    var b := " OR CAST(" + t.KeyColumn() + " AS VARCHAR(20)) LIKE ";
    assert '?' !in " AND (UPPER(" && '?' !in ") CONTAINING ";
    assert '?' !in " OR CAST(" && '?' !in " AS VARCHAR(20)) LIKE " && '?' !in ")";
    PieceClean(" AND (UPPER(", t.TextColumn(), ") CONTAINING ");
    PieceClean(" OR CAST(", t.KeyColumn(), " AS VARCHAR(20)) LIKE ");
    BoundPlaceholder(a);
    BoundPlaceholder(b);
    NoPlaceholders(")");
    PlaceholdersOf3(Bound(a), Bound(b), ")");
  }

  /** `countRes[0]?.TOTAL || 0`: the count, or 0 when the count query returns no row or NULL. */
  function TotalOf(countRows: seq<Option<int>>): (total: int)
    ensures countRows == [] || countRows[0].None? ==> total == 0
    ensures countRows != [] && countRows[0].Some? ==> total == countRows[0].value
  {
    if countRows != [] && countRows[0].Some? then countRows[0].value else 0
  }

  /** `Math.ceil(total / limit)` for the positive limit a listing always has. */
  function TotalPages(total: int, limit: int): (pages: int)
    requires limit >= 1
    ensures (pages - 1) * limit < total <= pages * limit
  {
    CeilDiv(total, limit)
  }

  /** With at least one row, the last page starts before the last row. */
  lemma LastPageNotEmpty(total: int, limit: int)
    requires total >= 1 && limit >= 1
    ensures TotalPages(total, limit) >= 1
    ensures Offset(TotalPages(total, limit), limit) < total
  {
    PositiveFactor(TotalPages(total, limit), limit);
  }

  datatype PagedResult<T> = PagedResult(data: seq<T>, total: int, page: int, totalPages: int)

  function CountSql(t: Table, where: string): string
  {
    "SELECT COUNT(*) AS TOTAL FROM " + t.Name() + " " + where
  }

  function DataSql(t: Table, limit: int, offset: int, where: string): string
  {
    DataHead(t, limit, offset) + where + OrderBy(t)
  }

  /**
   * `listClientes`, `listArtigos` and `listComposicoes`. `countRows` answers the count query
   * (its TOTAL column), `select` the data query, and `toItem` maps one row.
   */
  method List<R, T>(
    t: Table, f: ListFilters, countRows: Statement -> seq<Option<int>>,
    select: Statement -> seq<R>, toItem: R -> T)
    returns (result: PagedResult<T>, count: Statement, query: Statement)
    ensures count.params == query.params
    ensures Placeholders(count.sql) == Placeholders(query.sql) == |count.params|
    ensures Searching(f.search) <==> |count.params| == 2
    ensures result.page == PageOf(f.page) && result.total == TotalOf(countRows(count))
    ensures result.totalPages == TotalPages(result.total, LimitOf(f.limit))
    ensures result.data == ArrayMap(select(query), toItem)
    ensures var limit := LimitOf(f.limit);
      var where := if Searching(f.search) then ActiveOnly + SearchClause(t) else ActiveOnly;
      count.sql == CountSql(t, where) && query.sql == DataSql(t, limit, Offset(PageOf(f.page), limit), where)
    ensures !Searching(f.search) ==> count.params == []
    ensures Searching(f.search) ==> count.params == [PText(Upper(f.search.value)), PText("%" + f.search.value + "%")]
  {
    var page := PageOf(f.page);
    var limit := LimitOf(f.limit);
    var offset := Offset(page, limit);
    var where, params := BuildListWhere(t, f.search);
    count := Statement(CountSql(t, where), params);
    var total := TotalOf(countRows(count));
    query := Statement(DataSql(t, limit, offset, where), params);
    var rows := select(query);
    var data := ArrayMap(rows, toItem);
    result := PagedResult(data, total, page, TotalPages(total, limit));
    ListSqlAligned(t, limit, offset, where);
  }

  function OrderBy(t: Table): string
  {
    " ORDER BY " + t.TextColumn()
  }

  function DataHead(t: Table, limit: int, offset: int): string
  {
    "SELECT FIRST " + IntToString(limit) + " SKIP " + IntToString(offset) + " "
      + Join(t.ListColumns(), Comma) + " FROM " + t.Name() + " "
  }

  /** Neither query adds a placeholder to the WHERE clause. */
  lemma ListSqlAligned(t: Table, limit: int, offset: int, where: string)
    ensures Placeholders(CountSql(t, where)) == Placeholders(where)
    ensures Placeholders(DataSql(t, limit, offset, where)) == Placeholders(where)
  {
    TableNamesClean(t);
    var head := "SELECT COUNT(*) AS TOTAL FROM " + t.Name() + " ";
    assert '?' !in "SELECT COUNT(*) AS TOTAL FROM ";
    NoPlaceholders(head);
    CountConcat(head, where, '?');
    DataHeadClean(t, limit, offset);
    NoPlaceholders(DataHead(t, limit, offset));
    assert '?' !in " ORDER BY ";
    NoPlaceholders(OrderBy(t));
    PlaceholdersOf3(DataHead(t, limit, offset), where, OrderBy(t));
  }

  lemma DataHeadClean(t: Table, limit: int, offset: int)
    ensures '?' !in DataHead(t, limit, offset)
  {
    IntToStringChars(limit);
    IntToStringChars(offset);
    TableNamesClean(t);
    ColumnsClean(t);
    assert '?' !in "SELECT FIRST " && '?' !in " SKIP " && '?' !in " FROM ";
  }

  // ---------------------------------------------------------------- rows

  datatype ClienteRow = ClienteRow(codigo: int, nome: Option<string>, contactos: Option<string>)
  datatype Cliente = Cliente(codigo: int, nome: string, contactos: string)

  datatype ArtigoRow = ArtigoRow(
    codigo: int, descricao: Option<string>, unMedida: Option<string>, situacao: Option<string>, seccao: Option<int>)
  datatype Artigo = Artigo(codigo: int, descricao: string, unMedida: string, situacao: string, seccao: Option<int>)

  datatype ComposicaoRow = ComposicaoRow(codigo: int, descricao: Option<string>)
  datatype Composicao = Composicao(codigo: int, descricao: string)

  /** `(r.COL || '').trim()` for each text column; the code is kept. */
  function MapCliente(r: ClienteRow): (c: Cliente)
    ensures c.codigo == r.codigo
    ensures c.nome == TrimOrEmpty(r.nome) && c.contactos == TrimOrEmpty(r.contactos)
  {
    Cliente(r.codigo, TrimOrEmpty(r.nome), TrimOrEmpty(r.contactos))
  }

  function MapArtigo(r: ArtigoRow): (a: Artigo)
    ensures a.codigo == r.codigo && a.seccao == r.seccao
    ensures a.descricao == TrimOrEmpty(r.descricao) && a.unMedida == TrimOrEmpty(r.unMedida)
    ensures a.situacao == TrimOrEmpty(r.situacao)
  {
    Artigo(r.codigo, TrimOrEmpty(r.descricao), TrimOrEmpty(r.unMedida), TrimOrEmpty(r.situacao), r.seccao)
  }

  function MapComposicao(r: ComposicaoRow): (c: Composicao)
    ensures c.codigo == r.codigo && c.descricao == TrimOrEmpty(r.descricao)
  {
    Composicao(r.codigo, TrimOrEmpty(r.descricao))
  }

  /** The lookup by code: `getCliente`, `getArtigo`, `getComposicao`. */
  function LookupStatement(t: Table, codigo: JsNumber): (s: Statement)
    ensures s.params == [PNumber(codigo)]
  {
    Statement("SELECT " + Join(t.ListColumns(), Comma) + " FROM " + t.Name() + " WHERE " + Assign(t.KeyColumn()), [PNumber(codigo)])
  }

  /** The first row found, or the table's not-found error when there is none. */
  function Found<R>(t: Table, rows: seq<R>): (r: Result<R>)
    ensures r.Failure? <==> rows == []
    ensures r.Failure? ==> r.message == t.NotFound()
    ensures r.Ok? ==> r.value == rows[0]
  {
    if rows == [] then Failure(t.NotFound()) else Ok(rows[0])
  }

  function GetCliente(rows: seq<ClienteRow>): (r: Result<Cliente>)
    ensures r.Failure? <==> rows == []
    ensures r.Failure? ==> r.message == "Cliente não encontrado"
    ensures r.Ok? ==> r.value == MapCliente(rows[0])
  {
    var found := Found(Clientes, rows);
    if found.Ok? then Ok(MapCliente(found.value)) else Failure(found.message)
  }

  function GetArtigo(rows: seq<ArtigoRow>): (r: Result<Artigo>)
    ensures r.Failure? <==> rows == []
    ensures r.Failure? ==> r.message == "Artigo não encontrado"
    ensures r.Ok? ==> r.value == MapArtigo(rows[0])
  {
    var found := Found(Artigos, rows);
    if found.Ok? then Ok(MapArtigo(found.value)) else Failure(found.message)
  }

  function GetComposicao(rows: seq<ComposicaoRow>): (r: Result<Composicao>)
    ensures r.Failure? <==> rows == []
    ensures r.Failure? ==> r.message == "Composição não encontrada"
    ensures r.Ok? ==> r.value == MapComposicao(rows[0])
  {
    var found := Found(Composicoes, rows);
    if found.Ok? then Ok(MapComposicao(found.value)) else Failure(found.message)
  }

  // ---------------------------------------------------------------- creation

  datatype CreateClienteDto = CreateClienteDto(codigo: JsNumber, nome: JsValue, contactos: JsValue)
  datatype CreateArtigoDto = CreateArtigoDto(
    codigo: JsNumber, descricao: JsValue, unMedida: JsValue, situacao: JsValue, seccao: JsValue)
  datatype CreateComposicaoDto = CreateComposicaoDto(codigo: JsNumber, descricao: JsValue)

  /** `INSERT INTO table (columns) VALUES (values)`. */
  function InsertSql(t: Table, columns: seq<string>, values: seq<string>): string
  {
    "INSERT INTO " + t.Name() + " (" + Join(columns, Comma) + ") VALUES (" + Join(values, Comma) + ")"
  }

  /** A bare placeholder, and the two defaulted ones of the INSERTs. */
  const Hole := Bound("")
  const OrAct := Bound("COALESCE(") + ", \"ACT\")"
  const OrOne := Bound("COALESCE(") + ", 1)"

  const InsertClienteSql := InsertSql(Clientes, ["CLIENTE", "NOME", "CONTACTOS", "SITUACAO"], [Hole, Hole, Hole, OrAct])
  const InsertArtigoSql :=
    InsertSql(Artigos, ["CODIGO", "DESCRICAO", "UN_MEDIDA", "SITUACAO", "SECCAO"], [Hole, Hole, Hole, OrAct, OrOne])
  const InsertComposicaoSql := InsertSql(Composicoes, ["COMPOSICAO", "DESCRICAO", "SITUACAO"], [Hole, Hole, OrAct])

  /** `createCliente`: contactos default to '' and the situation is always 'ACT'. */
  function CreateCliente(dto: CreateClienteDto): (s: Statement)
    ensures s.sql == InsertClienteSql
    ensures s.params == [PNumber(dto.codigo), PValue(dto.nome), PValue(dto.contactos.Or(Str(""))), PText("ACT")]
  {
    Statement(InsertClienteSql, [PNumber(dto.codigo), PValue(dto.nome), PValue(dto.contactos.Or(Str(""))), PText("ACT")])
  }

  /** `createArtigo`: the unit defaults to 'KG', the situation to 'ACT' and the section to 1. */
  function CreateArtigo(dto: CreateArtigoDto): (s: Statement)
    ensures s.sql == InsertArtigoSql && |s.params| == 5
    ensures s.params[0] == PNumber(dto.codigo) && s.params[1] == PValue(dto.descricao)
    ensures dto.unMedida.Truthy() ==> s.params[2] == PValue(dto.unMedida)
    ensures !dto.unMedida.Truthy() ==> s.params[2] == PValue(Str("KG"))
    ensures dto.situacao.Truthy() ==> s.params[3] == PValue(dto.situacao)
    ensures !dto.situacao.Truthy() ==> s.params[3] == PValue(Str("ACT"))
    ensures dto.seccao.Truthy() ==> s.params[4] == PValue(dto.seccao)
    ensures !dto.seccao.Truthy() ==> s.params[4] == PValue(Number(Num(1)))
  {
    Statement(InsertArtigoSql, [
      PNumber(dto.codigo), PValue(dto.descricao), PValue(dto.unMedida.Or(Str("KG"))),
      PValue(dto.situacao.Or(Str("ACT"))), PValue(dto.seccao.Or(Number(Num(1))))])
  }

  /** `createComposicao`: the situation is always 'ACT'. */
  function CreateComposicao(dto: CreateComposicaoDto): (s: Statement)
    ensures s.sql == InsertComposicaoSql
    ensures s.params == [PNumber(dto.codigo), PValue(dto.descricao), PText("ACT")]
  {
    Statement(InsertComposicaoSql, [PNumber(dto.codigo), PValue(dto.descricao), PText("ACT")])
  }

  lemma ValuesBindOne()
    ensures Placeholders(Hole) == 1 && Placeholders(OrAct) == 1 && Placeholders(OrOne) == 1
  {
    assert '?' !in "" && '?' !in "COALESCE(" && '?' !in ", \"ACT\")" && '?' !in ", 1)";
    BoundPlaceholder("");
    BoundPlaceholder("COALESCE(");
    NoPlaceholders(", \"ACT\")");
    NoPlaceholders(", 1)");
    CountConcat(Bound("COALESCE("), ", \"ACT\")", '?');
    CountConcat(Bound("COALESCE("), ", 1)", '?');
  }

  /** An INSERT with placeholder-free names binds one value per entry of its VALUES list. */
  lemma InsertAligned(t: Table, columns: seq<string>, values: seq<string>)
    requires forall i :: 0 <= i < |columns| ==> '?' !in columns[i]
    requires OnePlaceholderEach(values)
    ensures Placeholders(InsertSql(t, columns, values)) == |values|
  {
    TableNamesClean(t);
    assert '?' !in Comma && '?' !in "INSERT INTO " && '?' !in " (" && '?' !in ") VALUES (" && '?' !in ")";
    JoinClean(columns, Comma);
    var head := "INSERT INTO " + t.Name() + " (" + Join(columns, Comma) + ") VALUES (";
    NoPlaceholders(head);
    NoPlaceholders(Comma);
    NoPlaceholders(")");
    PlaceholdersJoin(values, Comma);
    PlaceholdersOf3(head, Join(values, Comma), ")");
  }

  lemma InsertClienteAligned(dto: CreateClienteDto)
    ensures Placeholders(CreateCliente(dto).sql) == |CreateCliente(dto).params|
  {
    ValuesBindOne();
    InsertAligned(Clientes, ["CLIENTE", "NOME", "CONTACTOS", "SITUACAO"], [Hole, Hole, Hole, OrAct]);
  }

  lemma InsertArtigoAligned(dto: CreateArtigoDto)
    ensures Placeholders(CreateArtigo(dto).sql) == |CreateArtigo(dto).params|
  {
    ValuesBindOne();
    InsertAligned(Artigos, ["CODIGO", "DESCRICAO", "UN_MEDIDA", "SITUACAO", "SECCAO"], [Hole, Hole, Hole, OrAct, OrOne]);
  }

  lemma InsertComposicaoAligned(dto: CreateComposicaoDto)
    ensures Placeholders(CreateComposicao(dto).sql) == |CreateComposicao(dto).params|
  {
    ValuesBindOne();
    InsertAligned(Composicoes, ["COMPOSICAO", "DESCRICAO", "SITUACAO"], [Hole, Hole, OrAct]);
  }

  // ---------------------------------------------------------------- updates

  datatype UpdateClienteDto = UpdateClienteDto(nome: JsValue, contactos: JsValue, situacao: JsValue)
  datatype UpdateArtigoDto = UpdateArtigoDto(descricao: JsValue, unMedida: JsValue, situacao: JsValue, seccao: JsValue)
  datatype UpdateComposicaoDto = UpdateComposicaoDto(descricao: JsValue, situacao: JsValue)

  /** The columns `updateCliente` tests, in its order; the DTO's situacao is not among them. */
  function ClienteEntries(dto: UpdateClienteDto): seq<(string, JsValue)>
  {
    [("NOME", dto.nome), ("CONTACTOS", dto.contactos)]
  }

  function ArtigoEntries(dto: UpdateArtigoDto): seq<(string, JsValue)>
  {
    [("DESCRICAO", dto.descricao), ("UN_MEDIDA", dto.unMedida), ("SITUACAO", dto.situacao), ("SECCAO", dto.seccao)]
  }

  /** `updateComposicao` sets the description only. */
  function ComposicaoEntries(dto: UpdateComposicaoDto): seq<(string, JsValue)>
  {
    [("DESCRICAO", dto.descricao)]
  }

  function WhereKey(t: Table): string
  {
    Assign(" WHERE " + t.KeyColumn())
  }

  function UpdateSql(t: Table, fields: seq<string>): string
  {
    "UPDATE " + t.Name() + " SET " + Join(fields, Comma) + WhereKey(t)
  }

  /**
   * What an `update*` issues for the candidate `entries`: one SET field per defined entry, in
   * order, the values in the same order and then the code; nothing defined is an error.
   */
  function UpdateOutcome(t: Table, codigo: JsNumber, entries: seq<(string, JsValue)>): (r: Result<Statement>)
    ensures r.Failure? <==> DefinedEntries(entries) == []
    ensures r.Failure? ==> r.message == NothingToUpdate
    ensures r.Ok? ==> |r.value.params| == |DefinedEntries(entries)| + 1
    ensures r.Ok? ==> r.value.params[|r.value.params| - 1] == PNumber(codigo)
  {
    var ds := DefinedEntries(entries);
    if ds == [] then Failure(NothingToUpdate)
    else Ok(Statement(UpdateSql(t, SetFields(ds)), EntryValues(ds) + [PNumber(codigo)]))
  }

  /**
   * `if (value !== undefined) { fields.push('COL = ?'); params.push(value); }`: the candidates tested
   * go from `done` to `done'`, one more.
   */
  method PushIfDefined(
    ghost done: seq<(string, JsValue)>, ghost done': seq<(string, JsValue)>, column: string, value: JsValue,
    fields: seq<string>, params: seq<Param>)
    returns (fields': seq<string>, params': seq<Param>)
    requires done' == done + [(column, value)] && (fields, params) == Pushes(done)
    ensures (fields', params') == Pushes(done')
  {
    PushesSnoc(done, (column, value));
    if value != Undefined {
      fields' := fields + [Assign(column)];
      params' := params + [PValue(value)];
    } else {
      fields', params' := fields, params;
    }
  }

  /** The end of every `update*`: no field is an error; otherwise the SET list, then the code as the last value. */
  method UpdateStatement(
    t: Table, codigo: JsNumber, ghost entries: seq<(string, JsValue)>, fields: seq<string>, params: seq<Param>)
    returns (r: Result<Statement>)
    requires (fields, params) == Pushes(entries)
    ensures r == UpdateOutcome(t, codigo, entries)
  {
    PushesDefined(entries);
    if |fields| == 0 {
      return Failure(NothingToUpdate);
    }
    r := Ok(Statement(UpdateSql(t, fields), params + [PNumber(codigo)]));
  }

  method UpdateCliente(codigo: JsNumber, dto: UpdateClienteDto) returns (r: Result<Statement>)
    ensures r == UpdateOutcome(Clientes, codigo, ClienteEntries(dto))
  {
    ghost var nome := ("NOME", dto.nome);
    var fields: seq<string> := [];
    var params: seq<Param> := [];
    fields, params := PushIfDefined([], [nome], "NOME", dto.nome, fields, params);
    fields, params := PushIfDefined([nome], ClienteEntries(dto), "CONTACTOS", dto.contactos, fields, params);
    r := UpdateStatement(Clientes, codigo, ClienteEntries(dto), fields, params);
  }

  method UpdateArtigo(codigo: JsNumber, dto: UpdateArtigoDto) returns (r: Result<Statement>)
    ensures r == UpdateOutcome(Artigos, codigo, ArtigoEntries(dto))
  {
    ghost var descricao, unMedida, situacao :=
      ("DESCRICAO", dto.descricao), ("UN_MEDIDA", dto.unMedida), ("SITUACAO", dto.situacao);
    var fields: seq<string> := [];
    var params: seq<Param> := [];
    fields, params := PushIfDefined([], [descricao], "DESCRICAO", dto.descricao, fields, params);
    fields, params := PushIfDefined([descricao], [descricao, unMedida], "UN_MEDIDA", dto.unMedida, fields, params);
    fields, params := PushIfDefined([descricao, unMedida], [descricao, unMedida, situacao],
                                    "SITUACAO", dto.situacao, fields, params);
    fields, params := PushIfDefined([descricao, unMedida, situacao], ArtigoEntries(dto),
                                    "SECCAO", dto.seccao, fields, params);
    r := UpdateStatement(Artigos, codigo, ArtigoEntries(dto), fields, params);
  }

  method UpdateComposicao(codigo: JsNumber, dto: UpdateComposicaoDto) returns (r: Result<Statement>)
    ensures r == UpdateOutcome(Composicoes, codigo, ComposicaoEntries(dto))
  {
    var fields: seq<string> := [];
    var params: seq<Param> := [];
    fields, params := PushIfDefined([], ComposicaoEntries(dto), "DESCRICAO", dto.descricao, fields, params);
    r := UpdateStatement(Composicoes, codigo, ComposicaoEntries(dto), fields, params);
  }

  /** Every update a table issues binds exactly its values: one per SET field, then the code. */
  lemma UpdateAligned(t: Table, codigo: JsNumber, entries: seq<(string, JsValue)>)
    requires forall e :: e in entries ==> '?' !in e.0
    ensures var r := UpdateOutcome(t, codigo, entries); r.Ok? ==> Placeholders(r.value.sql) == |r.value.params|
  {
    var ds := DefinedEntries(entries);
    forall e | e in ds
      ensures '?' !in e.0
    {
      DefinedEntriesMembers(entries, e);
    }
    SetFieldsBindOne(ds);
    TableNamesClean(t);
    assert '?' !in "UPDATE " && '?' !in " SET " && '?' !in " WHERE ";
    AssignPlaceholder(" WHERE " + t.KeyColumn());
    PlaceholdersJoinFrame("UPDATE " + t.Name() + " SET ", SetFields(ds), Comma, WhereKey(t));
  }

  /** The three DTOs name only placeholder-free columns. */
  lemma EntriesClean(c: UpdateClienteDto, a: UpdateArtigoDto, p: UpdateComposicaoDto)
    ensures forall e :: e in ClienteEntries(c) ==> '?' !in e.0
    ensures forall e :: e in ArtigoEntries(a) ==> '?' !in e.0
    ensures forall e :: e in ComposicaoEntries(p) ==> '?' !in e.0
  {
  }
}
