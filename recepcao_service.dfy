/**
 * RecepcaoService: the reception records of MOV_RECEPCAO (one row per lot of fabric received,
 * keyed by section, date and line). The listing grows a WHERE clause and its parameter list
 * filter by filter; the database is the `countTotal` / `select` parameters.
 */
module RecepcaoService {
  import opened Wrappers
  import opened Js
  import opened Sql

  // ---------------------------------------------------------------- listing filters

  /**
   * MovRecepcaoFilters. Numeric and date filters are request values (a parsed number, or a
   * date text); the three text filters are query texts, where an absent one is the empty text.
   */
  datatype Filters = Filters(
    page: Option<JsNumber>, limit: Option<JsNumber>,
    seccao: JsValue, dataInicio: JsValue, dataFim: JsValue, cliente: JsValue,
    nome: string, codigo: JsValue, composicao: JsValue,
    branquear: JsValue, desencolar: JsValue, tingir: JsValue,
    utilizador: string, requisicao: string)

  /** The condition every listing keeps: only lots with rolls still to deliver. */
  const BaseClause := " AND ROLOS_ENTREGUES < ROLOS"

  const BySeccao := Bound(" AND SECCAO = ")
  const ByDataInicio := Bound(" AND DATA >= ")
  const ByDataFim := Bound(" AND DATA <= ")
  const ByCliente := Bound(" AND CLIENTE = ")
  const ByNome := Bound(" AND UPPER(NOME) CONTAINING ")
  const ByCodigo := Bound(" AND CODIGO = ")
  const ByComposicao := Bound(" AND COMPOSICAO = ")
  const ByBranquear := Bound(" AND BRANQUEAR = ")
  const ByDesencolar := Bound(" AND DESENCOLAR = ")
  const ByTingir := Bound(" AND TINGIR = ")
  const ByUtilizador := Bound(" AND UPPER(UTILIZADOR) CONTAINING ")
  const ByRequisicao := Bound(" AND UPPER(REQUISICAO) CONTAINING ")

  /** One `if (filters.x) { whereClause += fragment; params.push(param) }` of the listing. */
  datatype Candidate = Candidate(active: bool, fragment: string, param: Param)

  /** The filters in the order the listing tests them. */
  function Candidates(f: Filters): (cs: seq<Candidate>)
    ensures |cs| == 12
  {
    [ Candidate(f.seccao.Truthy(), BySeccao, PValue(f.seccao)),
      Candidate(f.dataInicio.Truthy(), ByDataInicio, PValue(f.dataInicio)),
      Candidate(f.dataFim.Truthy(), ByDataFim, PValue(f.dataFim)),
      Candidate(f.cliente.Truthy(), ByCliente, PValue(f.cliente)),
      Candidate(f.nome != "", ByNome, PText(Upper(f.nome))),
      Candidate(f.codigo.Truthy(), ByCodigo, PValue(f.codigo)),
      Candidate(f.composicao.Truthy(), ByComposicao, PValue(f.composicao)),
      Candidate(f.branquear.Truthy(), ByBranquear, PValue(f.branquear)),
      Candidate(f.desencolar.Truthy(), ByDesencolar, PValue(f.desencolar)),
      Candidate(f.tingir.Truthy(), ByTingir, PValue(f.tingir)),
      Candidate(f.utilizador != "", ByUtilizador, PText(Upper(f.utilizador))),
      Candidate(f.requisicao != "", ByRequisicao, PText(Upper(f.requisicao))) ]
  }

  /** The clause under construction: the WHERE text and the parameters bound so far. */
  datatype Clause = Clause(where: string, params: seq<Param>)

  /** One filter test applied to the clause. */
  function Step(acc: Clause, c: Candidate): Clause
  {
    if c.active then Clause(acc.where + c.fragment, acc.params + [c.param]) else acc
  }

  /** The filter tests applied in order. */
  function Fold(acc: Clause, cs: seq<Candidate>): Clause
    decreases |cs|
  {
    if cs == [] then acc else Fold(Step(acc, cs[0]), cs[1..])
  }

  /** The parameters of the active candidates, in order. */
  function ActiveParams(cs: seq<Candidate>): seq<Param>
  {
    if cs == [] then [] else (if cs[0].active then [cs[0].param] else []) + ActiveParams(cs[1..])
  }

  /** The fragments of the active candidates, in order. */
  function ActiveFragments(cs: seq<Candidate>): seq<string>
  {
    if cs == [] then [] else (if cs[0].active then [cs[0].fragment] else []) + ActiveFragments(cs[1..])
  }

  /** The folded clause extends the initial one by the active fragments and their parameters. */
  lemma {:induction false} FoldAppends(acc: Clause, cs: seq<Candidate>)
    ensures Fold(acc, cs).params == acc.params + ActiveParams(cs)
    ensures Fold(acc, cs).where == acc.where + Join(ActiveFragments(cs), "")
    decreases |cs|
  {
    if cs != [] {
      FoldAppends(Step(acc, cs[0]), cs[1..]);
      var rest := ActiveFragments(cs[1..]);
      JoinEmptyCons(cs[0].fragment, rest);
      if cs[0].active {
        assert acc.where + cs[0].fragment + Join(rest, "") == acc.where + (cs[0].fragment + Join(rest, ""));
      } else {
        assert acc.params + [] == acc.params;
        assert [] + rest == rest;
      }
    }
  }

  lemma JoinEmptyCons(x: string, rest: seq<string>)
    ensures Join([x] + rest, "") == x + Join(rest, "")
  {
    if rest == [] {
      assert [x] + rest == [x];
    } else {
      assert ([x] + rest)[1..] == rest;
    }
  }

  /** Every parameter comes from an active filter, and every active filter contributes its one. */
  lemma {:induction false} ActiveParamsFromActive(cs: seq<Candidate>, p: Param)
    ensures p in ActiveParams(cs) <==> exists i :: 0 <= i < |cs| && cs[i].active && cs[i].param == p
  {
    if cs != [] {
      ActiveParamsFromActive(cs[1..], p);
      if exists i :: 0 <= i < |cs| && cs[i].active && cs[i].param == p {
        var i :| 0 <= i < |cs| && cs[i].active && cs[i].param == p;
        if i > 0 {
          assert cs[1..][i - 1] == cs[i];
        }
      }
      if exists j :: 0 <= j < |cs| - 1 && cs[1..][j].active && cs[1..][j].param == p {
        var j :| 0 <= j < |cs| - 1 && cs[1..][j].active && cs[1..][j].param == p;
        assert cs[j + 1] == cs[1..][j];
      }
    }
  }

  lemma FragmentsCleanA()
    ensures '?' !in " AND SECCAO = " && '?' !in " AND DATA >= " && '?' !in " AND DATA <= "
    ensures '?' !in " AND CLIENTE = "
  {
  }

  lemma FragmentsCleanB()
    ensures '?' !in " AND UPPER(NOME) CONTAINING " && '?' !in " AND CODIGO = " && '?' !in " AND COMPOSICAO = "
  {
  }

  lemma FragmentsCleanC()
    ensures '?' !in " AND BRANQUEAR = " && '?' !in " AND DESENCOLAR = " && '?' !in " AND TINGIR = "
  {
  }

  lemma FragmentsCleanD()
    ensures '?' !in " AND UPPER(UTILIZADOR) CONTAINING " && '?' !in " AND UPPER(REQUISICAO) CONTAINING "
  {
  }

  lemma BaseClauseClean()
    ensures '?' !in BaseClause
  {
  }

  lemma FragmentsBindOne(f: Filters)
    ensures forall c :: c in Candidates(f) ==> Placeholders(c.fragment) == 1
  {
    FragmentsCleanA();
    FragmentsCleanB();
    FragmentsCleanC();
    FragmentsCleanD();
    BoundPlaceholder(" AND SECCAO = ");
    BoundPlaceholder(" AND DATA >= ");
    BoundPlaceholder(" AND DATA <= ");
    BoundPlaceholder(" AND CLIENTE = ");
    BoundPlaceholder(" AND UPPER(NOME) CONTAINING ");
    BoundPlaceholder(" AND CODIGO = ");
    BoundPlaceholder(" AND COMPOSICAO = ");
    BoundPlaceholder(" AND BRANQUEAR = ");
    BoundPlaceholder(" AND DESENCOLAR = ");
    BoundPlaceholder(" AND TINGIR = ");
    BoundPlaceholder(" AND UPPER(UTILIZADOR) CONTAINING ");
    BoundPlaceholder(" AND UPPER(REQUISICAO) CONTAINING ");
  }

  /** Each applied filter adds one placeholder and one parameter. */
  lemma {:induction false} FoldAligned(acc: Clause, cs: seq<Candidate>)
    requires forall c :: c in cs ==> Placeholders(c.fragment) == 1
    requires Placeholders(acc.where) == |acc.params|
    ensures Placeholders(Fold(acc, cs).where) == |Fold(acc, cs).params|
    decreases |cs|
  {
    if cs != [] {
      assert cs[0] in cs;
      assert forall c :: c in cs[1..] ==> c in cs;
      CountConcat(acc.where, cs[0].fragment, '?');
      FoldAligned(Step(acc, cs[0]), cs[1..]);
    }
  }

  /** A filter that is not applied leaves no trace. */
  lemma {:induction false} FoldInactive(acc: Clause, cs: seq<Candidate>)
    requires forall c :: c in cs ==> !c.active
    ensures Fold(acc, cs) == acc
  {
    if cs != [] {
      assert cs[0] in cs;
      assert forall c :: c in cs[1..] ==> c in cs;
      FoldInactive(acc, cs[1..]);
    }
  }

  /** Without any filter the listing keeps only the base condition and binds nothing. */
  lemma NoFiltersBaseOnly(f: Filters)
    requires forall c :: c in Candidates(f) ==> !c.active
    ensures Fold(Clause(BaseClause, []), Candidates(f)) == Clause(BaseClause, [])
  {
    FoldInactive(Clause(BaseClause, []), Candidates(f));
  }

  /** One filter test: append the fragment and its parameter when the filter is active. */
  method AddFilter(acc: Clause, c: Candidate) returns (r: Clause)
    ensures r == Step(acc, c)
  {
    var whereClause, params := acc.where, acc.params;
    if c.active {
      whereClause := whereClause + c.fragment;
      params := params + [c.param];
    }
    r := Clause(whereClause, params);
  }

  lemma FoldUnroll(acc: Clause, cs: seq<Candidate>, k: nat)
    requires k < |cs|
    ensures Fold(acc, cs[k..]) == Fold(Step(acc, cs[k]), cs[k + 1..])
  {
    assert cs[k..][0] == cs[k];
    assert cs[k..][1..] == cs[k + 1..];
  }

  /** Four consecutive filter tests, from position `k` on. */
  method AddFourFilters(acc: Clause, cs: seq<Candidate>, k: nat) returns (r: Clause)
    requires k + 4 <= |cs|
    ensures Fold(r, cs[k + 4..]) == Fold(acc, cs[k..])
  {
    FoldUnroll(acc, cs, k);
    var c0 := AddFilter(acc, cs[k]);
    FoldUnroll(c0, cs, k + 1);
    var c1 := AddFilter(c0, cs[k + 1]);
    FoldUnroll(c1, cs, k + 2);
    var c2 := AddFilter(c1, cs[k + 2]);
    FoldUnroll(c2, cs, k + 3);
    r := AddFilter(c2, cs[k + 3]);
  }

  /**
   * The WHERE clause and parameters of `getAllRecepcoes`: the base condition, then one
   * fragment and one parameter per active filter, in the fixed order of `Candidates`.
   */
  method BuildListingClause(f: Filters) returns (c: Clause)
    ensures c == Fold(Clause(BaseClause, []), Candidates(f))
    ensures c.where == BaseClause + Join(ActiveFragments(Candidates(f)), "")
    ensures c.params == ActiveParams(Candidates(f))
    ensures Placeholders(c.where) == |c.params|
  {
    c := AddTwelveFilters(Clause(BaseClause, []), Candidates(f));
    ListingClause(f);
  }

  /** The twelve filter tests, in order, four at a time. */
  method AddTwelveFilters(init: Clause, cs: seq<Candidate>) returns (c: Clause)
    requires |cs| == 12
    ensures c == Fold(init, cs)
  {
    assert cs[0..] == cs;
    var c4 := AddFourFilters(init, cs, 0);    // seccao, dataInicio, dataFim, cliente
    var c8 := AddFourFilters(c4, cs, 4);      // nome, codigo, composicao, branquear
    c := AddFourFilters(c8, cs, 8);           // desencolar, tingir, utilizador, requisicao
    assert cs[12..] == [];
  }

  /** The folded clause is the base condition and the active fragments, with their parameters, aligned. */
  lemma ListingClause(f: Filters)
    ensures var c := Fold(Clause(BaseClause, []), Candidates(f));
      c.where == BaseClause + Join(ActiveFragments(Candidates(f)), "") && c.params == ActiveParams(Candidates(f)) &&
      Placeholders(c.where) == |c.params|
  {
    FoldAppends(Clause(BaseClause, []), Candidates(f));
    ListingPlaceholders(f);
  }

  lemma ListingPlaceholders(f: Filters)
    ensures Placeholders(Fold(Clause(BaseClause, []), Candidates(f)).where) == |Fold(Clause(BaseClause, []), Candidates(f)).params|
  {
    BaseClauseClean();
    NoPlaceholders(BaseClause);
    FragmentsBindOne(f);
    FoldAligned(Clause(BaseClause, []), Candidates(f));
  }

  // ---------------------------------------------------------------- paging

  /** `const { page = 1, limit = 50 } = filters`: the defaults replace absent values only. */
  function PageOf(f: Filters): (p: JsNumber)
    ensures f.page.None? ==> p == Num(1)
    ensures f.page.Some? ==> p == f.page.value
  {
    f.page.GetOr(Num(1))
  }

  function LimitOf(f: Filters): (l: JsNumber)
    ensures f.limit.None? ==> l == Num(50)
    ensures f.limit.Some? ==> l == f.limit.value
  {
    f.limit.GetOr(Num(50))
  }

  /** `(page - 1) * limit`, NaN as soon as either is NaN. */
  function Offset(page: JsNumber, limit: JsNumber): (o: JsNumber)
    ensures o.Num? <==> page.Num? && limit.Num?
    ensures page.Num? && limit.Num? && page.n >= 1 && limit.n >= 0 ==> o.n >= 0
  {
    if page.Num? && limit.Num? then
      assert page.n >= 1 && limit.n >= 0 ==> (page.n - 1) * limit.n >= 0;
      Num((page.n - 1) * limit.n)
    else NaN
  }

  /** The rows a page covers start right after those of the pages before it. */
  lemma OffsetsTile(p: int, l: int)
    ensures Offset(Num(p + 1), Num(l)) == Num(Offset(Num(p), Num(l)).n + l)
  {
  }

  /**
   * `Math.ceil(total / limit)` when it is a finite number (any non-zero limit, a negative one
   * from `?limit=-5` included); the non-finite results of a zero or NaN limit are None.
   */
  function TotalPages(total: int, limit: JsNumber): (t: Option<int>)
    ensures t.Some? <==> limit.Num? && limit.n != 0
    ensures t.Some? && limit.n > 0 ==> (t.value - 1) * limit.n < total <= t.value * limit.n
    ensures t.Some? && limit.n < 0 ==> t.value * limit.n <= total < (t.value - 1) * limit.n
  {
    if limit.Num? && limit.n > 0 then Some(CeilDiv(total, limit.n))
    else if limit.Num? && limit.n < 0 then
      var m := -limit.n;
      var c := -(total / m);
      assert c * limit.n == (total / m) * m;
      assert (c - 1) * limit.n == (total / m) * m + m;
      Some(c)
    else None
  }

  /** Every record falls on some page up to totalPages, and the last page is not empty. */
  lemma TotalPagesCoversAll(total: nat, limit: int)
    requires limit > 0 && total > 0
    ensures var t := TotalPages(total, Num(limit)).value;
      t >= 1 && Offset(Num(t), Num(limit)).n < total <= Offset(Num(t + 1), Num(limit)).n
  {
    var t := TotalPages(total, Num(limit)).value;
    PositiveFactor(t, limit);
  }

  // ---------------------------------------------------------------- records

  /** A row of MOV_RECEPCAO; NULL text columns are None. Dates are kept as their text. */
  datatype RecepcaoRow = RecepcaoRow(
    seccao: int, data: string, linha: int, cliente: int, nome: Option<string>,
    codigo: int, descricao: Option<string>, composicao: int, composicaoDescricao: Option<string>,
    rolos: int, pesos: int, gramagem: int, medidas: int,
    branquear: Option<string>, desencolar: Option<string>, tingir: Option<string>,
    rolosEntregues: int, pesosEntregues: int,
    requisicao: Option<string>, utilizador: Option<string>, dataReg: string)

  datatype Recepcao = Recepcao(
    seccao: int, data: string, linha: int, cliente: int, nome: string,
    codigo: int, descricao: string, composicao: int, composicaoDescricao: string,
    rolos: int, pesos: int, gramagem: int, medidas: int,
    branquear: Option<string>, desencolar: Option<string>, tingir: Option<string>,
    rolosEntregues: int, pesosEntregues: int,
    requisicao: string, utilizador: string, dataReg: string)

  /** `row.COL?.trim()`: NULL stays undefined. */
  function TrimFlag(col: Option<string>): (r: Option<string>)
    ensures r.Some? <==> col.Some?
    ensures r.Some? ==> r.value == Trim(col.value)
  {
    if col.Some? then Some(Trim(col.value)) else None
  }

  /** `mapRowToRecepcao`: texts trimmed (NULL as ''), flags trimmed, numbers and keys as stored. */
  function MapRowToRecepcao(row: RecepcaoRow): (r: Recepcao)
    ensures r.seccao == row.seccao && r.data == row.data && r.linha == row.linha
    ensures r.nome == TrimOrEmpty(row.nome) && r.descricao == TrimOrEmpty(row.descricao)
    ensures r.composicaoDescricao == TrimOrEmpty(row.composicaoDescricao)
    ensures r.requisicao == TrimOrEmpty(row.requisicao) && r.utilizador == TrimOrEmpty(row.utilizador)
    ensures r.branquear == TrimFlag(row.branquear) && r.desencolar == TrimFlag(row.desencolar)
    ensures r.tingir == TrimFlag(row.tingir)
    ensures r.cliente == row.cliente && r.codigo == row.codigo && r.composicao == row.composicao
    ensures r.rolos == row.rolos && r.pesos == row.pesos && r.gramagem == row.gramagem && r.medidas == row.medidas
    ensures r.rolosEntregues == row.rolosEntregues && r.pesosEntregues == row.pesosEntregues
    ensures r.dataReg == row.dataReg
    ensures r.rolos - r.rolosEntregues == row.rolos - row.rolosEntregues
    ensures r.pesos - r.pesosEntregues == row.pesos - row.pesosEntregues
  {
    Recepcao(
      row.seccao, row.data, row.linha, row.cliente, TrimOrEmpty(row.nome),
      row.codigo, TrimOrEmpty(row.descricao), row.composicao, TrimOrEmpty(row.composicaoDescricao),
      row.rolos, row.pesos, row.gramagem, row.medidas,
      TrimFlag(row.branquear), TrimFlag(row.desencolar), TrimFlag(row.tingir),
      row.rolosEntregues, row.pesosEntregues,
      TrimOrEmpty(row.requisicao), TrimOrEmpty(row.utilizador), row.dataReg)
  }

  /** Mapping a row twice changes nothing more: trimmed texts are already trimmed. */
  lemma MapRowIdempotent(row: RecepcaoRow)
    ensures var r := MapRowToRecepcao(row);
      TrimOrEmpty(Some(r.nome)) == r.nome && TrimOrEmpty(Some(r.requisicao)) == r.requisicao
  {
    var r := MapRowToRecepcao(row);
    TrimTrimmed(r.nome);
    TrimTrimmed(r.requisicao);
  }

  lemma TrimTrimmed(s: string)
    requires s == [] || (!IsSpace(s[0]) && !IsSpace(s[|s| - 1]))
    ensures Trim(s) == s
  {
  }

  function MapRows(rows: seq<RecepcaoRow>): (rs: seq<Recepcao>)
    ensures |rs| == |rows|
    ensures forall i :: 0 <= i < |rows| ==> rs[i] == MapRowToRecepcao(rows[i])
  {
    if rows == [] then [] else [MapRowToRecepcao(rows[0])] + MapRows(rows[1..])
  }

  const NotFound := "Registro de recepção não encontrado"

  /** `getRecepcaoById`: the first matching row, or the not-found error. */
  function GetRecepcaoById(rows: seq<RecepcaoRow>): (r: Result<Recepcao>)
    ensures r.Failure? <==> rows == []
    ensures r.Failure? ==> r.message == NotFound
    ensures r.Ok? ==> r.value == MapRowToRecepcao(rows[0])
  {
    if rows == [] then Failure(NotFound) else Ok(MapRowToRecepcao(rows[0]))
  }

  // ---------------------------------------------------------------- listing

  datatype ListResponse = ListResponse(data: seq<Recepcao>, total: int, page: JsNumber, totalPages: Option<int>)

  function CountSql(whereClause: string): string
  {
    "SELECT COUNT(*) as TOTAL FROM MOV_RECEPCAO WHERE 1=1 " + whereClause
  }

  function DataSql(limit: JsNumber, offset: JsNumber, whereClause: string): string
  {
    "SELECT FIRST " + limit.ToText() + " SKIP " + offset.ToText() + " * FROM MOV_RECEPCAO WHERE 1=1 "
      + whereClause + " ORDER BY DATA DESC, LINHA DESC"
  }

  /**
   * `getAllRecepcoes`. `countTotal` answers the count query (None when it returns no row,
   * where reading `TOTAL` throws); `select` answers the data query.
   */
  method GetAllRecepcoes(
    f: Filters, countTotal: Statement -> Option<int>, select: Statement -> seq<RecepcaoRow>)
    returns (resp: Result<ListResponse>, count: Statement, query: Statement)
    ensures count.params == query.params == ActiveParams(Candidates(f))
    ensures count.sql == CountSql(Fold(Clause(BaseClause, []), Candidates(f)).where)
    ensures query.sql == DataSql(LimitOf(f), Offset(PageOf(f), LimitOf(f)), Fold(Clause(BaseClause, []), Candidates(f)).where)
    ensures resp.Failure? <==> countTotal(count).None?
    ensures resp.Ok? ==> resp.value == ListResponse(
      MapRows(select(query)), countTotal(count).value, PageOf(f), TotalPages(countTotal(count).value, LimitOf(f)))
  {
    var page, limit := PageOf(f), LimitOf(f);
    var offset := Offset(page, limit);
    var clause := BuildListingClause(f);
    var whereClause, params := clause.where, clause.params;
    count := Statement(CountSql(whereClause), params);
    var total := countTotal(count);
    query := Statement(DataSql(limit, offset, whereClause), params);
    if total.None? {
      resp := Failure("Cannot read properties of undefined (reading 'TOTAL')");
      return;
    }
    var data := MapRows(select(query));
    resp := Ok(ListResponse(data, total.value, page, TotalPages(total.value, limit)));
  }

  // ---------------------------------------------------------------- creation

  /** `result[0]?.MAX_LINHA || 0` plus one; `maxRows` are the MAX(LINHA) answers (None for NULL). */
  function NextLinha(maxRows: seq<Option<int>>): (n: int)
    ensures maxRows == [] || maxRows[0].None? || maxRows[0].value == 0 ==> n == 1
    ensures maxRows != [] && maxRows[0].Some? ==> n > maxRows[0].value
  {
    (if maxRows != [] && maxRows[0].Some? && maxRows[0].value != 0 then maxRows[0].value else 0) + 1
  }

  /** SQL's MAX over the lines of one (section, date): NULL when there is none. */
  function MaxLinha(linhas: seq<int>): (m: Option<int>)
    ensures m.None? <==> linhas == []
    ensures m.Some? ==> m.value in linhas && forall l :: l in linhas ==> l <= m.value
  {
    if linhas == [] then None
    else
      var rest := MaxLinha(linhas[1..]);
      assert forall l :: l in linhas[1..] ==> l in linhas;
      assert forall l :: l in linhas ==> l == linhas[0] || l in linhas[1..];
      if rest.Some? && rest.value > linhas[0] then rest else Some(linhas[0])
  }

  /** The line `createRecepcao` inserts is not yet used in that section and date. */
  lemma NextLinhaIsFresh(linhas: seq<int>)
    ensures NextLinha([MaxLinha(linhas)]) !in linhas
    ensures (forall l :: l in linhas ==> l >= 0) ==> NextLinha([MaxLinha(linhas)]) >= 1
  {
  }

  /** CreateMovRecepcaoRequest, as the request body carries it. */
  datatype CreateRequest = CreateRequest(
    seccao: JsValue, data: JsValue, cliente: JsValue, nome: JsValue, codigo: JsValue,
    descricao: JsValue, composicao: JsValue, composicaoDescricao: JsValue,
    rolos: JsValue, pesos: JsValue, gramagem: JsValue, medidas: JsValue,
    branquear: JsValue, desencolar: JsValue, tingir: JsValue,
    rolosEntregues: JsValue, pesosEntregues: JsValue, requisicao: JsValue)

  /** The 21 column values `createRecepcao` inserts, by column. */
  datatype NewRecepcao = NewRecepcao(
    seccao: JsValue, data: JsValue, linha: int, cliente: JsValue, nome: JsValue, codigo: JsValue,
    descricao: JsValue, composicao: JsValue, composicaoDescricao: JsValue,
    rolos: JsValue, pesos: JsValue, gramagem: JsValue, medidas: JsValue,
    branquear: JsValue, desencolar: JsValue, tingir: JsValue,
    rolosEntregues: JsValue, pesosEntregues: JsValue, requisicao: JsValue,
    utilizador: string, dataReg: int)

  const InsertRecepcaoSql :=
    "INSERT INTO MOV_RECEPCAO (SECCAO, DATA, LINHA, CLIENTE, NOME, CODIGO, DESCRICAO, COMPOSICAO, COMPOSICAO_DESCRICAO, ROLOS, PESOS, GRAMAGEM, MEDIDAS, BRANQUEAR, DESENCOLAR, TINGIR, ROLOS_ENTREGUES, PESOS_ENTREGUES, REQUISICAO, UTILIZADOR, DATA_REG) VALUES (?, ?, ?, ?, ?, ?, ?, ?, ?, ?, ?, ?, ?, ?, ?, ?, ?, ?, ?, ?, ?)"

  /** The values in the column order of the INSERT. */
  function InsertStatement(n: NewRecepcao): (s: Statement)
    ensures |s.params| == 21 && s.params[2] == PInt(n.linha)
  {
    Statement(InsertRecepcaoSql, [
      PValue(n.seccao), PValue(n.data), PInt(n.linha),
      PValue(n.cliente), PValue(n.nome), PValue(n.codigo), PValue(n.descricao),
      PValue(n.composicao), PValue(n.composicaoDescricao), PValue(n.rolos), PValue(n.pesos),
      PValue(n.gramagem), PValue(n.medidas), PValue(n.branquear), PValue(n.desencolar), PValue(n.tingir),
      PValue(n.rolosEntregues), PValue(n.pesosEntregues), PValue(n.requisicao),
      PText(n.utilizador), PDate(n.dataReg)])
  }

  const Zero := Number(Num(0))

  /**
   * The record `createRecepcao` inserts, at line `NextLinha(maxRows)` and registration time
   * `now`: optional quantities default to 0 and the requisition to ''.
   */
  function CreateRecepcaoRow(d: CreateRequest, utilizador: string, maxRows: seq<Option<int>>, now: int): (n: NewRecepcao)
    ensures n.seccao == d.seccao && n.data == d.data && n.linha == NextLinha(maxRows)
    ensures n.cliente == d.cliente && n.nome == d.nome && n.codigo == d.codigo && n.descricao == d.descricao
    ensures n.composicao == d.composicao && n.composicaoDescricao == d.composicaoDescricao
    ensures n.rolos == d.rolos && n.pesos == d.pesos
    ensures n.branquear == d.branquear && n.desencolar == d.desencolar && n.tingir == d.tingir
    ensures n.gramagem == d.gramagem.Or(Zero) && n.medidas == d.medidas.Or(Zero)
    ensures n.rolosEntregues == d.rolosEntregues.Or(Zero) && n.pesosEntregues == d.pesosEntregues.Or(Zero)
    ensures n.requisicao == d.requisicao.Or(Str(""))
    ensures n.utilizador == utilizador && n.dataReg == now
  {
    NewRecepcao(
      d.seccao, d.data, NextLinha(maxRows), d.cliente, d.nome, d.codigo, d.descricao,
      d.composicao, d.composicaoDescricao, d.rolos, d.pesos,
      d.gramagem.Or(Zero), d.medidas.Or(Zero), d.branquear, d.desencolar, d.tingir,
      d.rolosEntregues.Or(Zero), d.pesosEntregues.Or(Zero), d.requisicao.Or(Str("")),
      utilizador, now)
  }

  /** Absent optional quantities are stored as 0, so a new lot starts with nothing delivered. */
  lemma NewLotNothingDelivered(d: CreateRequest, utilizador: string, maxRows: seq<Option<int>>, now: int)
    requires !d.rolosEntregues.Truthy() && !d.pesosEntregues.Truthy()
    ensures var n := CreateRecepcaoRow(d, utilizador, maxRows, now);
      n.rolosEntregues == Zero && n.pesosEntregues == Zero
  {
  }

  // ---------------------------------------------------------------- update

  /** The primary key of a reception record. */
  datatype Key = Key(seccao: JsNumber, data: string, linha: JsNumber)

  const UpdateRecepcaoHead := "UPDATE MOV_RECEPCAO SET "
  const WhereKey := Assign(" WHERE SECCAO") + Assign(" AND DATA") + Assign(" AND LINHA")

  function KeyParams(k: Key): seq<Param>
  {
    [PNumber(k.seccao), PText(k.data), PNumber(k.linha)]
  }

  lemma SetListSnoc(ds: seq<(string, JsValue)>, e: (string, JsValue))
    ensures SetList(ds + [e]) == SetList(ds) + [Assign(Upper(e.0))]
    ensures EntryValues(ds + [e]) == EntryValues(ds) + [PValue(e.1)]
  {
    assert (ds + [e])[..|ds|] == ds;
  }

  /** `${key.toUpperCase()} = ?` for each entry. */
  function SetList(ds: seq<(string, JsValue)>): (fields: seq<string>)
    ensures |fields| == |ds|
  {
    if ds == [] then [] else SetList(ds[..|ds| - 1]) + [Assign(Upper(ds[|ds| - 1].0))]
  }

  function UpdateRecepcaoSql(fields: seq<string>): string
  {
    UpdateRecepcaoHead + Join(fields, Comma) + WhereKey
  }

  /** The `forEach` over the entries: one SET field and one value per defined entry, in order. */
  method CollectUpdateFields(entries: seq<(string, JsValue)>) returns (updateFields: seq<string>, values: seq<Param>)
    ensures updateFields == SetList(DefinedEntries(entries))
    ensures values == EntryValues(DefinedEntries(entries))
  {
    updateFields, values := [], [];
    var i := 0;
    while i < |entries|
      invariant 0 <= i <= |entries|
      invariant updateFields == SetList(DefinedEntries(entries[..i]))
      invariant values == EntryValues(DefinedEntries(entries[..i]))
    {
      var key, value := entries[i].0, entries[i].1;
      DefinedSnoc(entries, i);
      SetListSnoc(DefinedEntries(entries[..i]), entries[i]);
      if value != Undefined {
        updateFields := updateFields + [Assign(Upper(key))];
        values := values + [PValue(value)];
      } else {
        assert DefinedEntries(entries[..i]) + [] == DefinedEntries(entries[..i]);
      }
      i := i + 1;
    }
    assert entries[..i] == entries;
  }

  /**
   * The statement of `updateRecepcao`: one SET field per defined entry, its value bound in
   * the same order, then the key; an update with nothing defined is refused.
   */
  method BuildRecepcaoUpdate(k: Key, entries: seq<(string, JsValue)>) returns (r: Result<Statement>)
    ensures r.Failure? <==> DefinedEntries(entries) == []
    ensures r.Failure? ==> r.message == NothingToUpdate
    ensures r.Ok? ==> r.value == Statement(
      UpdateRecepcaoSql(SetList(DefinedEntries(entries))), EntryValues(DefinedEntries(entries)) + KeyParams(k))
  {
    var updateFields, values := CollectUpdateFields(entries);
    if |updateFields| == 0 {
      return Failure(NothingToUpdate);
    }
    values := values + KeyParams(k);
    r := Ok(Statement(UpdateRecepcaoSql(updateFields), values));
  }

  lemma UpperKeepsPlaceholderFree(s: string)
    requires '?' !in s
    ensures '?' !in Upper(s)
  {
    forall i | 0 <= i < |Upper(s)|
      ensures Upper(s)[i] != '?'
    {
      assert s[i] in s;
    }
  }

  lemma {:induction false} SetListBindsOne(ds: seq<(string, JsValue)>)
    requires forall e :: e in ds ==> '?' !in e.0
    ensures OnePlaceholderEach(SetList(ds))
  {
    if ds != [] {
      var front := ds[..|ds| - 1];
      assert forall e :: e in front ==> e in ds;
      SetListBindsOne(front);
      var last := ds[|ds| - 1];
      assert last in ds;
      UpperKeepsPlaceholderFree(last.0);
      AssignPlaceholder(Upper(last.0));
    }
  }

  lemma WhereKeyBindsThree()
    ensures Placeholders(WhereKey) == 3 && '?' !in UpdateRecepcaoHead && '?' !in Comma
  {
    assert '?' !in " WHERE SECCAO" && '?' !in " AND DATA" && '?' !in " AND LINHA";
    assert '?' !in UpdateRecepcaoHead && '?' !in Comma;
    AssignPlaceholder(" WHERE SECCAO");
    AssignPlaceholder(" AND DATA");
    AssignPlaceholder(" AND LINHA");
    PlaceholdersOf3(Assign(" WHERE SECCAO"), Assign(" AND DATA"), Assign(" AND LINHA"));
  }

  /**
   * When no field name contains '?', the update binds exactly its values: one per SET field
   * and three for the key. A body key containing '?' would shift every later value.
   */
  lemma UpdateRecepcaoAligned(k: Key, entries: seq<(string, JsValue)>)
    requires forall e :: e in entries ==> '?' !in e.0
    ensures var ds := DefinedEntries(entries);
      Placeholders(UpdateRecepcaoSql(SetList(ds))) == |EntryValues(ds) + KeyParams(k)|
  {
    var ds := DefinedEntries(entries);
    forall e | e in ds
      ensures '?' !in e.0
    {
      DefinedEntriesMembers(entries, e);
    }
    SetListBindsOne(ds);
    WhereKeyBindsThree();
    var fields := SetList(ds);
    NoPlaceholders(UpdateRecepcaoHead);
    NoPlaceholders(Comma);
    PlaceholdersJoin(fields, Comma);
    PlaceholdersOf3(UpdateRecepcaoHead, Join(fields, Comma), WhereKey);
  }
}
