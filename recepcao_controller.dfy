/**
 * The HTTP handlers of the reception records: create validation, the section a non-admin is
 * confined to, and the status of every outcome. The service calls are parameters; each
 * handler also reports the calls it made, so that "refused before any service call" is visible.
 */
module RecepcaoController {
  import opened Wrappers
  import opened Js
  import opened Http
  import opened Sql
  import opened AuthMiddleware
  import opened RecepcaoService

  // ---------------------------------------------------------------- create

  /** The eight fields `createRecepcao` requires to be truthy. */
  predicate HasRequiredFields(d: CreateRequest)
  {
    d.seccao.Truthy() && d.data.Truthy() && d.cliente.Truthy() && d.nome.Truthy() &&
    d.codigo.Truthy() && d.descricao.Truthy() && d.composicao.Truthy() && d.composicaoDescricao.Truthy()
  }

  /** `req.user?.username || 'SYSTEM'`. */
  function Utilizador(user: Option<SessionUser>): (u: string)
    ensures user.Some? && user.value.username != "" ==> u == user.value.username
    ensures user.None? || user.value.username == "" ==> u == "SYSTEM"
  {
    if user.Some? && user.value.username != "" then user.value.username else "SYSTEM"
  }

  /**
   * `createRecepcao`: 400 unless the required fields are all present; then a non-admin's section
   * replaces the one sent, and the service creates the record as the user (201, or 500 when it
   * throws).
   */
  method CreateRecepcao<T>(user: Option<SessionUser>, body: CreateRequest, create: (CreateRequest, string) -> Result<T>)
    returns (r: Reply<T>, sent: seq<CreateRequest>)
    ensures !HasRequiredFields(body) ==> r == Error(400, "Campos obrigatórios em falta") && sent == []
    ensures HasRequiredFields(body) ==> |sent| == 1
    ensures HasRequiredFields(body) && IsAdmin(user) ==> sent[0] == body
    ensures HasRequiredFields(body) && !IsAdmin(user) ==> sent[0] == body.(seccao := Number(Num(UserSeccao(user))))
    ensures HasRequiredFields(body) && create(sent[0], Utilizador(user)).Ok? ==>
      r == Success(201, create(sent[0], Utilizador(user)).value)
    ensures HasRequiredFields(body) && create(sent[0], Utilizador(user)).Failure? ==>
      r == Error(500, "Erro ao criar recepção")
  {
    var recepcaoData := body;
    var utilizador := Utilizador(user);
    if !HasRequiredFields(recepcaoData) {
      return Error(400, "Campos obrigatórios em falta"), [];
    }
    if !IsAdmin(user) {
      recepcaoData := recepcaoData.(seccao := Number(Num(UserSeccao(user))));
    }
    sent := [recepcaoData];
    var recepcao := create(recepcaoData, utilizador);
    if recepcao.Failure? {
      return Error(500, "Erro ao criar recepção"), sent;
    }
    r := Success(201, recepcao.value);
  }

  /**
   * The required section is checked on the body as sent, before it is replaced: a non-admin
   * must still send some truthy seccao, and whatever they send is stored as their own section.
   */
  lemma NonAdminStoresOwnSection(user: Option<SessionUser>, body: CreateRequest)
    requires HasRequiredFields(body) && !IsAdmin(user)
    ensures var d := body.(seccao := Number(Num(UserSeccao(user))));
      HasRequiredFields(d) && d.seccao.Truthy() && d.seccao == Number(Num(UserSeccao(user)))
  {
  }

  // ---------------------------------------------------------------- listing

  /** The query string of the listing, one optional text per parameter. */
  datatype ListQuery = ListQuery(
    seccao: Option<string>, dataInicio: Option<string>, dataFim: Option<string>, cliente: Option<string>,
    nome: Option<string>, codigo: Option<string>, composicao: Option<string>,
    branquear: Option<string>, desencolar: Option<string>, tingir: Option<string>,
    utilizador: Option<string>, requisicao: Option<string>, page: Option<string>, limit: Option<string>)

  /** `q ? parseInt(q) : undefined`. */
  function NumberParam(q: Option<string>): (v: JsValue)
    ensures q.None? || q.value == "" ==> v == Undefined
    ensures q.Some? && q.value != "" ==> v == Number(ParseInt(q.value))
  {
    if q.Some? && q.value != "" then Number(ParseInt(q.value)) else Undefined
  }

  /** `q ? new Date(q) : undefined`, the date kept as its text. */
  function DateParam(q: Option<string>): (v: JsValue)
    ensures q.None? || q.value == "" ==> v == Undefined
    ensures q.Some? && q.value != "" ==> v == Str(q.value)
  {
    if q.Some? && q.value != "" then Str(q.value) else Undefined
  }

  /** `q as string`, passed through. */
  function TextParam(q: Option<string>): (v: JsValue)
    ensures q.None? ==> v == Undefined
    ensures q.Some? ==> v == Str(q.value)
  {
    if q.Some? then Str(q.value) else Undefined
  }

  /** The filters object every listing handler writes from the query, with the page and limit given. */
  function QueryFilters(q: ListQuery, page: JsNumber, limit: JsNumber): (f: Filters)
    ensures f.page == Some(page) && f.limit == Some(limit) && f.seccao == NumberParam(q.seccao)
    ensures f.dataInicio == DateParam(q.dataInicio) && f.dataFim == DateParam(q.dataFim)
    ensures f.cliente == NumberParam(q.cliente) && f.codigo == NumberParam(q.codigo)
    ensures f.composicao == NumberParam(q.composicao)
    ensures f.nome == q.nome.GetOr("") && f.utilizador == q.utilizador.GetOr("")
    ensures f.requisicao == q.requisicao.GetOr("")
    ensures f.branquear == TextParam(q.branquear) && f.desencolar == TextParam(q.desencolar)
    ensures f.tingir == TextParam(q.tingir)
  {
    Filters(
      Some(page), Some(limit),
      NumberParam(q.seccao), DateParam(q.dataInicio), DateParam(q.dataFim), NumberParam(q.cliente),
      q.nome.GetOr(""), NumberParam(q.codigo), NumberParam(q.composicao),
      TextParam(q.branquear), TextParam(q.desencolar), TextParam(q.tingir),
      q.utilizador.GetOr(""), q.requisicao.GetOr(""))
  }

  /** The filters a user may list: a non-admin's section replaced by their own, nothing else changed. */
  function Forced(f: Filters, user: Option<SessionUser>): (g: Filters)
    ensures IsAdmin(user) ==> g == f
    ensures !IsAdmin(user) ==> g.seccao == Number(Num(UserSeccao(user))) && g.(seccao := f.seccao) == f
  {
    if IsAdmin(user) then f else f.(seccao := Number(Num(UserSeccao(user))))
  }

  /** `if (!req.user?.isAdmin) filters.seccao = req.user?.seccao || 1`. */
  method ForceSection(f: Filters, user: Option<SessionUser>) returns (g: Filters)
    ensures g == Forced(f, user)
  {
    g := f;
    if !IsAdmin(user) {
      g := g.(seccao := Number(Num(UserSeccao(user))));
    }
  }

  /** `getAllRecepcoes`' filters: page 1 and limit 50 by default, a non-admin held to their section. */
  method ListingFilters(q: ListQuery, user: Option<SessionUser>) returns (f: Filters)
    ensures f == Forced(QueryFilters(q, QueryNumber(q.page, 1), QueryNumber(q.limit, 50)), user)
  {
    f := QueryFilters(q, QueryNumber(q.page, 1), QueryNumber(q.limit, 50));
    f := ForceSection(f, user);
  }

  /**
   * A non-admin's listing is always restricted to their section: the section condition is in
   * the clause and its value is the first parameter.
   */
  lemma NonAdminListsOwnSection(f: Filters, user: Option<SessionUser>)
    requires f.seccao == Number(Num(UserSeccao(user)))
    ensures ActiveParams(Candidates(f)) != [] && ActiveParams(Candidates(f))[0] == PValue(Number(Num(UserSeccao(user))))
    ensures ActiveFragments(Candidates(f)) != [] && ActiveFragments(Candidates(f))[0] == BySeccao
  {
    var cs := Candidates(f);
    assert cs[0].active;
  }

  // ---------------------------------------------------------------- keyed handlers

  /** The `:seccao/:data/:linha` path parameters. */
  datatype KeyPath = KeyPath(seccao: string, data: string, linha: string)

  /** `!seccao || !data || !linha`. */
  predicate ValidPath(p: KeyPath)
  {
    p.seccao != "" && p.data != "" && p.linha != ""
  }

  /** The key the handlers pass to the service: both numbers parsed, the date as written. */
  function KeyOf(p: KeyPath): (k: Key)
    ensures k.seccao == ParseInt(p.seccao) && k.data == p.data && k.linha == ParseInt(p.linha)
  {
    Key(ParseInt(p.seccao), p.data, ParseInt(p.linha))
  }

  /** A reply together with the keys of the service calls made for it. */
  datatype Handled<T> = Handled(reply: Reply<T>, calls: seq<Key>)

  /**
   * `getRecepcaoById`: 400 for a missing parameter; the record is fetched first, so a missing
   * record is 404 (other errors 500) whatever the section; then a non-admin gets 403 for a
   * record of another section.
   */
  function GetRecepcaoById(user: Option<SessionUser>, p: KeyPath, fetch: Key -> Result<Recepcao>): (h: Handled<Recepcao>)
    ensures !ValidPath(p) ==> h == Handled(Error(400, "Parâmetros inválidos"), [])
    ensures ValidPath(p) ==> h.calls == [KeyOf(p)]
    ensures ValidPath(p) && fetch(KeyOf(p)).Failure? ==>
      h.reply == (if fetch(KeyOf(p)).message == NotFound then Error(404, NotFound) else Error(500, "Erro ao buscar recepção"))
    ensures ValidPath(p) && fetch(KeyOf(p)).Ok? ==>
      h.reply == (if MaySection(user, Num(fetch(KeyOf(p)).value.seccao)) then Success(200, fetch(KeyOf(p)).value)
                  else Error(403, "Sem permissão para aceder a esta secção"))
  {
    if !ValidPath(p) then Handled(Error(400, "Parâmetros inválidos"), [])
    else
      var k := KeyOf(p);
      var found := fetch(k);
      if found.Failure? then
        Handled(if found.message == NotFound then Error(404, NotFound) else Error(500, "Erro ao buscar recepção"), [k])
      else if !MaySection(user, Num(found.value.seccao)) then
        Handled(Error(403, "Sem permissão para aceder a esta secção"), [k])
      else Handled(Success(200, found.value), [k])
  }

  /** The texts of the three guarded handlers. */
  datatype Action = Update | Delete | Fechar
  {
    function Denied(): string
    {
      match this
      case Update => "Sem permissão para editar esta secção"
      case Delete => "Sem permissão para eliminar desta secção"
      case Fechar => "Sem permissão para fechar recepção desta secção"
    }

    function Failed(): string
    {
      match this
      case Update => "Erro ao atualizar recepção"
      case Delete => "Erro ao eliminar recepção"
      case Fechar => "Erro ao fechar recepção"
    }
  }

  /**
   * `updateRecepcao`, `deleteRecepcao` and `fecharRecepcao`: 400 for a missing parameter, 403
   * for a non-admin whose path section is not theirs (with no service call), else the one
   * service call, 500 when it throws.
   */
  function Guarded<T>(a: Action, user: Option<SessionUser>, p: KeyPath, act: Key -> Result<T>): (h: Handled<T>)
    ensures !ValidPath(p) ==> h == Handled(Error(400, "Parâmetros inválidos"), [])
    ensures ValidPath(p) && !MaySection(user, ParseInt(p.seccao)) ==> h == Handled(Error(403, a.Denied()), [])
    ensures h.calls != [] <==> ValidPath(p) && MaySection(user, ParseInt(p.seccao))
    ensures h.calls != [] ==> h.calls == [KeyOf(p)]
    ensures h.calls != [] ==>
      h.reply == (if act(KeyOf(p)).Ok? then Success(200, act(KeyOf(p)).value) else Error(500, a.Failed()))
  {
    if !ValidPath(p) then Handled(Error(400, "Parâmetros inválidos"), [])
    else
      var k := KeyOf(p);
      if !MaySection(user, k.seccao) then Handled(Error(403, a.Denied()), [])
      else
        var outcome := act(k);
        Handled(if outcome.Ok? then Success(200, outcome.value) else Error(500, a.Failed()), [k])
  }

  /** A non-admin only ever reaches the service with their own section in the key. */
  lemma GuardedCallsOwnSection<T>(a: Action, user: Option<SessionUser>, p: KeyPath, act: Key -> Result<T>)
    requires !IsAdmin(user)
    ensures forall k :: k in Guarded(a, user, p, act).calls ==> k.seccao == Num(user.value.seccao)
  {
  }
}
