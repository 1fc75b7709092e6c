/**
 * ProcessosController: the dyeing floor's view of a finishing sheet (FA) — the sheet itself, its
 * process lines, adding and removing a line, and the last sheet of a section. The database is the
 * `query` parameter: the arguments it is given and the rows (column -> value) it returns.
 * `parseFloat` is modelled by the integer parse, fractions dropped.
 */
module ProcessosController {
  import opened Wrappers
  import opened Js
  import opened Http
  import opened Sql
  import opened AuthMiddleware

  /** A row as the driver returns it: upper-case column names to values. */
  type Row = map<string, JsValue>

  /** A row sent to the client: lower-case keys, in the handler's order. */
  type Record = seq<(string, JsValue)>

  /** The columns of OBTER_FICHAS_ENTRADA the sheet view forwards. */
  const FichaEntradaColumns: seq<string> := [
    "R_FA_SECCAO", "R_FA_NUMERO", "R_FA_DATA", "R_ROLOS", "R_PESOS", "R_ROLOS_ENTREGUES",
    "R_PESOS_ENTREGUES", "R_GRAMAGEM", "R_MEDIDAS", "R_OBS", "R_ESTADO", "R_ESTADO_DESCRICAO",
    "R_PRODUCAO", "R_CLIENTE", "R_CLIENTE_NOME", "R_ARTIGO_CODIGO", "R_ARTIGO_DESCRICAO",
    "R_COMPOSICAO", "R_COMPOSICAO_DESCRICAO", "R_BRANQUEAR", "R_DESENCOLAR", "R_TINGIR",
    "R_ID_COR", "R_CODIGO_COR", "R_REQUISICAO"]

  /** The columns of OBTER_FICHAS_PROCESSOS the process list forwards. */
  const FichaProcessosColumns: seq<string> := [
    "R_LINHA", "R_DATA", "R_PROCESSO_ID", "R_PROCESSO", "R_COR_ID", "R_CODIGO_COR",
    "R_COR_MALHA", "R_ROLOS", "R_PESOS", "R_OBS"]

  /** `row.COL`: undefined when the column is absent. */
  function Column(row: Row, c: string): (v: JsValue)
    ensures c in row ==> v == row[c]
    ensures c !in row ==> v == Undefined
  {
    if c in row then row[c] else Undefined
  }

  /** The "transform to lowercase" object: each listed column under its lower-case name. */
  function Transform(row: Row, columns: seq<string>): (r: Record)
    ensures |r| == |columns|
    ensures forall i :: 0 <= i < |columns| ==> r[i] == (Lower(columns[i]), Column(row, columns[i]))
  {
    seq(|columns|, i requires 0 <= i < |columns| => (Lower(columns[i]), Column(row, columns[i])))
  }

  predicate NoLowerAscii(s: string)
  {
    forall i :: 0 <= i < |s| ==> !IsLowerAscii(s[i])
  }

  /** Lower-casing a name without lower-case letters is undone by upper-casing it. */
  lemma UpperLower(s: string)
    requires NoLowerAscii(s)
    ensures Upper(Lower(s)) == s
  {
    forall i | 0 <= i < |s| ensures Upper(Lower(s))[i] == s[i] {
      assert Lower(s)[i] == LowerChar(s[i]);
    }
  }

  /** The renaming loses nothing: upper-casing a key gives back the column it was read from. */
  lemma TransformKeysReadBack(row: Row, columns: seq<string>, i: nat)
    requires i < |columns| && NoLowerAscii(columns[i])
    ensures Upper(Transform(row, columns)[i].0) == columns[i]
    ensures Transform(row, columns)[i].1 == Column(row, columns[i])
  {
    UpperLower(columns[i]);
  }

  const FaRequired := "Número FA é obrigatório"
  const InternalError := "Erro interno do servidor"

  /** `!faNumero` for a path parameter: absent or empty. */
  predicate Given(p: Option<string>) { p.Some? && p.value != "" }

  /** `[userSeccao, parseInt(faNumero)]`, the key of a sheet. */
  function SheetParams(user: Option<SessionUser>, faNumero: string): (ps: seq<Param>)
    ensures ps == [PInt(UserSeccao(user)), PNumber(ParseInt(faNumero))]
  {
    [PInt(UserSeccao(user)), PNumber(ParseInt(faNumero))]
  }

  /**
   * `getFichaEntrada`: 400 without a number; otherwise OBTER_FICHAS_ENTRADA for the user's
   * section and that number: 404 when it returns no row, else the first row with lower-case keys.
   */
  function GetFichaEntrada(user: Option<SessionUser>, faNumero: Option<string>, query: seq<Param> -> Result<seq<Row>>)
    : (r: Reply<Record>)
    ensures !Given(faNumero) ==> r == Error(400, FaRequired)
    ensures Given(faNumero) ==> match query(SheetParams(user, faNumero.value))
      case Failure(_) => r == Error(500, InternalError)
      case Ok(rows) =>
        (rows == [] ==> r == Error(404, "Ficha não encontrada")) &&
        (rows != [] ==> r == Success(200, Transform(rows[0], FichaEntradaColumns)))
  {
    if !Given(faNumero) then Error(400, FaRequired)
    else match query(SheetParams(user, faNumero.value))
      case Failure(_) => Error(500, InternalError)
      case Ok(rows) =>
        if |rows| == 0 then Error(404, "Ficha não encontrada")
        else Success(200, Transform(rows[0], FichaEntradaColumns))
  }

  /** `result.map(...)`: one record per row, in order. */
  function TransformAll(rows: seq<Row>, columns: seq<string>): (rs: seq<Record>)
    ensures |rs| == |rows|
    ensures forall i :: 0 <= i < |rows| ==> rs[i] == Transform(rows[i], columns)
  {
    seq(|rows|, i requires 0 <= i < |rows| => Transform(rows[i], columns))
  }

  /** `getFichaProcessos`: 400 without a number; an empty list is a success like any other. */
  function GetFichaProcessos(user: Option<SessionUser>, faNumero: Option<string>, query: seq<Param> -> Result<seq<Row>>)
    : (r: Reply<seq<Record>>)
    ensures !Given(faNumero) ==> r == Error(400, FaRequired)
    ensures Given(faNumero) ==> match query(SheetParams(user, faNumero.value))
      case Failure(_) => r == Error(500, InternalError)
      case Ok(rows) => r == Success(200, TransformAll(rows, FichaProcessosColumns))
  {
    if !Given(faNumero) then Error(400, FaRequired)
    else match query(SheetParams(user, faNumero.value))
      case Failure(_) => Error(500, InternalError)
      case Ok(rows) => Success(200, TransformAll(rows, FichaProcessosColumns))
  }

  /** A sheet without process lines lists as an empty success. */
  lemma NoProcessesIsEmptySuccess(user: Option<SessionUser>, fa: string, query: seq<Param> -> Result<seq<Row>>)
    requires fa != "" && query(SheetParams(user, fa)) == Ok([])
    ensures GetFichaProcessos(user, Some(fa), query) == Success(200, [])
  {
  }

  // ---------------------------------------------------------------- add and remove a process line

  /** The body of `addProcesso`; `gramagem` and `medidas` are read but never forwarded. */
  datatype AddRequest = AddRequest(
    processoId: JsValue, corId: JsValue, rolos: JsValue, pesos: JsValue, observacoes: JsValue,
    gramagem: JsValue, medidas: JsValue)

  /**
   * The arguments of GRAVA_FA_PROCESSOS, in order: section, sheet, line 0 (numbered by the
   * procedure), the process, the colour or null, the quantities or 0, the notes or ''.
   */
  datatype ProcessoCall = ProcessoCall(
    seccao: int, faNumero: JsNumber, linha: int, processoId: JsValue, corId: JsValue,
    rolos: int, pesos: int, obs: JsValue)

  function AddParams(user: Option<SessionUser>, faNumero: string, b: AddRequest): ProcessoCall
  {
    ProcessoCall(UserSeccao(user), ParseInt(faNumero), 0, b.processoId, b.corId.Or(Null),
                 b.rolos.ParsedInt().Or(0), b.pesos.ParsedInt().Or(0), b.observacoes.Or(Str("")))
  }

  /** The outcome of a write: the reply and the arguments the procedure was called with, if it was. */
  datatype Written<C> = Written(reply: Reply<()>, sent: Option<C>)

  /** `addProcesso`: 400 unless both the sheet and the process are given; then one call. */
  function AddProcesso(user: Option<SessionUser>, faNumero: Option<string>, b: AddRequest, exec: ProcessoCall -> Result<()>)
    : (w: Written<ProcessoCall>)
    ensures !(Given(faNumero) && b.processoId.Truthy()) ==>
      w == Written(Error(400, "Número FA e Processo são obrigatórios"), None)
    ensures Given(faNumero) && b.processoId.Truthy() ==>
      w.sent == Some(AddParams(user, faNumero.value, b)) &&
      w.reply == if exec(w.sent.value).Ok? then Success(200, ()) else Error(500, InternalError)
  {
    if !(Given(faNumero) && b.processoId.Truthy()) then
      Written(Error(400, "Número FA e Processo são obrigatórios"), None)
    else
      var ps := AddParams(user, faNumero.value, b);
      Written(if exec(ps).Ok? then Success(200, ()) else Error(500, InternalError), Some(ps))
  }

  /** The width and measures of a request never change what is written. */
  lemma AddIgnoresMeasures(user: Option<SessionUser>, fa: string, b: AddRequest, g: JsValue, m: JsValue)
    ensures AddParams(user, fa, b.(gramagem := g, medidas := m)) == AddParams(user, fa, b)
  {
  }

  /** `removeProcesso`: 400 unless both the sheet and the line are given; deletes that line of the user's section. */
  function RemoveProcesso(user: Option<SessionUser>, faNumero: Option<string>, linha: Option<string>, exec: seq<Param> -> Result<()>)
    : (w: Written<seq<Param>>)
    ensures !(Given(faNumero) && Given(linha)) ==>
      w == Written(Error(400, "Número FA e linha são obrigatórios"), None)
    ensures Given(faNumero) && Given(linha) ==>
      w.sent == Some([PInt(UserSeccao(user)), PNumber(ParseInt(faNumero.value)), PNumber(ParseInt(linha.value))]) &&
      w.reply == if exec(w.sent.value).Ok? then Success(200, ()) else Error(500, InternalError)
  {
    if !(Given(faNumero) && Given(linha)) then Written(Error(400, "Número FA e linha são obrigatórios"), None)
    else
      var ps := [PInt(UserSeccao(user)), PNumber(ParseInt(faNumero.value)), PNumber(ParseInt(linha.value))];
      Written(if exec(ps).Ok? then Success(200, ()) else Error(500, InternalError), Some(ps))
  }

  /** `removeFichaEntrada`: 400 without a number; deletes the sheet of the user's section. */
  function RemoveFichaEntrada(user: Option<SessionUser>, faNumero: Option<string>, exec: seq<Param> -> Result<()>)
    : (w: Written<seq<Param>>)
    ensures !Given(faNumero) ==> w == Written(Error(400, FaRequired), None)
    ensures Given(faNumero) ==>
      w.sent == Some(SheetParams(user, faNumero.value)) &&
      w.reply == if exec(w.sent.value).Ok? then Success(200, ()) else Error(500, InternalError)
  {
    if !Given(faNumero) then Written(Error(400, FaRequired), None)
    else
      var ps := SheetParams(user, faNumero.value);
      Written(if exec(ps).Ok? then Success(200, ()) else Error(500, InternalError), Some(ps))
  }

  // ---------------------------------------------------------------- last sheet

  /** `{ ultima_fa, ultima_data }`. */
  datatype UltimaFa = UltimaFa(ultimaFa: JsValue, ultimaData: JsValue)

  /** `getUltimaFA`: MAX(FA_NUMERO) and MAX(FA_DATA) of the section; null and null without a row. */
  function GetUltimaFa(rows: seq<Row>): (u: UltimaFa)
    ensures rows == [] ==> u == UltimaFa(Null, Null)
    ensures rows != [] ==> u == UltimaFa(Column(rows[0], "ULTIMA_FA"), Column(rows[0], "ULTIMA_DATA"))
  {
    if |rows| > 0 then UltimaFa(Column(rows[0], "ULTIMA_FA"), Column(rows[0], "ULTIMA_DATA"))
    else UltimaFa(Null, Null)
  }
}
