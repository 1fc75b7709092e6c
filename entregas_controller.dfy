/**
 * EntregasController.registarEntrega: a delivery of rolls and weight against a finishing sheet,
 * written by GRAVA_MOV_ENTREGA. The procedure is the `exec` parameter. `parseFloat` is
 * modelled by the integer parse, fractions dropped.
 */
module EntregasController {
  import opened Wrappers
  import opened Js
  import opened Http
  import opened Sql
  import opened AuthMiddleware

  datatype EntregaRequest = EntregaRequest(rolos: JsValue, pesos: JsValue, estadoId: JsValue, observacoes: JsValue)

  /**
   * The arguments of GRAVA_MOV_ENTREGA, in order: the user's section, the sheet, the rolls (0 when
   * not a number), the weight, the state and the notes ('' when absent).
   */
  datatype EntregaCall = EntregaCall(seccao: int, faNumero: JsNumber, rolos: int, pesos: JsNumber, estado: JsNumber, obs: JsValue)

  function EntregaParams(user: Option<SessionUser>, faNumero: string, b: EntregaRequest): EntregaCall
  {
    EntregaCall(UserSeccao(user), ParseInt(faNumero), b.rolos.ParsedInt().Or(0),
                b.pesos.ParsedInt(), b.estadoId.ParsedInt(), b.observacoes.Or(Str("")))
  }

  datatype Outcome<T> = Outcome(reply: Reply<T>, sent: Option<EntregaCall>)

  /**
   * `registarEntrega`: 400 without a sheet number, then 400 without a weight or a state; only
   * then is the procedure called, once.
   */
  function RegistarEntrega<T>(
    user: Option<SessionUser>, faNumero: Option<string>, b: EntregaRequest, exec: EntregaCall -> Result<T>)
    : (o: Outcome<T>)
    ensures faNumero.None? || faNumero.value == "" ==> o == Outcome(Error(400, "Número FA é obrigatório"), None)
    ensures faNumero.Some? && faNumero.value != "" && !(b.pesos.Truthy() && b.estadoId.Truthy()) ==>
      o == Outcome(Error(400, "Pesos e Estado são obrigatórios"), None)
    ensures o.sent.Some? <==> faNumero.Some? && faNumero.value != "" && b.pesos.Truthy() && b.estadoId.Truthy()
    ensures o.sent.Some? ==> o.sent.value == EntregaParams(user, faNumero.value, b)
    ensures o.sent.Some? ==> o.reply == match exec(o.sent.value)
                                        case Ok(rows) => Success(200, rows)
                                        case Failure(_) => Error(500, "Erro interno do servidor")
  {
    if faNumero.None? || faNumero.value == "" then Outcome(Error(400, "Número FA é obrigatório"), None)
    else if !(b.pesos.Truthy() && b.estadoId.Truthy()) then Outcome(Error(400, "Pesos e Estado são obrigatórios"), None)
    else
      var ps := EntregaParams(user, faNumero.value, b);
      match exec(ps)
      case Ok(rows) => Outcome(Success(200, rows), Some(ps))
      case Failure(_) => Outcome(Error(500, "Erro interno do servidor"), Some(ps))
  }

}
