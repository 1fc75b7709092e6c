/**
 * The deliveries page of the dye house: an FA (finishing sheet) is looked up, the rolls still
 * to deliver are proposed, and a delivery is registered. The backend's answers are parameters;
 * the request body is the one the deliveries controller reads.
 */
module EntregasPage {
  import opened Wrappers
  import opened Js
  import EntregasController

  /** The sheet as the lookup returns it; a null delivered count is `None`. */
  datatype Ficha = Ficha(faSeccao: int, faNumero: int, rolos: int, pesos: int, rolosEntregues: Option<int>, pesosEntregues: Option<int>)

  datatype Estado = Estado(id: int, descricao: string)

  /** `{ success, data }` of the sheet lookup. */
  datatype FichaResponse = FichaResponse(success: bool, data: Option<Ficha>)

  /** `{ success, message }` of the registration. */
  datatype EntregaResponse = EntregaResponse(success: bool, message: JsValue)

  const MissingFa := "Por favor, introduza um número de FA"
  const NoMoreRolls := "Não há mais rolos para entrega desta FA"
  const NotFound := "Ficha não encontrada"
  const SearchFailed := "Erro ao pesquisar ficha. Tente novamente."
  const MissingFields := "Por favor, preencha pesos entregues e selecione um estado"
  const RegisterFailed := "Erro ao actualizar entrega. Tente novamente."

  /** `r_rolos - (r_rolos_entregues || 0)`: the rolls still to deliver. */
  function SaldoRolos(f: Ficha): (s: int)
    ensures s + f.rolosEntregues.GetOr(0) == f.rolos
  {
    f.rolos - f.rolosEntregues.GetOr(0)
  }

  /** Every roll has been delivered (a null count compares as 0); the completion panel shows. */
  predicate AllDelivered(f: Ficha)
  {
    f.rolosEntregues.GetOr(0) >= f.rolos
  }

  /** Nothing left to deliver exactly when the balance is not positive. */
  lemma AllDeliveredIffNoBalance(f: Ficha)
    ensures AllDelivered(f) <==> SaldoRolos(f) <= 0
  {
  }

  /** The body sent to register a delivery: rolls default to 0 when the field is empty. */
  function EntregaBody(rolos: string, pesos: string, estado: Estado, observacoes: string): (b: EntregasController.EntregaRequest)
    ensures rolos == "" ==> b.rolos == Number(Num(0))
    ensures rolos != "" ==> b.rolos == Str(rolos)
    ensures b.pesos == Str(pesos) && b.estadoId == Number(Num(estado.id)) && b.observacoes == Str(observacoes)
  {
    EntregasController.EntregaRequest(if rolos == "" then Number(Num(0)) else Str(rolos), Str(pesos),
                                      Number(Num(estado.id)), Str(observacoes))
  }

  class EntregasState {
    var faNumber: string
    var ficha: Option<Ficha>
    var error: string
    var rolosEntregues: string
    var pesosEntregues: string
    var selectedEstado: Option<Estado>
    var observacoes: string

    constructor()
      ensures faNumber == "" && ficha == None && error == ""
      ensures rolosEntregues == "" && pesosEntregues == "" && selectedEstado == None && observacoes == ""
    {
      faNumber := "";
      ficha := None;
      error := "";
      rolosEntregues := "";
      pesosEntregues := "";
      selectedEstado := None;
      observacoes := "";
    }

    /** A found sheet: its balance of rolls proposed, the weight cleared, and the notice when nothing is left. */
    method Show(f: Ficha)
      modifies this`ficha, this`error, this`rolosEntregues, this`pesosEntregues
      ensures ficha == Some(f) && rolosEntregues == IntToString(SaldoRolos(f)) && pesosEntregues == ""
      ensures error == (if AllDelivered(f) then NoMoreRolls else "")
    {
      ficha := Some(f);
      rolosEntregues := IntToString(SaldoRolos(f));
      pesosEntregues := "";
      error := if AllDelivered(f) then NoMoreRolls else "";
    }

    /** The answer to a lookup of a filled-in FA number: the sheet shown, or an error and no sheet. */
    method ShowAnswer(response: Result<FichaResponse>)
      modifies this`ficha, this`error, this`rolosEntregues, this`pesosEntregues
      ensures response.Ok? && response.value.success && response.value.data.Some? ==>
        ficha == response.value.data && rolosEntregues == IntToString(SaldoRolos(ficha.value)) && pesosEntregues == "" &&
        error == (if AllDelivered(ficha.value) then NoMoreRolls else "")
      ensures response.Ok? && !(response.value.success && response.value.data.Some?) ==> error == NotFound && ficha == None
      ensures response.Failure? ==> error == SearchFailed && ficha == None
      ensures ficha.None? ==> rolosEntregues == old(rolosEntregues) && pesosEntregues == old(pesosEntregues)
    {
      if response.Failure? {
        error := SearchFailed;
        ficha := None;
      } else if response.value.success && response.value.data.Some? {
        Show(response.value.data.value);
      } else {
        error := NotFound;
        ficha := None;
      }
    }

    /**
     * `handleSearch`: a blank FA number is an error and no request; a found sheet proposes its
     * balance of rolls and an empty weight, with the "no more rolls" error when all are delivered.
     */
    method HandleSearch(response: Result<FichaResponse>)
      modifies this`ficha, this`error, this`rolosEntregues, this`pesosEntregues
      ensures IsBlank(faNumber) ==>
        (error == MissingFa && ficha == old(ficha) && rolosEntregues == old(rolosEntregues) && pesosEntregues == old(pesosEntregues))
      ensures !IsBlank(faNumber) && response.Ok? && response.value.success && response.value.data.Some? ==>
        ficha == response.value.data && rolosEntregues == IntToString(SaldoRolos(ficha.value)) && pesosEntregues == "" &&
        error == (if AllDelivered(ficha.value) then NoMoreRolls else "")
      ensures !IsBlank(faNumber) && response.Ok? && !(response.value.success && response.value.data.Some?) ==>
        error == NotFound && ficha == None
      ensures !IsBlank(faNumber) && response.Failure? ==> error == SearchFailed && ficha == None
      ensures ficha.None? ==> rolosEntregues == old(rolosEntregues) && pesosEntregues == old(pesosEntregues)
    {
      if IsBlank(faNumber) {
        error := MissingFa;
      } else {
        ShowAnswer(response);
      }
    }

    /** `clearForm`: the four delivery fields. */
    method ClearForm()
      modifies this`rolosEntregues, this`pesosEntregues, this`selectedEstado, this`observacoes
      ensures rolosEntregues == "" && pesosEntregues == "" && selectedEstado == None && observacoes == ""
    {
      rolosEntregues := "";
      pesosEntregues := "";
      selectedEstado := None;
      observacoes := "";
    }

    /** `handleClearScreen`: the FA number, the sheet, the error and the four delivery fields. */
    method HandleClearScreen()
      modifies this
      ensures faNumber == "" && ficha == None && error == ""
      ensures rolosEntregues == "" && pesosEntregues == "" && selectedEstado == None && observacoes == ""
    {
      faNumber := "";
      ficha := None;
      error := "";
      ClearForm();
    }

    /**
     * `handleUpdateEntrega`: nothing without a sheet; a missing weight or state is an error and
     * no request; otherwise the body is sent, and a success reloads the sheet.
     */
    method HandleUpdateEntrega(response: Result<EntregaResponse>, reload: Result<FichaResponse>)
      returns (sent: Option<(int, EntregasController.EntregaRequest)>)
      modifies this`ficha, this`error, this`rolosEntregues, this`pesosEntregues
      ensures old(ficha).None? ==> sent.None? && error == old(error) && ficha == old(ficha)
      ensures old(ficha).Some? && (old(pesosEntregues) == "" || selectedEstado.None?) ==>
        sent.None? && error == MissingFields && ficha == old(ficha)
      ensures sent.Some? <==> old(ficha).Some? && old(pesosEntregues) != "" && selectedEstado.Some?
      ensures sent.Some? ==> sent.value == (old(ficha).value.faNumero,
        EntregaBody(old(rolosEntregues), old(pesosEntregues), selectedEstado.value, observacoes))
      ensures sent.Some? && response.Ok? && !response.value.success ==>
        error == response.value.message.Or(Str("Erro ao registar entrega")).ToText()
      ensures sent.Some? && response.Failure? ==> error == RegisterFailed
      ensures sent.None? || !(response.Ok? && response.value.success) ==>
        ficha == old(ficha) && rolosEntregues == old(rolosEntregues) && pesosEntregues == old(pesosEntregues)
      ensures sent.Some? && response.Ok? && response.value.success && IsBlank(faNumber) ==> error == MissingFa
      ensures (sent.Some? && response.Ok? && response.value.success && !IsBlank(faNumber) &&
               reload.Ok? && reload.value.success && reload.value.data.Some?) ==>
        ficha == reload.value.data && rolosEntregues == IntToString(SaldoRolos(ficha.value)) && pesosEntregues == "" &&
        error == (if AllDelivered(ficha.value) then NoMoreRolls else "")
      ensures (sent.Some? && response.Ok? && response.value.success && !IsBlank(faNumber) &&
               reload.Ok? && !(reload.value.success && reload.value.data.Some?)) ==> error == NotFound && ficha == None
      ensures sent.Some? && response.Ok? && response.value.success && !IsBlank(faNumber) && reload.Failure? ==>
        error == SearchFailed && ficha == None
    {
      if ficha.None? {
        return None;
      }
      if pesosEntregues == "" || selectedEstado.None? {
        error := MissingFields;
        return None;
      }
      error := "";
      sent := Some((ficha.value.faNumero, EntregaBody(rolosEntregues, pesosEntregues, selectedEstado.value, observacoes)));
      if response.Failure? {
        error := RegisterFailed;
      } else if response.value.success {
        HandleSearch(reload);
      } else {
        error := response.value.message.Or(Str("Erro ao registar entrega")).ToText();
      }
    }
  }
}
