/**
 * The processes page of the dye house: an FA (finishing sheet) is looked up with its process
 * lines, and a process line is added to it or removed from it. The backend's answers and the
 * user's confirmations are parameters; the request body is the one the processes controller reads.
 */
module ProcessosPage {
  import opened Wrappers
  import opened Js
  import ProcessosController
  import AuthMiddleware

  /** The part of the sheet the page uses: its number and the quantities received. */
  datatype Ficha = Ficha(faSeccao: int, faNumero: int, rolos: int, pesos: int)

  /** One process line of the sheet. */
  datatype ProcessoLine = ProcessoLine(linha: int, processo: string, codigoCor: string, rolos: int, pesos: int, obs: string)

  datatype SelectedProcesso = SelectedProcesso(id: int, descricao: string)

  /** The colour picked; a missing fabric is ''. */
  datatype SelectedCor = SelectedCor(id: int, codigoCor: string, malha: string)

  /** `{ success, data }` of a lookup and `{ success, message }` of a write. */
  datatype Lookup<T> = Lookup(success: bool, data: Option<T>)
  datatype WriteResponse = WriteResponse(success: bool, message: JsValue)

  /** The `ultimaFA` panel: the number and the date of the last sheet, unknown until loaded. */
  datatype UltimaFa = UltimaFa(numero: JsValue, data: JsValue)

  const MissingFa := "Por favor, introduza um número de FA"
  const NotFound := "Ficha não encontrada"
  const SearchFailed := "Erro ao pesquisar ficha. Tente novamente."
  const MissingProcesso := "Por favor, selecione um processo"
  const MissingQuantities := "Por favor, preencha rolos e pesos"
  const AddFailed := "Erro ao adicionar processo. Tente novamente."
  const RemoveFailed := "Erro ao remover processo. Tente novamente."
  const RemoveFichaFailed := "Erro ao remover ficha de entrada. Tente novamente."

  /**
   * The autofill of a quantity when a process is picked: a field the user has filled is kept,
   * an empty one takes the sheet's value when a sheet is loaded.
   */
  function FillIfEmpty(field: string, fromSheet: Option<int>): (r: string)
    ensures field != "" ==> r == field
    ensures field == "" && fromSheet.None? ==> r == ""
    ensures field == "" && fromSheet.Some? ==> r != "" && ParseInt(r) == Num(fromSheet.value)
  {
    if field == "" && fromSheet.Some? then
      ParseIntToString(fromSheet.value);
      IntToString(fromSheet.value)
    else field
  }

  /** Picking a process twice fills no more than picking it once. */
  lemma FillIfEmptyIdempotent(field: string, fromSheet: Option<int>)
    ensures FillIfEmpty(FillIfEmpty(field, fromSheet), fromSheet) == FillIfEmpty(field, fromSheet)
  {
  }

  /** The body of the add request; the colour is `null` when none is picked (or its id is 0, as `|| null` reads it). */
  function AddBody(p: SelectedProcesso, cor: Option<SelectedCor>, rolos: string, pesos: string,
                   observacoes: string, gramagem: string, medidas: string): (b: ProcessosController.AddRequest)
    ensures b.processoId == Number(Num(p.id))
    ensures cor.None? ==> b.corId == Null
    ensures cor.Some? && cor.value.id != 0 ==> b.corId == Number(Num(cor.value.id))
    ensures b.rolos == Str(rolos) && b.pesos == Str(pesos) && b.observacoes == Str(observacoes)
    ensures b.gramagem == Str(gramagem) && b.medidas == Str(medidas)
  {
    var corId := if cor.Some? then Number(Num(cor.value.id)) else Undefined;
    ProcessosController.AddRequest(Number(Num(p.id)), corId.Or(Null), Str(rolos), Str(pesos),
                                   Str(observacoes), Str(gramagem), Str(medidas))
  }

  /** Whatever the gramagem and medidas fields hold, the line written is the same. */
  lemma AddBodyMeasuresIgnored(user: Option<AuthMiddleware.SessionUser>, fa: string, p: SelectedProcesso, cor: Option<SelectedCor>,
                               rolos: string, pesos: string, obs: string, g1: string, m1: string, g2: string, m2: string)
    ensures ProcessosController.AddParams(user, fa, AddBody(p, cor, rolos, pesos, obs, g1, m1)) ==
            ProcessosController.AddParams(user, fa, AddBody(p, cor, rolos, pesos, obs, g2, m2))
  {
    ProcessosController.AddIgnoresMeasures(user, fa, AddBody(p, cor, rolos, pesos, obs, g1, m1), Str(g2), Str(m2));
  }

  /** The sheet-number segment of a URL built from `fichaData?.r_fa_numero`. */
  function FaSegment(ficha: Option<Ficha>): (v: JsValue)
    ensures ficha.None? ==> v.ToText() == "undefined"
    ensures ficha.Some? ==> v == Number(Num(ficha.value.faNumero))
  {
    if ficha.Some? then Number(Num(ficha.value.faNumero)) else Undefined
  }

  class ProcessosState {
    var faNumber: string
    var ficha: Option<Ficha>
    var processos: seq<ProcessoLine>
    var error: string
    var selectedProcesso: Option<SelectedProcesso>
    var selectedCor: Option<SelectedCor>
    var rolos: string
    var pesos: string
    var observacoes: string
    var gramagem: string
    var medidas: string
    var ultimaFa: UltimaFa

    constructor()
      ensures faNumber == "" && ficha == None && processos == [] && error == ""
      ensures selectedProcesso == None && selectedCor == None
      ensures rolos == "" && pesos == "" && observacoes == "" && gramagem == "" && medidas == ""
      ensures ultimaFa == UltimaFa(Null, Null)
    {
      faNumber := "";
      ficha := None;
      processos := [];
      error := "";
      selectedProcesso := None;
      selectedCor := None;
      rolos := "";
      pesos := "";
      observacoes := "";
      gramagem := "";
      medidas := "";
      ultimaFa := UltimaFa(Null, Null);
    }

    /** `loadProcessos`: the lines returned, or none when the lookup fails or finds nothing. */
    method LoadProcessos(response: Result<Lookup<seq<ProcessoLine>>>)
      modifies this`processos
      ensures response.Ok? && response.value.success && response.value.data.Some? ==> processos == response.value.data.value
      ensures !(response.Ok? && response.value.success && response.value.data.Some?) ==> processos == []
    {
      if response.Ok? && response.value.success && response.value.data.Some? {
        processos := response.value.data.value;
      } else {
        processos := [];
      }
    }

    /** The answer to a lookup of a filled-in FA number: the sheet and its lines, or an error and neither. */
    method ShowAnswer(response: Result<Lookup<Ficha>>, lines: Result<Lookup<seq<ProcessoLine>>>)
      modifies this`ficha, this`processos, this`error
      ensures response.Ok? && response.value.success && response.value.data.Some? ==>
        ficha == response.value.data && error == "" &&
        processos == (if lines.Ok? && lines.value.success && lines.value.data.Some? then lines.value.data.value else [])
      ensures response.Ok? && !(response.value.success && response.value.data.Some?) ==>
        error == NotFound && ficha == None && processos == []
      ensures response.Failure? ==> error == SearchFailed && ficha == None && processos == []
    {
      if response.Failure? {
        error := SearchFailed;
        ficha := None;
        processos := [];
      } else if response.value.success && response.value.data.Some? {
        error := "";
        ficha := response.value.data;
        LoadProcessos(lines);
      } else {
        error := NotFound;
        ficha := None;
        processos := [];
      }
    }

    /**
     * `handleSearch`: a blank FA number is an error and no request; a found sheet is shown with
     * its lines; otherwise the sheet and the lines are cleared with an error.
     */
    method HandleSearch(response: Result<Lookup<Ficha>>, lines: Result<Lookup<seq<ProcessoLine>>>)
      modifies this`ficha, this`processos, this`error
      ensures IsBlank(faNumber) ==> (error == MissingFa && ficha == old(ficha) && processos == old(processos))
      ensures !IsBlank(faNumber) && response.Ok? && response.value.success && response.value.data.Some? ==>
        ficha == response.value.data && error == "" &&
        processos == (if lines.Ok? && lines.value.success && lines.value.data.Some? then lines.value.data.value else [])
      ensures !IsBlank(faNumber) && response.Ok? && !(response.value.success && response.value.data.Some?) ==>
        error == NotFound && ficha == None && processos == []
      ensures !IsBlank(faNumber) && response.Failure? ==> error == SearchFailed && ficha == None && processos == []
    {
      if IsBlank(faNumber) {
        error := MissingFa;
      } else {
        ShowAnswer(response, lines);
      }
    }

    /** `clearForm`: the seven fields of the add form. */
    method ClearForm()
      modifies this`selectedProcesso, this`selectedCor, this`rolos, this`pesos, this`observacoes, this`gramagem, this`medidas
      ensures selectedProcesso == None && selectedCor == None
      ensures rolos == "" && pesos == "" && observacoes == "" && gramagem == "" && medidas == ""
    {
      selectedProcesso := None;
      selectedCor := None;
      rolos := "";
      pesos := "";
      observacoes := "";
      gramagem := "";
      medidas := "";
    }

    /** `handleClearScreen`: the FA number, the sheet, its lines, the error and the add form. */
    method HandleClearScreen()
      modifies this
      ensures faNumber == "" && ficha == None && processos == [] && error == ""
      ensures selectedProcesso == None && selectedCor == None
      ensures rolos == "" && pesos == "" && observacoes == "" && gramagem == "" && medidas == ""
      ensures ultimaFa == old(ultimaFa)
    {
      faNumber := "";
      ficha := None;
      processos := [];
      error := "";
      ClearForm();
    }

    /** `handleProcessoSelect`: the process is picked and the empty quantities are filled from the sheet. */
    method HandleProcessoSelect(p: SelectedProcesso)
      modifies this`selectedProcesso, this`rolos, this`pesos
      ensures selectedProcesso == Some(p)
      ensures rolos == FillIfEmpty(old(rolos), if ficha.Some? then Some(ficha.value.rolos) else None)
      ensures pesos == FillIfEmpty(old(pesos), if ficha.Some? then Some(ficha.value.pesos) else None)
    {
      selectedProcesso := Some(p);
      rolos := FillIfEmpty(rolos, if ficha.Some? then Some(ficha.value.rolos) else None);
      pesos := FillIfEmpty(pesos, if ficha.Some? then Some(ficha.value.pesos) else None);
    }

    /** `handleCorSelect`: the colour is picked, a missing fabric as ''. */
    method HandleCorSelect(id: int, codigoCor: string, malha: Option<string>)
      modifies this`selectedCor
      ensures selectedCor == Some(SelectedCor(id, codigoCor, malha.GetOr("")))
    {
      selectedCor := Some(SelectedCor(id, codigoCor, malha.GetOr("")));
    }

    /**
     * `handleAddProcesso`: a process must be picked, then both quantities filled; otherwise an
     * error and no request. A successful add clears the form and reloads the lines.
     */
    method HandleAddProcesso(response: Result<WriteResponse>, lines: Result<Lookup<seq<ProcessoLine>>>)
      returns (sent: Option<(JsValue, ProcessosController.AddRequest)>)
      modifies this`selectedProcesso, this`selectedCor, this`rolos, this`pesos, this`observacoes, this`gramagem,
               this`medidas, this`processos, this`error
      ensures old(selectedProcesso).None? ==> sent.None? && error == MissingProcesso && rolos == old(rolos) && pesos == old(pesos)
      ensures old(selectedProcesso).Some? && (old(rolos) == "" || old(pesos) == "") ==>
        sent.None? && error == MissingQuantities && selectedProcesso == old(selectedProcesso)
      ensures sent.Some? <==> old(selectedProcesso).Some? && old(rolos) != "" && old(pesos) != ""
      ensures sent.Some? ==> sent.value == (FaSegment(ficha), AddBody(old(selectedProcesso).value, old(selectedCor),
        old(rolos), old(pesos), old(observacoes), old(gramagem), old(medidas)))
      ensures sent.Some? && response.Ok? && response.value.success ==>
        selectedProcesso == None && rolos == "" && pesos == "" && error == "" &&
        processos == (if lines.Ok? && lines.value.success && lines.value.data.Some? then lines.value.data.value else [])
      ensures sent.Some? && response.Ok? && !response.value.success ==>
        error == response.value.message.Or(Str("Erro ao adicionar processo")).ToText() && rolos == old(rolos)
      ensures sent.Some? && response.Failure? ==> error == AddFailed && rolos == old(rolos)
      ensures sent.Some? && response.Ok? && response.value.success ==>
        selectedCor == None && observacoes == "" && gramagem == "" && medidas == ""
      ensures sent.None? || !(response.Ok? && response.value.success) ==>
        selectedProcesso == old(selectedProcesso) && selectedCor == old(selectedCor) &&
        rolos == old(rolos) && pesos == old(pesos) && observacoes == old(observacoes) &&
        gramagem == old(gramagem) && medidas == old(medidas) && processos == old(processos)
    {
      if selectedProcesso.None? {
        error := MissingProcesso;
        return None;
      }
      if rolos == "" || pesos == "" {
        error := MissingQuantities;
        return None;
      }
      error := "";
      sent := Some((FaSegment(ficha), AddBody(selectedProcesso.value, selectedCor, rolos, pesos, observacoes, gramagem, medidas)));
      if response.Failure? {
        error := AddFailed;
      } else if response.value.success {
        ClearForm();
        LoadProcessos(lines);
      } else {
        error := response.value.message.Or(Str("Erro ao adicionar processo")).ToText();
      }
    }

    /** `handleRemoveProcesso`: with a sheet and the user's confirmation, that line is deleted and the lines reloaded. */
    method HandleRemoveProcesso(linha: int, confirmed: bool, response: Result<WriteResponse>,
                                lines: Result<Lookup<seq<ProcessoLine>>>)
      returns (sent: Option<(int, int)>)
      modifies this`processos, this`error
      ensures sent.Some? <==> ficha.Some? && confirmed
      ensures sent.Some? ==> sent.value == (ficha.value.faNumero, linha)
      ensures sent.None? ==> processos == old(processos) && error == old(error)
      ensures sent.Some? && response.Ok? && response.value.success ==>
        processos == (if lines.Ok? && lines.value.success && lines.value.data.Some? then lines.value.data.value else [])
      ensures sent.Some? && response.Ok? && !response.value.success ==>
        error == response.value.message.Or(Str("Erro ao remover processo")).ToText() && processos == old(processos)
      ensures sent.Some? && response.Failure? ==> error == RemoveFailed && processos == old(processos)
    {
      if ficha.None? || !confirmed {
        return None;
      }
      error := "";
      sent := Some((ficha.value.faNumero, linha));
      if response.Failure? {
        error := RemoveFailed;
      } else if response.value.success {
        LoadProcessos(lines);
      } else {
        error := response.value.message.Or(Str("Erro ao remover processo")).ToText();
      }
    }

    /** `loadUltimaFA`: the panel changes only on a successful answer with data. */
    method LoadUltimaFa(response: Result<Lookup<UltimaFa>>)
      modifies this`ultimaFa
      ensures response.Ok? && response.value.success && response.value.data.Some? ==> ultimaFa == response.value.data.value
      ensures !(response.Ok? && response.value.success && response.value.data.Some?) ==> ultimaFa == old(ultimaFa)
    {
      if response.Ok? && response.value.success && response.value.data.Some? {
        ultimaFa := response.value.data.value;
      }
    }

    /**
     * `handleRemoveFichaEntrada`: with a sheet and the user's confirmation the whole sheet is
     * deleted; on success the screen is cleared (the error kept) and the last FA reloaded.
     */
    method HandleRemoveFichaEntrada(confirmed: bool, response: Result<WriteResponse>, ultima: Result<Lookup<UltimaFa>>)
      returns (sent: Option<int>)
      modifies this
      ensures sent.Some? <==> old(ficha).Some? && confirmed
      ensures sent.Some? ==> sent.value == old(ficha).value.faNumero
      ensures sent.None? ==> ficha == old(ficha) && processos == old(processos) && error == old(error) && faNumber == old(faNumber)
      ensures sent.Some? && response.Ok? && response.value.success ==>
        ficha == None && processos == [] && faNumber == "" && selectedProcesso == None && rolos == "" && pesos == "" &&
        error == "" &&
        ultimaFa == (if ultima.Ok? && ultima.value.success && ultima.value.data.Some? then ultima.value.data.value else old(ultimaFa))
      ensures sent.Some? && response.Ok? && !response.value.success ==>
        error == response.value.message.Or(Str("Erro ao remover ficha de entrada")).ToText() && ficha == old(ficha)
      ensures sent.Some? && response.Failure? ==> error == RemoveFichaFailed && ficha == old(ficha)
    {
      if ficha.None? || !confirmed {
        return None;
      }
      error := "";
      sent := Some(ficha.value.faNumero);
      if response.Failure? {
        error := RemoveFichaFailed;
      } else if response.value.success {
        ficha := None;
        processos := [];
        ClearForm();
        faNumber := "";
        LoadUltimaFa(ultima);
      } else {
        error := response.value.message.Or(Str("Erro ao remover ficha de entrada")).ToText();
      }
    }
  }
}
