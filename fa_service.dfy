/**
 * FichasAcabamentoService: a finishing sheet (FA) is written as its header, through
 * Grava_Ficha_Entrada, and then one reception movement per item, through
 * Grava_FA_Mov_Recepcao. The two stored procedures are the `gravaFicha` / `gravaMov` parameters;
 * dates are timestamps.
 */
module FaService {
  import opened Wrappers
  import opened Js
  import opened Sql

  /** FichaAcabamentoItem: the reception movement (section, date, line) and the quantities taken from it. */
  datatype FaItem = FaItem(movRecSeccao: JsValue, movRecData: int, movRecLinha: JsValue, rolos: int, pesos: int)

  /** What `criarFichaEntrada` returns: the sheet's number and the movements written. */
  datatype FaCreated = FaCreated(faNumero: int, linhas: nat)

  const HeaderFailed := "Falha ao gravar ficha de entrada"

  /** The arguments of `Grava_Ficha_Entrada(seccao, data, rolos, pesos, estado, obs)`. */
  function HeaderParams(seccao: JsValue, data: int, totalRolos: int, totalPesos: int, estado: JsValue, obs: JsValue)
    : (ps: seq<Param>)
    ensures |ps| == 6 && ps[0] == PValue(seccao) && ps[1] == PDate(data)
    ensures ps[2] == PInt(totalRolos) && ps[3] == PInt(totalPesos) && ps[4] == PValue(estado)
    ensures ps[5] == PValue(obs.Or(Str("")))
  {
    [PValue(seccao), PDate(data), PInt(totalRolos), PInt(totalPesos), PValue(estado), PValue(obs.Or(Str("")))]
  }

  /** `faRes?.[0]?.R_FA_NUMERO ?? 0`: the number the procedure returned, 0 when it returned none. */
  function FaNumeroOf(rows: seq<Option<int>>): (n: int)
    ensures rows != [] && rows[0].Some? ==> n == rows[0].value
    ensures rows == [] || rows[0].None? ==> n == 0
  {
    if |rows| > 0 then rows[0].GetOr(0) else 0
  }

  /**
   * The arguments of `Grava_FA_Mov_Recepcao` for one item: the sheet's section, date and number,
   * line 0 (the procedure numbers the line), then the movement and its quantities.
   */
  function MovementParams(seccao: JsValue, data: int, faNumero: int, it: FaItem): (ps: seq<Param>)
    ensures |ps| == 9 && ps[..4] == [PValue(seccao), PDate(data), PInt(faNumero), PInt(0)]
    ensures ps[4..] == [PValue(it.movRecSeccao), PDate(it.movRecData), PValue(it.movRecLinha), PInt(it.rolos), PInt(it.pesos)]
  {
    [PValue(seccao), PDate(data), PInt(faNumero), PInt(0),
     PValue(it.movRecSeccao), PDate(it.movRecData), PValue(it.movRecLinha), PInt(it.rolos), PInt(it.pesos)]
  }

  /** The movement calls for a list of items, one per item in item order. */
  function MovementCalls(seccao: JsValue, data: int, faNumero: int, items: seq<FaItem>): (calls: seq<seq<Param>>)
    ensures |calls| == |items|
    ensures forall i :: 0 <= i < |items| ==> calls[i] == MovementParams(seccao, data, faNumero, items[i])
  {
    seq(|items|, i requires 0 <= i < |items| => MovementParams(seccao, data, faNumero, items[i]))
  }

  /** Every movement of a sheet names that sheet: its section, date and number, with line 0. */
  lemma MovementsNameTheSheet(seccao: JsValue, data: int, faNumero: int, items: seq<FaItem>, i: nat)
    requires i < |items|
    ensures var c := MovementCalls(seccao, data, faNumero, items)[i];
      c[0] == PValue(seccao) && c[1] == PDate(data) && c[2] == PInt(faNumero) && c[3] == PInt(0)
  {
    var c := MovementParams(seccao, data, faNumero, items[i]);
    assert c[..4][2] == c[2];
  }

  /**
   * `criarFichaEntrada`: the header first; a failed call or a missing or zero number throws before
   * any movement is written; then one movement call per item, counting them in `linhas`.
   * `calls` lists the movement calls issued; a failing movement call ends the run with its error.
   */
  method CriarFichaEntrada(
    seccao: JsValue, data: int, totalRolos: int, totalPesos: int, estado: JsValue, obs: JsValue,
    items: seq<FaItem>,
    gravaFicha: seq<Param> -> Result<seq<Option<int>>>,
    gravaMov: seq<Param> -> Result<()>)
    returns (r: Result<FaCreated>, calls: seq<seq<Param>>)
    ensures var h := gravaFicha(HeaderParams(seccao, data, totalRolos, totalPesos, estado, obs));
      h.Failure? ==> r == Failure(h.message) && calls == []
    ensures var h := gravaFicha(HeaderParams(seccao, data, totalRolos, totalPesos, estado, obs));
      h.Ok? && FaNumeroOf(h.value) == 0 ==> r == Failure(HeaderFailed) && calls == []
    ensures r.Ok? ==>
      var h := gravaFicha(HeaderParams(seccao, data, totalRolos, totalPesos, estado, obs));
      h.Ok? && r.value.faNumero == FaNumeroOf(h.value) != 0 &&
      calls == MovementCalls(seccao, data, r.value.faNumero, items) && r.value.linhas == |items|
    ensures r.Ok? <==>
      var h := gravaFicha(HeaderParams(seccao, data, totalRolos, totalPesos, estado, obs));
      h.Ok? && FaNumeroOf(h.value) != 0 &&
      forall c :: c in MovementCalls(seccao, data, FaNumeroOf(h.value), items) ==> gravaMov(c).Ok?
  {
    calls := [];
    var faRes := gravaFicha(HeaderParams(seccao, data, totalRolos, totalPesos, estado, obs));
    if faRes.Failure? {
      return Failure(faRes.message), calls;
    }
    var faNumero := FaNumeroOf(faRes.value);
    if faNumero == 0 {
      return Failure(HeaderFailed), calls;
    }
    ghost var all := MovementCalls(seccao, data, faNumero, items);
    var linhas := 0;
    while linhas < |items|
      invariant 0 <= linhas <= |items|
      invariant calls == all[..linhas]
      invariant forall c :: c in calls ==> gravaMov(c).Ok?
    {
      var c := MovementParams(seccao, data, faNumero, items[linhas]);
      calls := calls + [c];
      var res := gravaMov(c);
      if res.Failure? {
        assert c in all;
        return Failure(res.message), calls;
      }
      linhas := linhas + 1;
    }
    assert calls == all;
    r := Ok(FaCreated(faNumero, linhas));
  }
}
