/**
 * FichasAcabamentoController.criar: validates a new finishing sheet, sums its quantities, maps
 * the items and hands them to the service. Date parsing is the `toDate` parameter and the
 * current time is `now`.
 */
module FaController {
  import opened Wrappers
  import opened Js
  import opened Http
  import opened Sql
  import opened FaService

  /** One item of the request body, as sent. */
  datatype ItemRequest = ItemRequest(movRecSeccao: JsValue, movRecData: JsValue, movRecLinha: JsValue, rolos: JsValue, pesos: JsValue)

  /** The body; `itens` is None when it is not an array. */
  datatype CriarRequest = CriarRequest(seccao: JsValue, data: JsValue, estado: JsValue, obs: JsValue, itens: Option<seq<ItemRequest>>)

  /** `!seccao || !Array.isArray(itens) || itens.length === 0` is the refusal. */
  predicate ValidRequest(b: CriarRequest)
  {
    b.seccao.Truthy() && b.itens.Some? && |b.itens.value| > 0
  }

  /** `itens.reduce((s, i) => s + (Number(i.rolos) || 0), 0)`. */
  function TotalRolos(items: seq<ItemRequest>): int
  {
    if items == [] then 0 else TotalRolos(items[..|items| - 1]) + QuantityOrZero(items[|items| - 1].rolos)
  }

  /** `itens.reduce((s, i) => s + (Number(i.pesos) || 0), 0)`. */
  function TotalPesos(items: seq<ItemRequest>): int
  {
    if items == [] then 0 else TotalPesos(items[..|items| - 1]) + QuantityOrZero(items[|items| - 1].pesos)
  }

  /** One service item per request item: a non-numeric quantity becomes 0. */
  function MapItem(i: ItemRequest, toDate: JsValue -> int): (it: FaItem)
    ensures it.movRecSeccao == i.movRecSeccao && it.movRecLinha == i.movRecLinha
    ensures it.movRecData == toDate(i.movRecData)
    ensures i.rolos.AsNumber().NaN? ==> it.rolos == 0
    ensures i.pesos.AsNumber().NaN? ==> it.pesos == 0
  {
    FaItem(i.movRecSeccao, toDate(i.movRecData), i.movRecLinha, QuantityOrZero(i.rolos), QuantityOrZero(i.pesos))
  }

  /** `itens.map(...)`: same length, same order. */
  function MapItems(items: seq<ItemRequest>, toDate: JsValue -> int): (m: seq<FaItem>)
    ensures |m| == |items|
    ensures forall k :: 0 <= k < |items| ==> m[k] == MapItem(items[k], toDate)
  {
    seq(|items|, k requires 0 <= k < |items| => MapItem(items[k], toDate))
  }

  function SumRolos(m: seq<FaItem>): int
  {
    if m == [] then 0 else SumRolos(m[..|m| - 1]) + m[|m| - 1].rolos
  }

  function SumPesos(m: seq<FaItem>): int
  {
    if m == [] then 0 else SumPesos(m[..|m| - 1]) + m[|m| - 1].pesos
  }

  /** The header's totals are the sums of the quantities the mapped items carry. */
  lemma {:induction false} TotalsMatchItems(items: seq<ItemRequest>, toDate: JsValue -> int)
    ensures TotalRolos(items) == SumRolos(MapItems(items, toDate))
    ensures TotalPesos(items) == SumPesos(MapItems(items, toDate))
  {
    if items != [] {
      var front := items[..|items| - 1];
      TotalsMatchItems(front, toDate);
      assert MapItems(items, toDate)[..|items| - 1] == MapItems(front, toDate);
    }
  }

  /** `data ? new Date(data) : new Date()`. */
  function DataFa(data: JsValue, now: int, toDate: JsValue -> int): (t: int)
    ensures data.Truthy() ==> t == toDate(data)
    ensures !data.Truthy() ==> t == now
  {
    if data.Truthy() then toDate(data) else now
  }

  /** `x ?? d`: only undefined and null are replaced. */
  function Nullish(x: JsValue, d: JsValue): (r: JsValue)
    ensures x.Undefined? || x.Null? ==> r == d
    ensures !(x.Undefined? || x.Null?) ==> r == x
  {
    if x.Undefined? || x.Null? then d else x
  }

  /**
   * What a created sheet means: the header was written with the totals of the mapped items and
   * returned the sheet's number, and one movement call per mapped item followed, in order.
   */
  predicate SheetWritten(
    b: CriarRequest, now: int, toDate: JsValue -> int,
    gravaFicha: seq<Param> -> Result<seq<Option<int>>>, created: FaCreated, calls: seq<seq<Param>>)
    requires ValidRequest(b)
  {
    var m := MapItems(b.itens.value, toDate);
    var data := DataFa(b.data, now, toDate);
    var h := gravaFicha(HeaderParams(b.seccao, data, SumRolos(m), SumPesos(m),
                                     Nullish(b.estado, Number(Num(1))), Nullish(b.obs, Str(""))));
    created.linhas == |m| && calls == MovementCalls(b.seccao, data, created.faNumero, m) &&
    h.Ok? && created.faNumero == FaNumeroOf(h.value) != 0
  }

  /** The service's calls all succeed: the header returns a sheet number other than 0 and every movement is written. */
  predicate ServiceSucceeds(
    b: CriarRequest, now: int, toDate: JsValue -> int,
    gravaFicha: seq<Param> -> Result<seq<Option<int>>>, gravaMov: seq<Param> -> Result<()>)
    requires ValidRequest(b)
  {
    var m := MapItems(b.itens.value, toDate);
    var data := DataFa(b.data, now, toDate);
    var h := gravaFicha(HeaderParams(b.seccao, data, SumRolos(m), SumPesos(m),
                                     Nullish(b.estado, Number(Num(1))), Nullish(b.obs, Str(""))));
    h.Ok? && FaNumeroOf(h.value) != 0 &&
    forall c :: c in MovementCalls(b.seccao, data, FaNumeroOf(h.value), m) ==> gravaMov(c).Ok?
  }

  /**
   * `criar`: 400 for an invalid body, before the service is reached; otherwise the service runs
   * with the totals, state 1 and '' unless given, and the mapped items; its failure is 500.
   */
  method Criar(
    b: CriarRequest, now: int, toDate: JsValue -> int,
    gravaFicha: seq<Param> -> Result<seq<Option<int>>>,
    gravaMov: seq<Param> -> Result<()>)
    returns (r: Reply<FaCreated>, calls: seq<seq<Param>>)
    ensures !ValidRequest(b) ==> r == Error(400, "Dados inválidos") && calls == []
    ensures r.Success? ==> r.status == 200 && ValidRequest(b) && SheetWritten(b, now, toDate, gravaFicha, r.data, calls)
    ensures r.Error? && ValidRequest(b) ==> r == Error(500, "Erro ao criar ficha de acabamento")
    ensures ValidRequest(b) ==> (r.Success? <==> ServiceSucceeds(b, now, toDate, gravaFicha, gravaMov))
  {
    if !ValidRequest(b) {
      return Error(400, "Dados inválidos"), [];
    }
    var itens := b.itens.value;
    var dataFa := DataFa(b.data, now, toDate);
    var totalRolos := TotalRolos(itens);
    var totalPesos := TotalPesos(itens);
    var mapped := MapItems(itens, toDate);
    TotalsMatchItems(itens, toDate);
    var result;
    result, calls := CriarFichaEntrada(
      b.seccao, dataFa, totalRolos, totalPesos, Nullish(b.estado, Number(Num(1))), Nullish(b.obs, Str("")),
      mapped, gravaFicha, gravaMov);
    if result.Failure? {
      return Error(500, "Erro ao criar ficha de acabamento"), calls;
    }
    r := Success(200, result.value);
  }
}
