/**
 * The barcode-reading page of the dye house: each reading is sent to the backend and logged
 * (the newest ten, newest first), and the machine table is coloured by what each machine is
 * doing. The clock text, the random number of the fallback message and the backend's answers
 * are parameters; the 30-second refresh timer is not part of this model.
 */
module OperacoesPage {
  import opened Wrappers
  import opened Js

  /** The `detalhes` of a registered reading. */
  datatype Detalhes = Detalhes(maquinaDescricao: JsValue, faNumero: JsValue, processo: JsValue)

  /** The backend's answer to `registar-leitura` (an HTTP error is a `Failure` instead). */
  datatype LeituraResponse = LeituraResponse(success: bool, operacao: JsValue, message: JsValue, detalhes: Option<Detalhes>)

  datatype Status = Succeeded | Failed

  /** One line of the reading log. */
  datatype Leitura = Leitura(timestamp: string, operacao: string, codigo: string, status: Status, message: string)

  /**
   * `operacaoDetalhada`: the operation and the machine when a machine is named; else the
   * operation, FA and process when both are given; else the operation, or 'Operação' without one.
   */
  function OperacaoDetalhada(r: LeituraResponse): (d: string)
    ensures r.detalhes.Some? && r.detalhes.value.maquinaDescricao.Truthy() ==>
      d == r.operacao.ToText() + " - " + r.detalhes.value.maquinaDescricao.ToText()
    ensures (r.detalhes.Some? && !r.detalhes.value.maquinaDescricao.Truthy() &&
             r.detalhes.value.faNumero.Truthy() && r.detalhes.value.processo.Truthy()) ==>
      d == r.operacao.ToText() + " - FA " + r.detalhes.value.faNumero.ToText() + " Processo " + r.detalhes.value.processo.ToText()
    ensures r.detalhes.None? ==> d == r.operacao.Or(Str("Operação")).ToText()
  {
    var base := r.operacao.Or(Str("Operação")).ToText();
    if r.detalhes.None? then base
    else
      var det := r.detalhes.value;
      if det.maquinaDescricao.Truthy() then r.operacao.ToText() + " - " + det.maquinaDescricao.ToText()
      else if det.faNumero.Truthy() && det.processo.Truthy() then
        r.operacao.ToText() + " - FA " + det.faNumero.ToText() + " Processo " + det.processo.ToText()
      else base
  }

  /** The log line for a reading: the backend's answer, or 'Erro' with the error when the request failed. */
  function LeituraFor(codigo: string, timestamp: string, outcome: Result<LeituraResponse>, random: nat): (l: Leitura)
    ensures l.codigo == codigo && l.timestamp == timestamp
    ensures outcome.Failure? ==> l.operacao == "Erro" && l.status == Failed && l.message == outcome.message
    ensures outcome.Ok? ==> l.operacao == OperacaoDetalhada(outcome.value)
    ensures outcome.Ok? ==> (l.status == Succeeded <==> outcome.value.success)
    ensures outcome.Ok? && outcome.value.message.Truthy() ==> l.message == outcome.value.message.ToText()
    ensures outcome.Ok? && !outcome.value.message.Truthy() ==> l.message == "Gravação OK: " + NatToString(random)
  {
    match outcome
    case Failure(e) => Leitura(timestamp, "Erro", codigo, Failed, e)
    case Ok(r) =>
      Leitura(timestamp, OperacaoDetalhada(r), codigo, if r.success then Succeeded else Failed,
              if r.message.Truthy() then r.message.ToText() else "Gravação OK: " + NatToString(random))
  }

  const LogSize := 10

  /** `[novaLeitura, ...prev.slice(0, 9)]`. */
  function Pushed(log: seq<Leitura>, l: Leitura): (r: seq<Leitura>)
    ensures 1 <= |r| <= LogSize && r[0] == l
    ensures |log| < LogSize ==> r == [l] + log
    ensures r[1..] == log[..|r| - 1]
  {
    if |log| < LogSize then [l] + log else [l] + log[..LogSize - 1]
  }

  function Reversed<T>(xs: seq<T>): (r: seq<T>)
    ensures |r| == |xs|
    ensures forall i :: 0 <= i < |xs| ==> r[i] == xs[|xs| - 1 - i]
  {
    if xs == [] then [] else [xs[|xs| - 1]] + Reversed(xs[..|xs| - 1])
  }

  /** The log after a run of readings, starting from an empty one. */
  function LogAfter(readings: seq<Leitura>): seq<Leitura>
  {
    if readings == [] then [] else Pushed(LogAfter(readings[..|readings| - 1]), readings[|readings| - 1])
  }

  function Min(a: int, b: int): int { if a < b then a else b }

  lemma ReversedSnoc<T>(xs: seq<T>, x: T)
    ensures Reversed(xs + [x]) == [x] + Reversed(xs)
  {
    assert (xs + [x])[..|xs|] == xs;
  }

  lemma TakeOfTake<T>(xs: seq<T>, m: nat, k: nat)
    requires k <= m <= |xs|
    ensures xs[..m][..k] == xs[..k]
  {
  }

  lemma TakeOfCons<T>(x: T, xs: seq<T>, k: nat)
    requires k <= |xs|
    ensures ([x] + xs)[..k + 1] == [x] + xs[..k]
  {
  }

  /** Pushing a reading onto the first readings of a list keeps the first readings of the longer list. */
  lemma PushedKeepsLatest(rev: seq<Leitura>, l: Leitura)
    ensures Pushed(rev[..Min(LogSize, |rev|)], l) == ([l] + rev)[..Min(LogSize, |rev| + 1)]
  {
    var prev := rev[..Min(LogSize, |rev|)];
    if |rev| < LogSize {
      assert prev == rev;
      TakeOfCons(l, rev, |rev|);
      assert rev[..|rev|] == rev;
    } else {
      assert Pushed(prev, l) == [l] + prev[..LogSize - 1];
      TakeOfTake(rev, LogSize, LogSize - 1);
      TakeOfCons(l, rev, LogSize - 1);
    }
  }

  /** The log holds the last ten readings, newest first. */
  lemma {:induction false} LogAfterIsLatest(readings: seq<Leitura>)
    ensures LogAfter(readings) == Reversed(readings)[..Min(LogSize, |readings|)]
  {
    if readings != [] {
      var front, l := readings[..|readings| - 1], readings[|readings| - 1];
      assert readings == front + [l];
      LogAfterIsLatest(front);
      ReversedSnoc(front, l);
      PushedKeepsLatest(Reversed(front), l);
    }
  }

  datatype MaquinaStatus = MaquinaStatus(
    maquina: int, maquinaDescricao: string, data: string, operacaoDescricao: string, processo: string,
    faNumero: JsValue, rolos: int, pesos: int, medidas: int, clienteNome: string, artigoDescricao: string)

  const FreeClass := "bg-red-500 text-white"
  const EntradaClass := "bg-green-500 text-white"
  const SaidaClass := "bg-yellow-400 text-black"
  const IdleClass := "bg-white text-gray-900"

  /** `getMaquinaRowColor`: a free machine (FA 0) is red, then entries green, exits yellow, else white. */
  function RowColor(m: MaquinaStatus): (c: string)
    ensures m.faNumero == Number(Num(0)) ==> c == FreeClass
    ensures m.faNumero != Number(Num(0)) && Contains(m.operacaoDescricao, "Entrada") ==> c == EntradaClass
    ensures m.faNumero != Number(Num(0)) && !Contains(m.operacaoDescricao, "Entrada") && Contains(m.operacaoDescricao, "Saída") ==> c == SaidaClass
    ensures m.faNumero != Number(Num(0)) && !Contains(m.operacaoDescricao, "Entrada") && !Contains(m.operacaoDescricao, "Saída") ==> c == IdleClass
  {
    if m.faNumero == Number(Num(0)) then FreeClass
    else if Contains(m.operacaoDescricao, "Entrada") then EntradaClass
    else if Contains(m.operacaoDescricao, "Saída") then SaidaClass
    else IdleClass
  }

  /** `formatValue`: zero is shown as nothing, anything else as its number. */
  function FormatValue(v: int): (s: string)
    ensures v == 0 ==> s == ""
    ensures v != 0 ==> s == IntToString(v)
  {
    if v == 0 then "" else IntToString(v)
  }

  /** Only zero is blanked: every other value reads back as itself. */
  lemma FormatValueRoundTrip(v: int)
    ensures FormatValue(v) == "" <==> v == 0
    ensures v != 0 ==> ParseInt(FormatValue(v)) == Num(v)
  {
    if v != 0 {
      ParseIntToString(v);
    }
  }

  class OperacoesState {
    var barCode: string
    var leituras: seq<Leitura>
    var maquinas: seq<MaquinaStatus>
    var connected: bool

    constructor()
      ensures barCode == "" && leituras == [] && maquinas == [] && !connected
    {
      barCode := "";
      leituras := [];
      maquinas := [];
      connected := false;
    }

    /** `loadMaquinasStatus`: the rows (`data || []`) and connected, or not connected when the request fails. */
    method LoadMaquinasStatus(response: Result<Option<seq<MaquinaStatus>>>)
      modifies this`maquinas, this`connected
      ensures response.Ok? ==> maquinas == response.value.GetOr([]) && connected
      ensures response.Failure? ==> maquinas == old(maquinas) && !connected
    {
      if response.Ok? {
        maquinas := response.value.GetOr([]);
        connected := true;
      } else {
        connected := false;
      }
    }

    /**
     * `processBarCode`: a blank code does nothing; any other reading is logged, and after an
     * answered request the machine table is reloaded.
     */
    method ProcessBarCode(codigo: string, timestamp: string, outcome: Result<LeituraResponse>, random: nat,
                          refresh: Result<Option<seq<MaquinaStatus>>>)
      modifies this`leituras, this`maquinas, this`connected
      ensures Trim(codigo) == "" ==> leituras == old(leituras) && maquinas == old(maquinas) && connected == old(connected)
      ensures Trim(codigo) != "" ==> leituras == Pushed(old(leituras), LeituraFor(codigo, timestamp, outcome, random))
      ensures Trim(codigo) != "" && outcome.Ok? && refresh.Ok? ==> maquinas == refresh.value.GetOr([]) && connected
      ensures Trim(codigo) != "" && outcome.Ok? && refresh.Failure? ==> maquinas == old(maquinas) && !connected
      ensures outcome.Failure? ==> maquinas == old(maquinas) && connected == old(connected)
      ensures |old(leituras)| <= LogSize ==> |leituras| <= LogSize
    {
      if Trim(codigo) == "" {
        return;
      }
      leituras := Pushed(leituras, LeituraFor(codigo, timestamp, outcome, random));
      if outcome.Ok? {
        LoadMaquinasStatus(refresh);
      }
    }

    /** Enter in the barcode field: the code typed so far is processed and the field is cleared. */
    method HandleEnter(timestamp: string, outcome: Result<LeituraResponse>, random: nat,
                       refresh: Result<Option<seq<MaquinaStatus>>>)
      modifies this`barCode, this`leituras, this`maquinas, this`connected
      ensures barCode == ""
      ensures Trim(old(barCode)) != "" ==> leituras == Pushed(old(leituras), LeituraFor(old(barCode), timestamp, outcome, random))
      ensures Trim(old(barCode)) == "" ==> leituras == old(leituras)
    {
      ProcessBarCode(barCode, timestamp, outcome, random, refresh);
      barCode := "";
    }
  }
}
