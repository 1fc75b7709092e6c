/**
 * The machine-reading endpoint of the dyeing floor (`registrarLeitura`): a barcode
 * "operacao.codigo" selects a machine (operation 1), a barcode
 * "operacao.fa_numero.processo" records a process step on a finishing sheet.
 * The stored procedure Insert_Maq_Leituras and the description lookups are parameters.
 */
module Operacoes {
  import opened Wrappers
  import opened Js

  const DefaultTerminal := "WEB-LEITOR"

  /** op_SelecaoMaquina: the operation code that selects a machine. */
  const MachineSelection := 1

  /** The arguments of `Insert_Maq_Leituras(operacao, terminal, fa_numero, processo, maquina)`. */
  datatype ProcedureCall = InsertMaqLeituras(
    operacao: JsNumber, terminal: JsValue, faNumero: JsNumber, processo: JsNumber, maquina: JsNumber)

  /** How a barcode is handled before the database is reached. */
  datatype Parsed = Invalid(status: int, error: string) | Dispatch(call: ProcedureCall)

  datatype Detalhes =
    | MachineDetails(maquina: JsNumber, maquinaDescricao: string)
    | ProcessDetails(faNumero: JsNumber, processo: JsNumber)

  datatype LeituraResponse =
    | Rejected(status: int, error: string)
    | Recorded(success: bool, message: string, operacao: string, detalhes: Detalhes, data: seq<int>)

  /** `terminal = 'WEB-LEITOR'` in the destructuring: the default replaces `undefined` only. */
  function TerminalOf(terminal: JsValue): (t: JsValue)
    ensures terminal == Undefined ==> t == Str(DefaultTerminal)
    ensures terminal != Undefined ==> t == terminal
    ensures t != Undefined
  {
    if terminal.Undefined? then Str(DefaultTerminal) else terminal
  }

  /** The validation and dispatch decision of `registrarLeitura`. */
  function ParseCodigo(codigo: JsValue, terminal: JsValue): Parsed
  {
    if !codigo.Truthy() then Invalid(400, "Código completo é obrigatório")
    else if !codigo.Str? then Invalid(500, "Erro ao registrar leitura")  // `split` is not a function
    else
      var partes := Split(codigo.s, '.');
      if |partes| < 2 then Invalid(400, "Código de barras inválido")
      else
        var operacao := ParseInt(partes[0]);
        var restoCodigo := Join(partes[1..], ".");
        if operacao.AtMost(0) then Invalid(400, "Operação inválida")
        else if operacao == Num(MachineSelection) then
          Dispatch(InsertMaqLeituras(operacao, TerminalOf(terminal), Num(0), Num(0), ParseInt(restoCodigo)))
        else if |partes| < 3 then Invalid(400, "Código de processo inválido")
        else
          Dispatch(InsertMaqLeituras(operacao, TerminalOf(terminal), ParseInt(partes[1]), ParseInt(partes[2]), Num(0)))
  }

  /** `results.length > 0 ? results[0].R_N_REGISTO : 0`. */
  function NRegisto(rows: seq<int>): (n: int)
    ensures rows == [] ==> n == 0
    ensures rows != [] ==> n == rows[0]
  {
    if |rows| > 0 then rows[0] else 0
  }

  function Message(nRegisto: int): (m: string)
    ensures nRegisto > 0 ==> m == "Gravação OK: " + IntToString(nRegisto)
    ensures nRegisto <= 0 ==> m == "Erro OP: " + IntToString(nRegisto)
  {
    if nRegisto > 0 then "Gravação OK: " + IntToString(nRegisto) else "Erro OP: " + IntToString(nRegisto)
  }

  /**
   * The lookup both description helpers share: the first DESCRICAO, or the prefix followed by
   * the number when the lookup fails or finds no row.
   */
  function DescricaoOr(prefix: string, n: JsNumber, rows: Result<seq<string>>): (d: string)
    ensures rows.Ok? && rows.value != [] ==> d == rows.value[0]
    ensures !(rows.Ok? && rows.value != []) ==> d == prefix + n.ToText()
  {
    if rows.Ok? && |rows.value| > 0 then rows.value[0] else prefix + n.ToText()
  }

  /** `getOperacaoDescricao`: the first DESCRICAO, or "Operação n" when there is no row or the lookup fails. */
  function OperacaoDescricao(operacao: JsNumber, rows: Result<seq<string>>): (d: string)
    ensures rows.Ok? && rows.value != [] ==> d == rows.value[0]
    ensures !(rows.Ok? && rows.value != []) ==> d == "Operação " + operacao.ToText()
  {
    DescricaoOr("Operação ", operacao, rows)
  }

  /** `getMaquinaDescricao`: the first DESCRICAO, or "Máquina n" when there is no row or the lookup fails. */
  function MaquinaDescricao(maquina: JsNumber, rows: Result<seq<string>>): (d: string)
    ensures rows.Ok? && rows.value != [] ==> d == rows.value[0]
    ensures !(rows.Ok? && rows.value != []) ==> d == "Máquina " + maquina.ToText()
  {
    DescricaoOr("Máquina ", maquina, rows)
  }

  /** The fallback description names the operation: its number reads back from the text. */
  lemma FallbackNamesOperacao(n: nat, rows: Result<seq<string>>)
    requires !(rows.Ok? && rows.value != [])
    ensures var d := OperacaoDescricao(Num(n), rows);
      StartsWith(d, "Operação ") && ParseInt(d[|"Operação "|..]) == Num(n)
  {
    var d := OperacaoDescricao(Num(n), rows);
    assert d[|"Operação "|..] == NatToString(n);
    ParseNatToString(n);
  }

  /** The reply the procedure's rows produce, once the call has been issued. */
  predicate RecordedReply(resp: LeituraResponse, results: Result<seq<int>>)
  {
    (results.Failure? ==> resp == Rejected(500, "Erro ao registrar leitura")) &&
    (results.Ok? ==>
      var n := NRegisto(results.value);
      resp.Recorded? && resp.success == (n > 0) && resp.message == Message(n) && resp.data == results.value)
  }

  /**
   * The `detalhes` of a recorded reading: the machine and its description for operation 1, the
   * sheet number and process otherwise.
   */
  function DetalhesOf(call: ProcedureCall, maquinas: JsNumber -> Result<seq<string>>): (d: Detalhes)
    ensures call.operacao == Num(MachineSelection) ==>
      d.MachineDetails? && d.maquina == call.maquina && d.maquinaDescricao == MaquinaDescricao(call.maquina, maquinas(call.maquina))
    ensures call.operacao != Num(MachineSelection) ==>
      d.ProcessDetails? && d.faNumero == call.faNumero && d.processo == call.processo
  {
    if call.operacao == Num(MachineSelection) then MachineDetails(call.maquina, MaquinaDescricao(call.maquina, maquinas(call.maquina)))
    else ProcessDetails(call.faNumero, call.processo)
  }

  /** Operation 1: `Insert_Maq_Leituras(1, terminal, 0, 0, maquina)` and the machine's description. */
  method LeituraMaquina(
    operacao: JsNumber, term: JsValue, restoCodigo: string,
    insert: ProcedureCall -> Result<seq<int>>,
    operacoes: JsNumber -> Result<seq<string>>,
    maquinas: JsNumber -> Result<seq<string>>)
    returns (resp: LeituraResponse, call: ProcedureCall)
    ensures call == InsertMaqLeituras(operacao, term, Num(0), Num(0), ParseInt(restoCodigo))
    ensures RecordedReply(resp, insert(call))
    ensures resp.Recorded? ==>
      resp.operacao == OperacaoDescricao(Num(1), operacoes(Num(1))) &&
      resp.detalhes == MachineDetails(call.maquina, MaquinaDescricao(call.maquina, maquinas(call.maquina)))
  {
    var maquina := ParseInt(restoCodigo);
    call := InsertMaqLeituras(operacao, term, Num(0), Num(0), maquina);
    var results := insert(call);
    if results.Failure? {
      return Rejected(500, "Erro ao registrar leitura"), call;
    }
    var nRegisto := NRegisto(results.value);
    var message := Message(nRegisto);
    var operacaoDescricao := OperacaoDescricao(Num(1), operacoes(Num(1)));
    var maquinaDescricao := MaquinaDescricao(maquina, maquinas(maquina));
    resp := Recorded(nRegisto > 0, message, operacaoDescricao, MachineDetails(maquina, maquinaDescricao), results.value);
  }

  /** Other operations: `Insert_Maq_Leituras(op, terminal, fa_numero, processo, 0)`. */
  method LeituraProcesso(
    operacao: JsNumber, term: JsValue, faNumero: JsNumber, processo: JsNumber,
    insert: ProcedureCall -> Result<seq<int>>,
    operacoes: JsNumber -> Result<seq<string>>)
    returns (resp: LeituraResponse, call: ProcedureCall)
    ensures call == InsertMaqLeituras(operacao, term, faNumero, processo, Num(0))
    ensures RecordedReply(resp, insert(call))
    ensures resp.Recorded? ==>
      resp.operacao == OperacaoDescricao(operacao, operacoes(operacao)) &&
      resp.detalhes == ProcessDetails(faNumero, processo)
  {
    call := InsertMaqLeituras(operacao, term, faNumero, processo, Num(0));
    var results := insert(call);
    if results.Failure? {
      return Rejected(500, "Erro ao registrar leitura"), call;
    }
    var nRegisto := NRegisto(results.value);
    var message := Message(nRegisto);
    var operacaoDescricao := OperacaoDescricao(operacao, operacoes(operacao));
    resp := Recorded(nRegisto > 0, message, operacaoDescricao, ProcessDetails(faNumero, processo), results.value);
  }

  /**
   * `registrarLeitura`: validates the barcode, assigns `fa_numero`, `processo` and `maquina`
   * step by step, calls the procedure and builds the reply. `calls` lists the procedure calls issued.
   */
  method RegistrarLeitura(
    codigo: JsValue, terminal: JsValue,
    insert: ProcedureCall -> Result<seq<int>>,
    operacoes: JsNumber -> Result<seq<string>>,
    maquinas: JsNumber -> Result<seq<string>>)
    returns (resp: LeituraResponse, calls: seq<ProcedureCall>)
    ensures var p := ParseCodigo(codigo, terminal);
      p.Invalid? ==> calls == [] && resp == Rejected(p.status, p.error)
    ensures var p := ParseCodigo(codigo, terminal);
      p.Dispatch? ==> calls == [p.call] && RecordedReply(resp, insert(p.call))
    ensures var p := ParseCodigo(codigo, terminal);
      p.Dispatch? && resp.Recorded? ==>
        resp.operacao == OperacaoDescricao(p.call.operacao, operacoes(p.call.operacao)) &&
        resp.detalhes == DetalhesOf(p.call, maquinas)
  {
    calls := [];
    if !codigo.Truthy() {
      return Rejected(400, "Código completo é obrigatório"), calls;
    }
    if !codigo.Str? {
      return Rejected(500, "Erro ao registrar leitura"), calls;
    }
    var partes := Split(codigo.s, '.');
    if |partes| < 2 {
      return Rejected(400, "Código de barras inválido"), calls;
    }
    var operacao := ParseInt(partes[0]);
    var restoCodigo := Join(partes[1..], ".");
    if operacao.AtMost(0) {
      return Rejected(400, "Operação inválida"), calls;
    }
    var term := TerminalOf(terminal);
    var faNumero := Num(0);
    var processo := Num(0);
    var call;
    if operacao == Num(MachineSelection) {
      resp, call := LeituraMaquina(operacao, term, restoCodigo, insert, operacoes, maquinas);
    } else {
      if |partes| < 3 {
        return Rejected(400, "Código de processo inválido"), calls;
      }
      faNumero := ParseInt(partes[1]);
      processo := ParseInt(partes[2]);
      resp, call := LeituraProcesso(operacao, term, faNumero, processo, insert, operacoes);
    }
    calls := calls + [call];
  }

  // ---------------------------------------------------------------- properties of the parse

  /** A missing or empty code is refused with 400 before anything is recorded. */
  lemma MissingCodeRefused(codigo: JsValue, terminal: JsValue)
    requires !codigo.Truthy()
    ensures ParseCodigo(codigo, terminal) == Invalid(400, "Código completo é obrigatório")
  {
  }

  /** A non-empty code without any '.' has fewer than two parts and is refused. */
  lemma NoSeparatorRefused(s: string, terminal: JsValue)
    requires s != "" && '.' !in s
    ensures ParseCodigo(Str(s), terminal) == Invalid(400, "Código de barras inválido")
  {
    SplitWithoutSep(s, '.');
  }

  /** A leading number that parses to zero or less is refused. */
  lemma NonPositiveOperacaoRefused(s: string, k: nat, terminal: JsValue)
    requires k < |s| && s[k] == '.' && '.' !in s[..k]
    requires ParseInt(s[..k]).AtMost(0)
    ensures ParseCodigo(Str(s), terminal) == Invalid(400, "Operação inválida")
  {
    SplitFirst(s, '.', k);
  }

  /** Three parts whose first parses to an operation other than 0, negative or 1 dispatch a process step. */
  lemma ProcessDispatch(s: string, terminal: JsValue)
    requires s != "" && |Split(s, '.')| >= 3
    requires var op := ParseInt(Split(s, '.')[0]); !op.AtMost(0) && op != Num(1)
    ensures var partes := Split(s, '.');
      ParseCodigo(Str(s), terminal)
        == Dispatch(InsertMaqLeituras(ParseInt(partes[0]), TerminalOf(terminal), ParseInt(partes[1]), ParseInt(partes[2]), Num(0)))
  {
  }

  /**
   * A NaN operation code is not caught by `operacao <= 0`: a non-numeric first part (such as "A"
   * in "A.5.7") still reaches the procedure, with NaN as the operation.
   */
  lemma NaNOperacaoDispatched(a: string, fa: nat, p: nat, terminal: JsValue)
    requires '.' !in a && ParseInt(a) == NaN
    ensures ParseCodigo(Str(a + "." + NatToString(fa) + "." + NatToString(p)), terminal)
      == Dispatch(InsertMaqLeituras(NaN, TerminalOf(terminal), Num(fa), Num(p), Num(0)))
  {
    var b, c := NatToString(fa), NatToString(p);
    var s := a + "." + b + "." + c;
    ThreeParts(a, b, c);
    ParseNatToString(fa);
    ParseNatToString(p);
    ProcessDispatch(s, terminal);
  }

  /** "a.b.c" splits into a, b and c when none of them holds a '.'. */
  lemma ThreeParts(a: string, b: string, c: string)
    requires '.' !in a && '.' !in b && '.' !in c
    ensures Split(a + "." + b + "." + c, '.') == [a, b, c]
  {
    assert a + "." + b + "." + c == a + ['.'] + (b + ['.'] + c);
    SplitCons(a, '.', b + ['.'] + c);
    SplitCons(b, '.', c);
    SplitWithoutSep(c, '.');
  }

  /**
   * Operation 1: the machine is `parseInt` of everything after the first '.', and the procedure
   * receives fa_numero = processo = 0.
   */
  lemma MachineIsRestOfCode(s: string, k: nat, terminal: JsValue)
    requires k < |s| && s[k] == '.' && '.' !in s[..k]
    requires ParseInt(s[..k]) == Num(1)
    ensures ParseCodigo(Str(s), terminal)
      == Dispatch(InsertMaqLeituras(Num(1), TerminalOf(terminal), Num(0), Num(0), ParseInt(s[k + 1..])))
  {
    SplitFirst(s, '.', k);
    JoinSplit(s[k + 1..], '.');
  }

  /** Other operations: fewer than three parts is refused with "Código de processo inválido". */
  lemma ProcessCodeNeedsThreeParts(s: string, k: nat, terminal: JsValue)
    requires k < |s| && s[k] == '.' && '.' !in s[..k] && '.' !in s[k + 1..]
    requires !ParseInt(s[..k]).AtMost(0) && ParseInt(s[..k]) != Num(1)
    ensures ParseCodigo(Str(s), terminal) == Invalid(400, "Código de processo inválido")
  {
    SplitFirst(s, '.', k);
    SplitWithoutSep(s[k + 1..], '.');
  }

  /** Encoding a machine selection as "1.m" and reading it back gives machine m. */
  lemma MachineBarcodeRoundTrip(m: nat, terminal: JsValue)
    ensures ParseCodigo(Str("1." + NatToString(m)), terminal)
      == Dispatch(InsertMaqLeituras(Num(1), TerminalOf(terminal), Num(0), Num(0), Num(m)))
  {
    var s := "1." + NatToString(m);
    assert s[..1] == "1" && s[2..] == NatToString(m);
    ParseNatToString(1);
    MachineIsRestOfCode(s, 1, terminal);
    ParseNatToString(m);
  }

  lemma NumeralHasNoDot(n: nat)
    ensures '.' !in NatToString(n)
  {
  }

  /** Encoding "op.fa.p" for an operation other than 1 and reading it back gives op, fa and p. */
  lemma ProcessBarcodeRoundTrip(op: nat, fa: nat, p: nat, terminal: JsValue)
    requires op > 1
    ensures ParseCodigo(Str(NatToString(op) + "." + NatToString(fa) + "." + NatToString(p)), terminal)
      == Dispatch(InsertMaqLeituras(Num(op), TerminalOf(terminal), Num(fa), Num(p), Num(0)))
  {
    var a, b, c := NatToString(op), NatToString(fa), NatToString(p);
    NumeralHasNoDot(op);
    NumeralHasNoDot(fa);
    NumeralHasNoDot(p);
    var s := a + "." + b + "." + c;
    ThreeParts(a, b, c);
    var partes := Split(s, '.');
    assert partes[0] == a && partes[1] == b && partes[2] == c;
    ParseNatToString(op);
    ParseNatToString(fa);
    ParseNatToString(p);
    assert s != "" by {
      assert |s| > |a|;
    }
    ProcessDispatch(s, terminal);
  }
}
