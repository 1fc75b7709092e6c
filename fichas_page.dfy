/**
 * The finishing-sheet page: the reception movements picked for a new sheet, the client they
 * belong to and the list page, with the copy kept in the browser's storage. The two prompts are
 * the `rolosAnswer` / `pesosAnswer` parameters (None when cancelled); the list reload that
 * follows some changes is a network call and is not part of this model.
 */
module FichasAcabamentoPage {
  import opened Wrappers
  import opened Js
  import SearchModal

  /** A reception movement as the list returns it; `None` is a missing (null) quantity. */
  datatype Mov = Mov(
    seccao: int, data: string, linha: int, cliente: int, nome: string, codigo: int, descricao: string,
    composicao: int, composicaoDescricao: string,
    rolos: Option<int>, pesos: Option<int>, rolosEntregues: Option<int>, pesosEntregues: Option<int>)

  /** A picked movement with the quantities chosen for the sheet. */
  datatype SelItem = SelItem(mov: Mov, selRolos: int, selPesos: int)

  /** Movements are the same line when section, date and line agree. */
  predicate SameLine(a: Mov, b: Mov)
  {
    a.seccao == b.seccao && a.data == b.data && a.linha == b.linha
  }

  predicate Picked(selected: seq<SelItem>, mov: Mov)
  {
    exists i :: 0 <= i < |selected| && SameLine(selected[i].mov, mov)
  }

  /** No line is picked twice. */
  predicate UniqueLines(selected: seq<SelItem>)
  {
    forall i, j :: 0 <= i < j < |selected| ==> !SameLine(selected[i].mov, selected[j].mov)
  }

  /** `Math.max(0, (total ?? 0) - (delivered ?? 0))`. */
  function Pending(total: Option<int>, delivered: Option<int>): (p: nat)
    ensures p >= total.GetOr(0) - delivered.GetOr(0)
    ensures p == 0 || p == total.GetOr(0) - delivered.GetOr(0)
  {
    if total.GetOr(0) - delivered.GetOr(0) > 0 then total.GetOr(0) - delivered.GetOr(0) else 0
  }

  /** A prompt answer is accepted when `Number(answer)` is finite and between 0 and the pending amount. */
  function Quantity(answer: string, pending: nat): (q: Option<int>)
    ensures q.Some? <==> ToNumber(answer).Num? && 0 <= ToNumber(answer).n <= pending
    ensures q.Some? ==> q.value == ToNumber(answer).n && 0 <= q.value <= pending
  {
    var x := ToNumber(answer);
    if x.Num? && 0 <= x.n <= pending then Some(x.n) else None
  }

  /** What `addToFicha` reports. */
  datatype AddOutcome = AlreadyPicked | Cancelled | InvalidRolos | InvalidPesos | Added

  /** The selection without the movement's line, the others kept in order. */
  function Without(selected: seq<SelItem>, mov: Mov): (rest: seq<SelItem>)
    ensures |rest| <= |selected|
    ensures forall x :: x in rest <==> x in selected && !SameLine(x.mov, mov)
  {
    if selected == [] then []
    else
      var front := Without(selected[..|selected| - 1], mov);
      var last := selected[|selected| - 1];
      assert forall x :: x in selected <==> x in selected[..|selected| - 1] || x == last;
      if SameLine(last.mov, mov) then front else front + [last]
  }

  /** The test `removeFromFicha` filters the selection with: not on the movement's line. */
  function OffLine(mov: Mov): SelItem -> bool
  {
    (x: SelItem) => !SameLine(x.mov, mov)
  }

  /** The selection without a line is `selected.filter` over the other lines, so their order is kept. */
  lemma {:induction false} WithoutIsFilter(selected: seq<SelItem>, mov: Mov)
    ensures Without(selected, mov) == SearchModal.Filter(selected, OffLine(mov))
    ensures SearchModal.IsSubsequence(Without(selected, mov), selected)
  {
    if selected != [] {
      var front := selected[..|selected| - 1];
      var last := selected[|selected| - 1];
      WithoutIsFilter(front, mov);
      SearchModal.FilterSnoc(front, last, OffLine(mov));
      assert front + [last] == selected;
    }
    SearchModal.FilterIsSubsequence(selected, OffLine(mov));
  }

  /** Removing a line that is not picked changes nothing. */
  lemma {:induction false} WithoutUnpicked(selected: seq<SelItem>, mov: Mov)
    requires !Picked(selected, mov)
    ensures Without(selected, mov) == selected
  {
    if selected != [] {
      var front := selected[..|selected| - 1];
      assert !Picked(front, mov) by {
        forall i | 0 <= i < |front| ensures !SameLine(front[i].mov, mov) {
          assert front[i] == selected[i];
        }
      }
      WithoutUnpicked(front, mov);
      assert !SameLine(selected[|selected| - 1].mov, mov);
      assert front + [selected[|selected| - 1]] == selected;
    }
  }

  /** Removing keeps no line twice, and the removed line is no longer picked. */
  lemma {:induction false} WithoutKeepsUnique(selected: seq<SelItem>, mov: Mov)
    requires UniqueLines(selected)
    ensures UniqueLines(Without(selected, mov))
    ensures !Picked(Without(selected, mov), mov)
  {
    var rest := Without(selected, mov);
    assert forall i :: 0 <= i < |rest| ==> rest[i] in rest;
    if selected != [] {
      var front := selected[..|selected| - 1];
      var last := selected[|selected| - 1];
      assert UniqueLines(front);
      WithoutKeepsUnique(front, mov);
      var wf := Without(front, mov);
      if !SameLine(last.mov, mov) {
        assert rest == wf + [last];
        forall i | 0 <= i < |wf| ensures !SameLine(wf[i].mov, last.mov) {
          assert wf[i] in front;
          var k :| 0 <= k < |front| && front[k] == wf[i];
          assert selected[k] == wf[i];
        }
      }
    }
  }

  /** Adding an unpicked line keeps the lines unique. */
  lemma AddKeepsUnique(selected: seq<SelItem>, item: SelItem)
    requires UniqueLines(selected) && !Picked(selected, item.mov)
    ensures UniqueLines(selected + [item])
  {
    var s := selected + [item];
    forall i, j | 0 <= i < j < |s| ensures !SameLine(s[i].mov, s[j].mov) {
      if j == |selected| {
        assert s[i] == selected[i];
      }
    }
  }

  /** The storage keys the selection is persisted under. */
  const ItemsKey := "fa_selected_items"
  const ClienteKey := "fa_selected_cliente"

  /** `selectedCliente` set: neither null nor 0. */
  predicate ClienteSet(c: Option<JsNumber>)
  {
    c.Some? && c.value.Truthy()
  }

  class FichaSelection {
    var selected: seq<SelItem>
    var selectedCliente: Option<JsNumber>
    var page: int
    /** The browser's local storage. */
    var storage: map<string, string>

    constructor(storage: map<string, string>)
      ensures selected == [] && selectedCliente == None && page == 1 && this.storage == storage
    {
      selected := [];
      selectedCliente := None;
      page := 1;
      this.storage := storage;
    }

    /**
     * The restore on mount: a stored array becomes the selection and a stored client its number;
     * an empty stored text counts as absent, and a stored text that does not parse stops the
     * restore (the `catch` swallows it).
     */
    method Restore(parse: string -> Result<Option<seq<SelItem>>>)
      modifies this`selected, this`selectedCliente
      ensures Stored(ItemsKey) && parse(storage[ItemsKey]).Failure? ==>
        selected == old(selected) && selectedCliente == old(selectedCliente)
      ensures Stored(ItemsKey) && parse(storage[ItemsKey]).Ok? && parse(storage[ItemsKey]).value.Some? ==>
        selected == parse(storage[ItemsKey]).value.value
      ensures (!Stored(ItemsKey) || parse(storage[ItemsKey]).Ok?) && Stored(ClienteKey) ==>
        selectedCliente == Some(ToNumber(storage[ClienteKey]))
      ensures (!Stored(ItemsKey) || parse(storage[ItemsKey]).Ok?) && !Stored(ClienteKey) ==>
        selectedCliente == old(selectedCliente)
      ensures (!Stored(ItemsKey) || !(parse(storage[ItemsKey]).Ok? && parse(storage[ItemsKey]).value.Some?)) ==>
        selected == old(selected)
    {
      var restored := true;
      if Stored(ItemsKey) {
        var arr := parse(storage[ItemsKey]);
        if arr.Failure? {
          restored := false;
        } else if arr.value.Some? {
          selected := arr.value.value;
        }
      }
      if restored {
        RestoreCliente();
      }
    }

    /** The client half of the restore: a stored client becomes the selected client's number. */
    method RestoreCliente()
      modifies this`selectedCliente
      ensures Stored(ClienteKey) ==> selectedCliente == Some(ToNumber(storage[ClienteKey]))
      ensures !Stored(ClienteKey) ==> selectedCliente == old(selectedCliente)
    {
      if Stored(ClienteKey) {
        selectedCliente := Some(ToNumber(storage[ClienteKey]));
      }
    }

    /** `localStorage.getItem(key)` is a non-empty text. */
    predicate Stored(key: string)
      reads this
    {
      key in storage && storage[key] != ""
    }

    /**
     * The persistence effect: a non-empty selection is stored, with the client when one is set;
     * an empty one removes both keys.
     */
    method Persist(stringify: seq<SelItem> -> string)
      modifies this`storage
      ensures selected != [] && ClienteSet(selectedCliente) ==>
        storage == old(storage)[ItemsKey := stringify(selected)][ClienteKey := selectedCliente.value.ToText()]
      ensures selected != [] && !ClienteSet(selectedCliente) ==>
        storage == old(storage)[ItemsKey := stringify(selected)]
      ensures selected == [] ==> storage == old(storage) - {ItemsKey, ClienteKey}
    {
      if selected != [] {
        storage := storage[ItemsKey := stringify(selected)];
        if ClienteSet(selectedCliente) {
          storage := storage[ClienteKey := selectedCliente.value.ToText()];
        }
      } else {
        storage := storage - {ItemsKey, ClienteKey};
      }
    }

    /**
     * `addToFicha`: an already picked line, a cancelled prompt or a quantity outside
     * [0, pending] changes nothing; otherwise one item is appended, and the first add with no
     * client chosen picks the movement's client and goes back to page 1.
     */
    method AddToFicha(mov: Mov, rolosAnswer: Option<string>, pesosAnswer: Option<string>) returns (o: AddOutcome)
      modifies this`selected, this`selectedCliente, this`page
      ensures Picked(old(selected), mov) ==> o == AlreadyPicked
      ensures o != Added ==> selected == old(selected) && selectedCliente == old(selectedCliente) && page == old(page)
      ensures !Picked(old(selected), mov) && (rolosAnswer.None? || pesosAnswer.None?) ==> o == Cancelled
      ensures o == Added <==>
        !Picked(old(selected), mov) && rolosAnswer.Some? && pesosAnswer.Some? &&
        Quantity(rolosAnswer.value, Pending(mov.rolos, mov.rolosEntregues)).Some? &&
        Quantity(pesosAnswer.value, Pending(mov.pesos, mov.pesosEntregues)).Some?
      ensures o == Added ==>
        selected == old(selected) + [SelItem(mov,
          Quantity(rolosAnswer.value, Pending(mov.rolos, mov.rolosEntregues)).value,
          Quantity(pesosAnswer.value, Pending(mov.pesos, mov.pesosEntregues)).value)]
      ensures o == Added && !ClienteSet(old(selectedCliente)) ==> selectedCliente == Some(Num(mov.cliente)) && page == 1
      ensures o == Added && ClienteSet(old(selectedCliente)) ==> selectedCliente == old(selectedCliente) && page == old(page)
      ensures UniqueLines(old(selected)) ==> UniqueLines(selected)
    {
      if exists i :: 0 <= i < |selected| && SameLine(selected[i].mov, mov) {
        return AlreadyPicked;
      }
      var pendRolos := Pending(mov.rolos, mov.rolosEntregues);
      var pendPesos := Pending(mov.pesos, mov.pesosEntregues);
      if rolosAnswer.None? || pesosAnswer.None? {
        return Cancelled;
      }
      var selRolos := Quantity(rolosAnswer.value, pendRolos);
      if selRolos.None? {
        return InvalidRolos;
      }
      var selPesos := Quantity(pesosAnswer.value, pendPesos);
      if selPesos.None? {
        return InvalidPesos;
      }
      var item := SelItem(mov, selRolos.value, selPesos.value);
      if UniqueLines(selected) {
        AddKeepsUnique(selected, item);
      }
      selected := selected + [item];
      if !ClienteSet(selectedCliente) {
        selectedCliente := Some(Num(mov.cliente));
        page := 1;
      }
      o := Added;
    }

    /** `removeFromFicha`: the line is dropped; an emptied selection also clears the client and the page. */
    method RemoveFromFicha(mov: Mov)
      modifies this`selected, this`selectedCliente, this`page
      ensures selected == Without(old(selected), mov)
      ensures selected == [] ==> selectedCliente == None && page == 1
      ensures selected != [] ==> selectedCliente == old(selectedCliente) && page == old(page)
      ensures UniqueLines(old(selected)) ==> UniqueLines(selected) && !Picked(selected, mov)
    {
      if UniqueLines(selected) {
        WithoutKeepsUnique(selected, mov);
      }
      selected := Without(selected, mov);
      if selected == [] {
        selectedCliente := None;
        page := 1;
      }
    }

    /** `clearFilter`: no client, first page; the picked items stay. */
    method ClearFilter()
      modifies this`selectedCliente, this`page
      ensures selectedCliente == None && page == 1
    {
      selectedCliente := None;
      page := 1;
    }
  }
}
