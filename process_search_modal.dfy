/**
 * The dialog that picks a process or a colour: the search depends on the kind of option, nothing
 * is de-duplicated, at most 100 rows are shown, and closing clears the term and the options.
 * `norm` is the same abstract text normaliser as in the lookup dialog.
 */
module ProcessSearchModal {
  import opened Wrappers
  import opened Js
  import opened SearchModal

  datatype Kind = Processo | Cor

  /** A row of the process or colour lookup; `None` is a missing field. */
  datatype ProcOption = ProcOption(id: JsValue, descricao: Option<string>, codigoCor: Option<string>, malha: Option<string>)

  /** `value || ''`. */
  function TextOr(v: Option<string>): string
  {
    if v.Some? then v.value else ""
  }

  /** A process matches on its description; a colour on its colour code or on its fabric. */
  predicate Matches(o: ProcOption, kind: Kind, term: string, norm: string -> string)
  {
    var t := norm(Trim(term));
    if kind == Processo then Contains(norm(TextOr(o.descricao)), t)
    else Contains(norm(TextOr(o.codigoCor)), t) || Contains(norm(TextOr(o.malha)), t)
  }

  /** `filteredOptions`: everything for a blank term, else the matching options in order. */
  function Filtered(options: seq<ProcOption>, term: string, kind: Kind, norm: string -> string): (r: seq<ProcOption>)
    ensures Trim(term) == "" ==> r == options
    ensures Trim(term) != "" ==> forall o :: o in r <==> o in options && Matches(o, kind, term, norm)
  {
    if Trim(term) == "" then options else Filter(options, o => Matches(o, kind, term, norm))
  }

  /** The results are the options with some left out, in their order; at most 100 of them are shown. */
  lemma FilteredIsSubsequence(options: seq<ProcOption>, term: string, kind: Kind, norm: string -> string)
    ensures IsSubsequence(Filtered(options, term, kind, norm), options)
    ensures |Shown(Filtered(options, term, kind, norm))| <= DisplayCap
  {
    if Trim(term) == "" {
      SelfSubsequence(options);
    } else {
      FilterIsSubsequence(options, o => Matches(o, kind, term, norm));
    }
  }

  /** A term every option matches keeps every option, duplicates included. */
  lemma AllMatchingKeepsAll(options: seq<ProcOption>, term: string, kind: Kind, norm: string -> string)
    requires forall o :: o in options ==> Matches(o, kind, term, norm)
    ensures Filtered(options, term, kind, norm) == options
  {
    if Trim(term) != "" {
      FilterKeepsAll(options, o => Matches(o, kind, term, norm));
    }
  }

  class ProcessSearchState {
    var searchTerm: string
    var options: seq<ProcOption>

    constructor()
      ensures searchTerm == "" && options == []
    {
      searchTerm := "";
      options := [];
    }

    /**
     * The effect on `isOpen`: opening loads `response.data || []` (none when the request fails);
     * closing clears the term and the options.
     */
    method OpenChanged(isOpen: bool, response: Result<Option<seq<ProcOption>>>)
      modifies this`options, this`searchTerm
      ensures isOpen && response.Ok? && response.value.Some? ==> options == response.value.value
      ensures isOpen && !(response.Ok? && response.value.Some?) ==> options == []
      ensures isOpen ==> searchTerm == old(searchTerm)
      ensures !isOpen ==> searchTerm == "" && options == []
    {
      if isOpen {
        if response.Ok? && response.value.Some? {
          options := response.value.value;
        } else {
          options := [];
        }
      } else {
        searchTerm := "";
        options := [];
      }
    }
  }
}
