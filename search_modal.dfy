/**
 * The lookup dialog used to pick a client, an article and the like: the options loaded from a
 * lookup endpoint (de-duplicated by code), the search over one of their fields, the 100-row
 * display cap and the reset when the dialog closes. `norm` is the text normaliser (NFD with the
 * combining marks removed, then lower case), left abstract; the HTTP request is its outcome.
 */
module SearchModal {
  import opened Wrappers
  import opened Js

  /** `a` is `b` with some elements left out, the rest in order. */
  predicate IsSubsequence<T(==)>(a: seq<T>, b: seq<T>)
    decreases |b|
  {
    a == [] || (b != [] && ((a[0] == b[0] && IsSubsequence(a[1..], b[1..])) || IsSubsequence(a, b[1..])))
  }

  /** `xs.filter(p)`. */
  function Filter<T(!new)>(xs: seq<T>, p: T -> bool): (r: seq<T>)
    ensures |r| <= |xs|
    ensures forall x :: x in r <==> x in xs && p(x)
  {
    if xs == [] then []
    else if p(xs[0]) then [xs[0]] + Filter(xs[1..], p)
    else Filter(xs[1..], p)
  }

  lemma {:induction false} FilterIsSubsequence<T(!new)>(xs: seq<T>, p: T -> bool)
    ensures IsSubsequence(Filter(xs, p), xs)
  {
    if xs != [] {
      FilterIsSubsequence(xs[1..], p);
      if p(xs[0]) {
        assert ([xs[0]] + Filter(xs[1..], p))[1..] == Filter(xs[1..], p);
      }
    }
  }

  /** Filtering one more element appends it exactly when it passes. */
  lemma {:induction false} FilterSnoc<T(!new)>(xs: seq<T>, y: T, p: T -> bool)
    ensures Filter(xs + [y], p) == Filter(xs, p) + (if p(y) then [y] else [])
  {
    if xs == [] {
      assert [y][1..] == [];
    } else {
      assert (xs + [y])[0] == xs[0];
      assert (xs + [y])[1..] == xs[1..] + [y];
      FilterSnoc(xs[1..], y, p);
    }
  }

  /** A filter that keeps every element changes nothing. */
  lemma {:induction false} FilterKeepsAll<T(!new)>(xs: seq<T>, p: T -> bool)
    requires forall x :: x in xs ==> p(x)
    ensures Filter(xs, p) == xs
  {
    if xs != [] {
      FilterKeepsAll(xs[1..], p);
      assert [xs[0]] + xs[1..] == xs;
    }
  }

  datatype SearchOption = SearchOption(codigo: int, nome: Option<string>, descricao: Option<string>)

  function Codes(xs: seq<SearchOption>): set<int>
  {
    set x | x in xs :: x.codigo
  }

  /** No two options share a code. */
  predicate UniqueCodes(xs: seq<SearchOption>)
  {
    forall i, j :: 0 <= i < j < |xs| ==> xs[i].codigo != xs[j].codigo
  }

  /**
   * `filter((o, i, self) => i === self.findIndex(p => p.codigo === o.codigo))`, scanning with the
   * codes already kept: an option is kept exactly when no earlier option has its code.
   */
  function DedupFrom(xs: seq<SearchOption>, seen: set<int>): seq<SearchOption>
  {
    if xs == [] then []
    else if xs[0].codigo in seen then DedupFrom(xs[1..], seen)
    else [xs[0]] + DedupFrom(xs[1..], seen + {xs[0].codigo})
  }

  /** The scan keeps only options of the list whose codes were not yet seen. */
  lemma {:induction false} DedupFromMembers(xs: seq<SearchOption>, seen: set<int>)
    ensures forall x :: x in DedupFrom(xs, seen) ==> x in xs && x.codigo !in seen
  {
    if xs != [] {
      var tail := xs[1..];
      assert forall x :: x in tail ==> x in xs;
      if xs[0].codigo in seen {
        DedupFromMembers(tail, seen);
      } else {
        DedupFromMembers(tail, seen + {xs[0].codigo});
        assert forall x :: x in DedupFrom(xs, seen) ==> x == xs[0] || x in DedupFrom(tail, seen + {xs[0].codigo});
      }
    }
  }

  /** The scan keeps exactly the codes of the list not yet seen. */
  lemma {:induction false} DedupFromCodes(xs: seq<SearchOption>, seen: set<int>)
    ensures Codes(DedupFrom(xs, seen)) == Codes(xs) - seen
  {
    if xs != [] {
      CodesCons(xs);
      if xs[0].codigo in seen {
        DedupFromCodes(xs[1..], seen);
      } else {
        var rest := DedupFrom(xs[1..], seen + {xs[0].codigo});
        DedupFromCodes(xs[1..], seen + {xs[0].codigo});
        CodesCons([xs[0]] + rest);
        assert ([xs[0]] + rest)[1..] == rest;
      }
    }
  }

  /** The scan keeps each code once. */
  lemma {:induction false} DedupFromUniqueCodes(xs: seq<SearchOption>, seen: set<int>)
    ensures UniqueCodes(DedupFrom(xs, seen))
  {
    if xs != [] {
      if xs[0].codigo in seen {
        DedupFromUniqueCodes(xs[1..], seen);
      } else {
        var rest := DedupFrom(xs[1..], seen + {xs[0].codigo});
        DedupFromUniqueCodes(xs[1..], seen + {xs[0].codigo});
        DedupFromMembers(xs[1..], seen + {xs[0].codigo});
        var r := [xs[0]] + rest;
        assert forall k :: 0 < k < |r| ==> r[k] == rest[k - 1] && rest[k - 1] in rest;
      }
    }
  }

  /** `index === self.findIndex(p => p.codigo === o.codigo)`: no option before the i-th has its code. */
  predicate FirstOfCode(xs: seq<SearchOption>, i: int)
    requires 0 <= i < |xs|
  {
    forall j :: 0 <= j < i ==> xs[j].codigo != xs[i].codigo
  }

  /** The source's filter read index by index: the options that are the first of their code, in order. */
  function FirstOccurrences(xs: seq<SearchOption>): seq<SearchOption>
  {
    if xs == [] then []
    else FirstOccurrences(xs[..|xs| - 1]) + (if FirstOfCode(xs, |xs| - 1) then [xs[|xs| - 1]] else [])
  }

  /** A code is among a list's codes exactly when some position holds it. */
  lemma CodesAt(xs: seq<SearchOption>, c: int)
    ensures c in Codes(xs) <==> exists j :: 0 <= j < |xs| && xs[j].codigo == c
  {
    if exists j :: 0 <= j < |xs| && xs[j].codigo == c {
      var j :| 0 <= j < |xs| && xs[j].codigo == c;
      assert xs[j] in xs;
    }
  }

  /** The codes of a list are its first option's code and the codes of the rest. */
  lemma CodesCons(xs: seq<SearchOption>)
    requires xs != []
    ensures Codes(xs) == {xs[0].codigo} + Codes(xs[1..])
  {
    assert forall x :: x in xs <==> x == xs[0] || x in xs[1..];
  }

  /** Scanning two lists one after the other: the second is scanned with the first's codes seen. */
  lemma {:induction false} DedupFromAppend(a: seq<SearchOption>, b: seq<SearchOption>, seen: set<int>)
    ensures DedupFrom(a + b, seen) == DedupFrom(a, seen) + DedupFrom(b, seen + Codes(a))
  {
    if a == [] {
      assert a + b == b;
      assert seen + Codes(a) == seen;
    } else {
      var tail := a[1..];
      var kept: seq<SearchOption> := if a[0].codigo in seen then [] else [a[0]];
      var seen' := seen + {a[0].codigo};
      assert seen' + Codes(tail) == seen + Codes(a) by {
        CodesCons(a);
      }
      DedupFromAppend(tail, b, seen');
      assert DedupFrom(a + b, seen) == kept + DedupFrom(tail + b, seen') by {
        assert (a + b)[0] == a[0] && (a + b)[1..] == tail + b;
        assert a[0].codigo in seen ==> seen' == seen;
      }
      assert DedupFrom(a, seen) == kept + DedupFrom(tail, seen') by {
        assert a[0].codigo in seen ==> seen' == seen;
      }
    }
  }

  /** The scan with nothing seen keeps exactly the first option of each code, in their order. */
  lemma {:induction false} DedupFromIsFirstOccurrences(xs: seq<SearchOption>)
    ensures DedupFrom(xs, {}) == FirstOccurrences(xs)
  {
    if xs != [] {
      var front, last := xs[..|xs| - 1], xs[|xs| - 1];
      DedupFromIsFirstOccurrences(front);
      assert DedupFrom(xs, {}) == DedupFrom(front, {}) + DedupFrom([last], Codes(front)) by {
        assert xs == front + [last];
        DedupFromAppend(front, [last], {});
        assert {} + Codes(front) == Codes(front);
      }
      assert FirstOfCode(xs, |xs| - 1) <==> last.codigo !in Codes(front) by {
        CodesAt(front, last.codigo);
        assert forall j :: 0 <= j < |front| ==> front[j] == xs[j];
      }
      assert DedupFrom([last], Codes(front)) == if last.codigo in Codes(front) then [] else [last] by {
        assert [last][1..] == [];
      }
    }
  }

  function Dedup(xs: seq<SearchOption>): (r: seq<SearchOption>)
    ensures r == FirstOccurrences(xs)
    ensures Codes(r) == Codes(xs) && UniqueCodes(r)
    ensures forall x :: x in r ==> x in xs
  {
    DedupFromIsFirstOccurrences(xs);
    DedupFromMembers(xs, {});
    DedupFromCodes(xs, {});
    DedupFromUniqueCodes(xs, {});
    assert Codes(xs) - {} == Codes(xs);
    DedupFrom(xs, {})
  }

  /** An option is among the first occurrences exactly when it stands at a position that is the first of its code. */
  lemma {:induction false} FirstOccurrencesMembers(xs: seq<SearchOption>, x: SearchOption)
    ensures x in FirstOccurrences(xs) <==> exists i :: 0 <= i < |xs| && xs[i] == x && FirstOfCode(xs, i)
  {
    if xs != [] {
      var front, last := xs[..|xs| - 1], xs[|xs| - 1];
      FirstOccurrencesMembers(front, x);
      assert forall i :: 0 <= i < |front| ==> (FirstOfCode(front, i) <==> FirstOfCode(xs, i)) by {
        forall i | 0 <= i < |front| ensures FirstOfCode(front, i) <==> FirstOfCode(xs, i) {
          assert forall j :: 0 <= j <= i ==> front[j] == xs[j];
        }
      }
      if exists i :: 0 <= i < |xs| && xs[i] == x && FirstOfCode(xs, i) {
        var i :| 0 <= i < |xs| && xs[i] == x && FirstOfCode(xs, i);
        if i < |front| {
          assert front[i] == x;
        }
      }
    }
  }

  lemma {:induction false} DedupFromIsSubsequence(xs: seq<SearchOption>, seen: set<int>)
    ensures IsSubsequence(DedupFrom(xs, seen), xs)
  {
    if xs != [] {
      if xs[0].codigo in seen {
        DedupFromIsSubsequence(xs[1..], seen);
      } else {
        DedupFromIsSubsequence(xs[1..], seen + {xs[0].codigo});
        assert ([xs[0]] + DedupFrom(xs[1..], seen + {xs[0].codigo}))[1..] == DedupFrom(xs[1..], seen + {xs[0].codigo});
      }
    }
  }

  /**
   * Every option that is the first of its code is kept, every option kept is the first of its
   * code, and the option shown first does not change.
   */
  lemma DedupKeepsFirst(xs: seq<SearchOption>)
    ensures forall i :: 0 <= i < |xs| && FirstOfCode(xs, i) ==> xs[i] in Dedup(xs)
    ensures forall x :: x in Dedup(xs) ==> exists i :: 0 <= i < |xs| && xs[i] == x && FirstOfCode(xs, i)
    ensures xs != [] ==> Dedup(xs) != [] && Dedup(xs)[0] == xs[0]
  {
    forall i | 0 <= i < |xs| && FirstOfCode(xs, i)
      ensures xs[i] in Dedup(xs)
    {
      FirstOccurrencesMembers(xs, xs[i]);
    }
    forall x | x in Dedup(xs)
      ensures exists i :: 0 <= i < |xs| && xs[i] == x && FirstOfCode(xs, i)
    {
      FirstOccurrencesMembers(xs, x);
    }
    if xs != [] {
      assert DedupFrom(xs, {}) == [xs[0]] + DedupFrom(xs[1..], {} + {xs[0].codigo});
    }
  }

  /** Past the first option of a list with distinct codes: distinct codes, none of them the first's. */
  lemma UniqueTail(xs: seq<SearchOption>)
    requires xs != [] && UniqueCodes(xs)
    ensures UniqueCodes(xs[1..])
    ensures forall x :: x in xs[1..] ==> x.codigo != xs[0].codigo
  {
    forall x | x in xs[1..] ensures x.codigo != xs[0].codigo {
      var k :| 0 <= k < |xs[1..]| && xs[1..][k] == x;
      assert xs[k + 1] == x;
    }
    forall i, j | 0 <= i < j < |xs[1..]| ensures xs[1..][i].codigo != xs[1..][j].codigo {
      assert xs[1..][i] == xs[i + 1] && xs[1..][j] == xs[j + 1];
    }
  }

  /** Options that already have distinct codes, among none of the seen ones, are all kept. */
  lemma {:induction false} DedupFromUnique(xs: seq<SearchOption>, seen: set<int>)
    requires UniqueCodes(xs) && forall x :: x in xs ==> x.codigo !in seen
    ensures DedupFrom(xs, seen) == xs
  {
    if xs != [] {
      UniqueTail(xs);
      var seen' := seen + {xs[0].codigo};
      assert forall x :: x in xs[1..] ==> x.codigo !in seen' by {
        forall x | x in xs[1..] ensures x.codigo !in seen' {
          assert x in xs;
        }
      }
      DedupFromUnique(xs[1..], seen');
      assert xs[0] in xs;
      assert DedupFrom(xs, seen) == [xs[0]] + DedupFrom(xs[1..], seen');
      assert [xs[0]] + xs[1..] == xs;
    }
  }

  /** De-duplicating twice is de-duplicating once. */
  lemma DedupIdempotent(xs: seq<SearchOption>)
    ensures Dedup(Dedup(xs)) == Dedup(xs)
  {
    DedupFromUnique(Dedup(xs), {});
  }

  datatype SearchField = Nome | Descricao

  /** `option[searchField] || ''`. */
  function FieldText(o: SearchOption, field: SearchField): string
  {
    var v := if field == Nome then o.nome else o.descricao;
    if v.Some? then v.value else ""
  }

  /** The option's field, normalised, contains the normalised, trimmed term. */
  predicate Matches(o: SearchOption, field: SearchField, term: string, norm: string -> string)
  {
    Contains(norm(FieldText(o, field)), norm(Trim(term)))
  }

  /**
   * `filteredOptions`: a blank term shows every option; otherwise the options whose field
   * matches, de-duplicated by code again.
   */
  function Filtered(options: seq<SearchOption>, term: string, field: SearchField, norm: string -> string): (r: seq<SearchOption>)
    ensures Trim(term) == "" ==> r == options
    ensures Trim(term) != "" ==> UniqueCodes(r)
    ensures Trim(term) != "" ==> forall x :: x in r ==> x in options && Matches(x, field, term, norm)
  {
    if Trim(term) == "" then options
    else Dedup(Filter(options, o => Matches(o, field, term, norm)))
  }

  /** A search result is always a subsequence of the options. */
  lemma FilteredIsSubsequence(options: seq<SearchOption>, term: string, field: SearchField, norm: string -> string)
    ensures IsSubsequence(Filtered(options, term, field, norm), options)
  {
    if Trim(term) == "" {
      SelfSubsequence(options);
    } else {
      var p := (o: SearchOption) => Matches(o, field, term, norm);
      var f := Filter(options, p);
      FilterIsSubsequence(options, p);
      DedupFromIsSubsequence(f, {});
      SubsequenceTransitive(Dedup(f), f, options);
    }
  }

  /** Every option whose field matches has its code among the results. */
  lemma FilteredCoversMatches(options: seq<SearchOption>, term: string, field: SearchField, norm: string -> string, o: SearchOption)
    requires Trim(term) != "" && o in options && Matches(o, field, term, norm)
    ensures o.codigo in Codes(Filtered(options, term, field, norm))
  {
    var f := Filter(options, p => Matches(p, field, term, norm));
    assert o in f;
  }

  lemma {:induction false} SelfSubsequence<T>(xs: seq<T>)
    ensures IsSubsequence(xs, xs)
  {
    if xs != [] {
      SelfSubsequence(xs[1..]);
    }
  }

  lemma {:induction false} SubsequenceTransitive<T>(a: seq<T>, b: seq<T>, c: seq<T>)
    requires IsSubsequence(a, b) && IsSubsequence(b, c)
    ensures IsSubsequence(a, c)
    decreases |c|
  {
    if a != [] {
      assert b != [] && c != [];
      if b[0] == c[0] && IsSubsequence(b[1..], c[1..]) {
        if a[0] == b[0] && IsSubsequence(a[1..], b[1..]) {
          SubsequenceTransitive(a[1..], b[1..], c[1..]);
        } else {
          SubsequenceTransitive(a, b[1..], c[1..]);
        }
      } else {
        SubsequenceTransitive(a, b, c[1..]);
      }
    }
  }

  const DisplayCap := 100

  /** `filteredOptions.slice(0, 100)`. */
  function Shown<T>(results: seq<T>): (shown: seq<T>)
    ensures |shown| <= DisplayCap && |shown| <= |results|
    ensures |results| <= DisplayCap ==> shown == results
    ensures shown == results[..|shown|]
  {
    if |results| <= DisplayCap then results else results[..DisplayCap]
  }

  /** The "only the first 100" notice. */
  predicate Truncated<T>(results: seq<T>)
  {
    |results| > DisplayCap
  }

  lemma TruncatedIffRowsHidden<T>(results: seq<T>)
    ensures Truncated(results) <==> |Shown(results)| < |results|
  {
  }

  datatype Callback = OnSelect(option: SearchOption) | OnClose

  class SearchModalState {
    var searchTerm: string
    var options: seq<SearchOption>
    var currentPage: int
    /** The parent's callbacks, in the order they were called. */
    var calls: seq<Callback>

    constructor()
      ensures searchTerm == "" && options == [] && currentPage == 1 && calls == []
    {
      searchTerm := "";
      options := [];
      currentPage := 1;
      calls := [];
    }

    /** `loadOptions`: the response's options de-duplicated by code, or none when the request fails. */
    method LoadOptions(response: Result<seq<SearchOption>>)
      modifies this`options
      ensures response.Ok? ==> options == Dedup(response.value)
      ensures response.Failure? ==> options == []
      ensures UniqueCodes(options)
    {
      if response.Ok? {
        options := Dedup(response.value);
      } else {
        options := [];
      }
    }

    /** The effect on `isOpen`: opening loads; closing clears the term, the options and the page. */
    method OpenChanged(isOpen: bool, response: Result<seq<SearchOption>>)
      modifies this`options, this`searchTerm, this`currentPage
      ensures isOpen ==> options == (if response.Ok? then Dedup(response.value) else [])
      ensures isOpen ==> searchTerm == old(searchTerm) && currentPage == old(currentPage)
      ensures !isOpen ==> searchTerm == "" && options == [] && currentPage == 1
    {
      if isOpen {
        LoadOptions(response);
      } else {
        searchTerm := "";
        options := [];
        currentPage := 1;
      }
    }

    /** `handleSelect`: the parent hears the choice, then is asked to close. */
    method HandleSelect(o: SearchOption)
      modifies this`calls
      ensures calls == old(calls) + [OnSelect(o), OnClose]
    {
      calls := calls + [OnSelect(o)];
      calls := calls + [OnClose];
    }
  }
}
