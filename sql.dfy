/** SQL text as the services assemble it: `?` placeholders in clauses built by concatenation and `join`. */
module Sql {
  import opened Wrappers
  import opened Js

  /** A value bound to a `?` placeholder. */
  datatype Param =
    | PText(s: string)
    | PInt(i: int)
    | PNumber(x: JsNumber)
    | PDate(t: int)            // a timestamp in milliseconds
    | PValue(v: JsValue)       // a request value passed through unchanged
    | PNull

  /** `row.COL?.trim() || ''`: a text column read with NULL as the empty text. */
  function TrimOrEmpty(col: Option<string>): (r: string)
    ensures col.None? ==> r == ""
    ensures col.Some? ==> r == Trim(col.value)
    ensures r == [] || (!IsSpace(r[0]) && !IsSpace(r[|r| - 1]))
  {
    if col.Some? then TrimmedEnds(col.value); Trim(col.value) else ""
  }

  /** A query together with the parameters bound to its placeholders. */
  datatype Statement = Statement(sql: string, params: seq<Param>)

  /** The number of occurrences of `c` in `s`. */
  function Count(s: string, c: char): nat
  {
    if s == [] then 0 else (if s[0] == c then 1 else 0) + Count(s[1..], c)
  }

  lemma {:induction false} CountConcat(a: string, b: string, c: char)
    ensures Count(a + b, c) == Count(a, c) + Count(b, c)
  {
    if a == [] {
      assert a + b == b;
    } else {
      assert (a + b)[1..] == a[1..] + b;
      CountConcat(a[1..], b, c);
    }
  }

  /** The number of `?` placeholders in a piece of SQL. */
  function Placeholders(s: string): nat
  {
    Count(s, '?')
  }

  /** Text without a `?` binds nothing. */
  lemma {:induction false} NoPlaceholders(s: string)
    requires '?' !in s
    ensures Placeholders(s) == 0
  {
    if s != [] {
      assert s[0] != '?';
      assert forall x :: x in s[1..] ==> x in s;
      NoPlaceholders(s[1..]);
    }
  }

  /** The separator of a SET list. */
  const Comma := ", "

  /** A condition or assignment ending in its one placeholder. */
  function Bound(prefix: string): string
  {
    prefix + "?"
  }

  lemma BoundPlaceholder(prefix: string)
    requires '?' !in prefix
    ensures Placeholders(Bound(prefix)) == 1
  {
    NoPlaceholders(prefix);
    CountConcat(prefix, "?", '?');
    assert Placeholders("?") == 1;
  }

  /** The assignment `col = ?` of an UPDATE's SET list. */
  function Assign(col: string): string
  {
    Bound(col + " = ")
  }

  lemma AssignPlaceholder(col: string)
    requires '?' !in col
    ensures Placeholders(Assign(col)) == 1
  {
    assert forall x :: x in col + " = " ==> x in col || x in " = ";
    BoundPlaceholder(col + " = ");
  }

  predicate OnePlaceholderEach(parts: seq<string>)
  {
    forall i :: 0 <= i < |parts| ==> Placeholders(parts[i]) == 1
  }

  /** Joining placeholder-free parts with a placeholder-free separator gives placeholder-free text. */
  lemma {:induction false} JoinClean(parts: seq<string>, sep: string)
    requires forall i :: 0 <= i < |parts| ==> '?' !in parts[i]
    requires '?' !in sep
    ensures '?' !in Join(parts, sep)
  {
    if |parts| > 1 {
      JoinClean(parts[1..], sep);
    }
  }

  /** `fields.join(sep)` of one-placeholder fields holds one placeholder per field. */
  lemma {:induction false} PlaceholdersJoin(parts: seq<string>, sep: string)
    requires OnePlaceholderEach(parts) && Placeholders(sep) == 0
    ensures Placeholders(Join(parts, sep)) == |parts|
  {
    if |parts| > 1 {
      PlaceholdersJoin(parts[1..], sep);
      CountConcat(parts[0], sep, '?');
      CountConcat(parts[0] + sep, Join(parts[1..], sep), '?');
    }
  }

  lemma PlaceholdersOf3(a: string, b: string, c: string)
    ensures Placeholders(a + b + c) == Placeholders(a) + Placeholders(b) + Placeholders(c)
  {
    CountConcat(a, b, '?');
    CountConcat(a + b, c, '?');
  }

  /** `head + fields.join(sep) + tail` binds one value per field plus the one of `tail`. */
  lemma PlaceholdersJoinFrame(head: string, fields: seq<string>, sep: string, tail: string)
    requires '?' !in head && '?' !in sep && OnePlaceholderEach(fields) && Placeholders(tail) == 1
    ensures Placeholders(head + Join(fields, sep) + tail) == |fields| + 1
  {
    NoPlaceholders(head);
    NoPlaceholders(sep);
    PlaceholdersJoin(fields, sep);
    PlaceholdersOf3(head, Join(fields, sep), tail);
  }

  /** The clause `s += f` builds from successive fragments. */
  function Concat(parts: seq<string>): string
  {
    if parts == [] then "" else Concat(parts[..|parts| - 1]) + parts[|parts| - 1]
  }

  /** Concatenated one-placeholder fragments hold one placeholder per fragment. */
  lemma {:induction false} PlaceholdersConcat(parts: seq<string>)
    requires OnePlaceholderEach(parts)
    ensures Placeholders(Concat(parts)) == |parts|
  {
    if parts != [] {
      var front := parts[..|parts| - 1];
      PlaceholdersConcat(front);
      CountConcat(Concat(front), parts[|parts| - 1], '?');
    }
  }

  // ---------------------------------------------------------------- updates

  /** The error of an update with no field to set. */
  const NothingToUpdate := "Nenhum campo para atualizar"

  /** The entries of an update whose value is not `undefined`, in order. */
  function DefinedEntries(entries: seq<(string, JsValue)>): (ds: seq<(string, JsValue)>)
    ensures |ds| <= |entries|
  {
    if entries == [] then []
    else
      DefinedEntries(entries[..|entries| - 1]) +
      (if entries[|entries| - 1].1 != Undefined then [entries[|entries| - 1]] else [])
  }

  /** Exactly the entries with a defined value are kept. */
  lemma {:induction false} DefinedEntriesMembers(entries: seq<(string, JsValue)>, e: (string, JsValue))
    ensures e in DefinedEntries(entries) <==> e in entries && e.1 != Undefined
  {
    if entries != [] {
      var front := entries[..|entries| - 1];
      DefinedEntriesMembers(front, e);
      assert entries == front + [entries[|entries| - 1]];
    }
  }

  /** With every value undefined nothing is kept. */
  lemma {:induction false} NoneDefined(entries: seq<(string, JsValue)>)
    requires forall i :: 0 <= i < |entries| ==> entries[i].1 == Undefined
    ensures DefinedEntries(entries) == []
  {
    if entries != [] {
      NoneDefined(entries[..|entries| - 1]);
    }
  }

  lemma DefinedSnoc(entries: seq<(string, JsValue)>, i: nat)
    requires i < |entries|
    ensures DefinedEntries(entries[..i + 1]) ==
      DefinedEntries(entries[..i]) + (if entries[i].1 != Undefined then [entries[i]] else [])
  {
    assert entries[..i + 1][..i] == entries[..i];
  }

  function EntryValues(ds: seq<(string, JsValue)>): (vs: seq<Param>)
    ensures |vs| == |ds|
    ensures forall i :: 0 <= i < |ds| ==> vs[i] == PValue(ds[i].1)
  {
    if ds == [] then [] else EntryValues(ds[..|ds| - 1]) + [PValue(ds[|ds| - 1].1)]
  }

  /** `COL = ?` for each entry, the column being the entry's key. */
  function SetFields(ds: seq<(string, JsValue)>): (fields: seq<string>)
    ensures |fields| == |ds|
    ensures forall i :: 0 <= i < |ds| ==> fields[i] == Assign(ds[i].0)
  {
    if ds == [] then [] else SetFields(ds[..|ds| - 1]) + [Assign(ds[|ds| - 1].0)]
  }

  /** Columns without a '?' give one placeholder per SET field. */
  lemma SetFieldsBindOne(ds: seq<(string, JsValue)>)
    requires forall e :: e in ds ==> '?' !in e.0
    ensures OnePlaceholderEach(SetFields(ds))
  {
    forall i | 0 <= i < |ds|
      ensures Placeholders(SetFields(ds)[i]) == 1
    {
      assert ds[i] in ds;
      AssignPlaceholder(ds[i].0);
    }
  }

  lemma SetFieldsSnoc(ds: seq<(string, JsValue)>, e: (string, JsValue))
    ensures SetFields(ds + [e]) == SetFields(ds) + [Assign(e.0)]
    ensures EntryValues(ds + [e]) == EntryValues(ds) + [PValue(e.1)]
  {
    assert (ds + [e])[..|ds|] == ds;
  }

  /** The SET fields and values an `if (defined) push` sequence builds from the candidates `done`. */
  function Pushes(done: seq<(string, JsValue)>): (seq<string>, seq<Param>)
  {
    if done == [] then ([], [])
    else
      var before := Pushes(done[..|done| - 1]);
      var e := done[|done| - 1];
      if e.1 != Undefined then (before.0 + [Assign(e.0)], before.1 + [PValue(e.1)]) else before
  }

  /** One more test: the candidate is pushed exactly when its value is defined. */
  lemma PushesSnoc(done: seq<(string, JsValue)>, e: (string, JsValue))
    ensures Pushes(done + [e]) ==
      if e.1 != Undefined then (Pushes(done).0 + [Assign(e.0)], Pushes(done).1 + [PValue(e.1)]) else Pushes(done)
  {
    assert (done + [e])[..|done|] == done;
  }

  /** The pushes are the SET fields and the values of the defined candidates. */
  lemma {:induction false} PushesDefined(done: seq<(string, JsValue)>)
    ensures Pushes(done) == (SetFields(DefinedEntries(done)), EntryValues(DefinedEntries(done)))
  {
    if done != [] {
      var front, e := done[..|done| - 1], done[|done| - 1];
      assert done == front + [e];
      PushesDefined(front);
      var ds := DefinedEntries(front);
      if e.1 != Undefined {
        SetFieldsSnoc(ds, e);
      } else {
        assert ds + [] == ds;
      }
    }
  }

}
