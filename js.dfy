/**
 * The JavaScript string, number and truthiness semantics that the TypeScript
 * backend and the React client rely on: `split`/`join`, `trim`, ASCII
 * `toUpperCase`/`toLowerCase`, `startsWith`, `includes`, global `replace`,
 * `parseInt`, `Number(...)`, `String(n)` and the falsy values.
 */
module Js {

  // ---------------------------------------------------------------- characters

  /** The whitespace `trim` removes (its ASCII part). */
  predicate IsSpace(c: char) { c == ' ' || c == '\t' || c == '\n' || c == '\r' }

  predicate IsDigit(c: char) { '0' <= c <= '9' }

  predicate IsUpperAscii(c: char) { 'A' <= c <= 'Z' }

  predicate IsLowerAscii(c: char) { 'a' <= c <= 'z' }

  function UpperChar(c: char): char
  {
    if IsLowerAscii(c) then (c as int - 32) as char else c
  }

  function LowerChar(c: char): char
  {
    if IsUpperAscii(c) then (c as int + 32) as char else c
  }

  /** `s.toUpperCase()` on the ASCII letters. */
  function Upper(s: string): (r: string)
    ensures |r| == |s|
    ensures forall i :: 0 <= i < |s| ==> r[i] == UpperChar(s[i])
  {
    if s == [] then [] else [UpperChar(s[0])] + Upper(s[1..])
  }

  /** `s.toLowerCase()` on the ASCII letters. */
  function Lower(s: string): (r: string)
    ensures |r| == |s|
    ensures forall i :: 0 <= i < |s| ==> r[i] == LowerChar(s[i])
  {
    if s == [] then [] else [LowerChar(s[0])] + Lower(s[1..])
  }

  // ---------------------------------------------------------------- searching

  /** `s.startsWith(p)`. */
  predicate StartsWith(s: string, p: string)
  {
    |p| <= |s| && s[..|p|] == p
  }

  /** `s.includes(t)`: `t` occurs at some position of `s`. */
  predicate Contains(s: string, t: string)
    decreases |s|
  {
    StartsWith(s, t) || (|s| > 0 && Contains(s[1..], t))
  }

  lemma {:induction false} ContainsAt(s: string, t: string, i: nat)
    requires i + |t| <= |s| && s[i..i + |t|] == t
    ensures Contains(s, t)
  {
    if i > 0 {
      assert s[1..][i - 1..i - 1 + |t|] == s[i..i + |t|];
      ContainsAt(s[1..], t, i - 1);
    }
  }

  lemma {:induction false} ContainsSuffix(s: string, t: string, i: nat)
    requires i <= |s| && Contains(s[i..], t)
    ensures Contains(s, t)
  {
    if i > 0 {
      assert s[1..][i - 1..] == s[i..];
      ContainsSuffix(s[1..], t, i - 1);
    }
  }

  /** Characters of `r` never occur in `q`. */
  predicate Disjoint(r: string, q: string)
  {
    forall i :: 0 <= i < |r| ==> r[i] !in q
  }

  lemma {:induction false} ContainsAfterDisjoint(r: string, x: string, q: string)
    requires q != [] && Disjoint(r, q) && !Contains(x, q)
    ensures !Contains(r + x, q)
  {
    if r != [] {
      assert (r + x)[0] == r[0];
      assert (r + x)[1..] == r[1..] + x;
      ContainsAfterDisjoint(r[1..], x, q);
    } else {
      assert r + x == x;
    }
  }

  // ---------------------------------------------------------------- trim

  function TrimStart(s: string): (r: string)
    ensures |r| <= |s| && r == s[|s| - |r|..]
    ensures r == [] || !IsSpace(r[0])
    ensures forall i :: 0 <= i < |s| - |r| ==> IsSpace(s[i])
  {
    if |s| > 0 && IsSpace(s[0]) then TrimStart(s[1..]) else s
  }

  function TrimEnd(s: string): (r: string)
    ensures |r| <= |s| && r == s[..|r|]
    ensures r == [] || !IsSpace(r[|r| - 1])
    ensures forall i :: |r| <= i < |s| ==> IsSpace(s[i])
  {
    if |s| > 0 && IsSpace(s[|s| - 1]) then TrimEnd(s[..|s| - 1]) else s
  }

  /** `s.trim()`. */
  function Trim(s: string): string
  {
    TrimEnd(TrimStart(s))
  }

  /** A trimmed text neither starts nor ends with white space. */
  lemma TrimmedEnds(s: string)
    ensures var r := Trim(s); r == [] || (!IsSpace(r[0]) && !IsSpace(r[|r| - 1]))
  {
    var t := TrimStart(s);
    var r := TrimEnd(t);
    if r != [] {
      assert r[0] == t[0];
    }
  }

  /** The text is empty or white space only. */
  predicate IsBlank(s: string) { forall i :: 0 <= i < |s| ==> IsSpace(s[i]) }

  /** `!s.trim()` holds exactly for the blank texts. */
  lemma BlankIffTrimmedEmpty(s: string)
    ensures IsBlank(s) <==> Trim(s) == ""
  {
  }

  // ---------------------------------------------------------------- split and join

  /** `s.split(sep)` for a one-character separator. */
  function Split(s: string, sep: char): (parts: seq<string>)
    ensures |parts| >= 1
    ensures forall i :: 0 <= i < |parts| ==> sep !in parts[i]
  {
    if |s| == 0 then [""]
    else
      var rest := Split(s[1..], sep);
      if s[0] == sep then [""] + rest
      else [[s[0]] + rest[0]] + rest[1..]
  }

  /** `parts.join(sep)`. */
  function Join(parts: seq<string>, sep: string): string
  {
    if |parts| == 0 then ""
    else if |parts| == 1 then parts[0]
    else parts[0] + sep + Join(parts[1..], sep)
  }

  /** Joining the pieces of a split with the same separator gives back the text. */
  lemma {:induction false} JoinSplit(s: string, sep: char)
    ensures Join(Split(s, sep), [sep]) == s
  {
    if |s| > 0 {
      var rest := Split(s[1..], sep);
      JoinSplit(s[1..], sep);
      if s[0] == sep {
        assert Split(s, sep)[1..] == rest;
      } else {
        var parts := Split(s, sep);
        if |rest| == 1 {
          assert parts == [[s[0]] + rest[0]];
        } else {
          assert parts[1..] == rest[1..];
          assert Join(rest, [sep]) == rest[0] + [sep] + Join(rest[1..], [sep]);
        }
      }
    }
  }

  /** A text without the separator splits into itself. */
  lemma {:induction false} SplitWithoutSep(s: string, sep: char)
    requires sep !in s
    ensures Split(s, sep) == [s]
  {
    if |s| > 0 {
      assert sep !in s[1..];
      SplitWithoutSep(s[1..], sep);
      assert [s[0]] + s[1..] == s;
    }
  }

  /** `Split` cuts at the first separator: the first piece is the text before it. */
  lemma {:induction false} SplitFirst(s: string, sep: char, k: nat)
    requires k < |s| && s[k] == sep && sep !in s[..k]
    ensures |Split(s, sep)| >= 2
    ensures Split(s, sep)[0] == s[..k]
    ensures Split(s, sep)[1..] == Split(s[k + 1..], sep)
  {
    if k > 0 {
      assert s[1..][..k - 1] == s[1..k];
      assert s[1..][k..] == s[k + 1..];
      SplitFirst(s[1..], sep, k - 1);
      assert s[..k] == [s[0]] + s[1..k];
    }
  }

  /** A piece without the separator, then the separator, splits off as the first part. */
  lemma SplitCons(a: string, sep: char, rest: string)
    requires sep !in a
    ensures Split(a + [sep] + rest, sep) == [a] + Split(rest, sep)
  {
    var s := a + [sep] + rest;
    assert s[..|a|] == a;
    assert s[|a| + 1..] == rest;
    SplitFirst(s, sep, |a|);
  }

  // ---------------------------------------------------------------- replace

  /** `s.replace(/pat/g, rep)`: every non-overlapping occurrence, left to right. */
  function ReplaceAll(s: string, pat: string, rep: string): string
    requires pat != []
    decreases |s|
  {
    if |s| == 0 then []
    else if StartsWith(s, pat) then rep + ReplaceAll(s[|pat|..], pat, rep)
    else [s[0]] + ReplaceAll(s[1..], pat, rep)
  }

  /** A text without the pattern is left unchanged. */
  lemma {:induction false} ReplaceAllAbsent(s: string, pat: string, rep: string)
    requires pat != [] && !Contains(s, pat)
    ensures ReplaceAll(s, pat, rep) == s
  {
    if |s| > 0 {
      ReplaceAllAbsent(s[1..], pat, rep);
      assert [s[0]] + s[1..] == s;
    }
  }

  /** A prefix of the output free of replacement characters was copied from the input. */
  lemma {:induction false} ReplaceAllPrefix(t: string, pat: string, rep: string, k: nat)
    requires pat != [] && rep != []
    requires k <= |ReplaceAll(t, pat, rep)|
    requires forall j :: 0 <= j < k ==> ReplaceAll(t, pat, rep)[j] !in rep
    ensures k <= |t| && ReplaceAll(t, pat, rep)[..k] == t[..k]
  {
    var out := ReplaceAll(t, pat, rep);
    assert |t| > 0 && StartsWith(t, pat) ==> out[0] == rep[0];
    if k > 0 && |t| > 0 && !StartsWith(t, pat) {
      var tail := ReplaceAll(t[1..], pat, rep);
      assert out == [t[0]] + tail;
      forall j | 0 <= j < k - 1 ensures tail[j] !in rep {
        assert tail[j] == out[j + 1];
      }
      ReplaceAllPrefix(t[1..], pat, rep, k - 1);
      assert out[..k] == [t[0]] + tail[..k - 1];
      assert t[..k] == [t[0]] + t[1..][..k - 1];
    }
  }

  /** An occurrence of `q` at the head of an output that starts with a copied character was in the input. */
  lemma CopiedHead(s: string, pat: string, rep: string, q: string)
    requires pat != [] && rep != [] && q != [] && Disjoint(rep, q) && |s| > 0
    requires StartsWith([s[0]] + ReplaceAll(s[1..], pat, rep), q)
    ensures StartsWith(s, q)
  {
    var tail := ReplaceAll(s[1..], pat, rep);
    var out := [s[0]] + tail;
    var k := |q| - 1;
    assert out[1..][..k] == tail[..k];
    forall j | 0 <= j < k ensures tail[j] !in rep {
      assert tail[j] == q[j + 1];
    }
    ReplaceAllPrefix(s[1..], pat, rep, k);
    assert s[..|q|] == [s[0]] + s[1..][..k];
  }

  /**
   * Replacing `pat` by a non-empty `rep` never creates an occurrence of a text `q` that shares no
   * character with `rep`; with `q == pat` it also leaves no occurrence of `pat` behind.
   */
  lemma {:induction false} ReplaceAllAvoids(s: string, pat: string, rep: string, q: string)
    requires pat != [] && rep != [] && q != [] && Disjoint(rep, q)
    requires q == pat || !Contains(s, q)
    ensures !Contains(ReplaceAll(s, pat, rep), q)
  {
    var out := ReplaceAll(s, pat, rep);
    if |s| == 0 {
    } else if StartsWith(s, pat) {
      var s' := s[|pat|..];
      if q != pat && Contains(s', q) {
        ContainsSuffix(s, q, |pat|);
      }
      ReplaceAllAvoids(s', pat, rep, q);
      ContainsAfterDisjoint(rep, ReplaceAll(s', pat, rep), q);
    } else {
      var tail := ReplaceAll(s[1..], pat, rep);
      ReplaceAllAvoids(s[1..], pat, rep, q);
      assert out == [s[0]] + tail;
      if StartsWith(out, q) {
        CopiedHead(s, pat, rep, q);
      }
    }
  }

  // ---------------------------------------------------------------- numbers

  /** A JavaScript number as the sources use it: an integer or NaN. */
  datatype JsNumber = Num(n: int) | NaN
  {
    /** `!!x`: zero and NaN are falsy. */
    predicate Truthy() { this.Num? && n != 0 }

    /** `x <= k`, which is false for NaN. */
    predicate AtMost(k: int) { this.Num? && n <= k }

    /** `x || d`. */
    function Or(d: int): int { if Truthy() then n else d }

    /** `String(x)` / a template literal. */
    function ToText(): string
    {
      if NaN? then "NaN" else IntToString(n)
    }
  }

  function DigitValue(c: char): nat
    requires IsDigit(c)
  {
    c as int - '0' as int
  }

  function DigitChar(d: nat): (c: char)
    requires d < 10
    ensures IsDigit(c) && DigitValue(c) == d
  {
    ('0' as int + d) as char
  }

  predicate AllDigits(d: string)
  {
    forall i :: 0 <= i < |d| ==> IsDigit(d[i])
  }

  /** The longest run of digits at the start of `s`. */
  function DigitPrefix(s: string): (d: string)
    ensures |d| <= |s| && d == s[..|d|]
    ensures AllDigits(d)
    ensures |d| < |s| ==> !IsDigit(s[|d|])
  {
    if |s| > 0 && IsDigit(s[0]) then [s[0]] + DigitPrefix(s[1..]) else []
  }

  /** The decimal value of a digit string. */
  function DigitsValue(d: string): nat
    requires AllDigits(d)
  {
    if |d| == 0 then 0 else 10 * DigitsValue(d[..|d| - 1]) + DigitValue(d[|d| - 1])
  }

  /** Decimal text of a natural number, without leading zeros. */
  function NatToString(n: nat): (s: string)
    ensures s != [] && AllDigits(s)
  {
    if n < 10 then [DigitChar(n)] else NatToString(n / 10) + [DigitChar(n % 10)]
  }

  /** `String(i)`. */
  function IntToString(i: int): string
  {
    if i < 0 then "-" + NatToString(-i) else NatToString(i)
  }

  /** `parseInt(s)`: leading whitespace, an optional sign, then the longest run of digits. */
  function ParseInt(s: string): JsNumber
  {
    var t := TrimStart(s);
    if |t| > 0 && (t[0] == '-' || t[0] == '+') then
      var d := DigitPrefix(t[1..]);
      if d == [] then NaN else Num(if t[0] == '-' then -(DigitsValue(d) as int) else DigitsValue(d))
    else
      var d := DigitPrefix(t);
      if d == [] then NaN else Num(DigitsValue(d))
  }

  /** `Number(s)` for a string: blank is 0, a signed digit string is its value, anything else NaN. */
  function ToNumber(s: string): JsNumber
  {
    var t := Trim(s);
    if t == [] then Num(0)
    else if (t[0] == '-' || t[0] == '+') && |t| > 1 && AllDigits(t[1..]) then
      Num(if t[0] == '-' then -(DigitsValue(t[1..]) as int) else DigitsValue(t[1..]))
    else if AllDigits(t) then Num(DigitsValue(t))
    else NaN
  }

  lemma TrimOfDigits(s: string)
    requires s != [] && AllDigits(s)
    ensures TrimStart(s) == s && Trim(s) == s
  {
    assert !IsSpace(s[0]);
    assert !IsSpace(s[|s| - 1]);
  }

  lemma {:induction false} DigitPrefixOfDigits(d: string)
    requires AllDigits(d)
    ensures DigitPrefix(d) == d
  {
    if |d| > 0 {
      DigitPrefixOfDigits(d[1..]);
      assert [d[0]] + d[1..] == d;
    }
  }

  lemma {:induction false} ValueOfNatToString(n: nat)
    ensures DigitsValue(NatToString(n)) == n
  {
    if n >= 10 {
      var s := NatToString(n);
      var front := NatToString(n / 10);
      assert s[..|s| - 1] == front;
      ValueOfNatToString(n / 10);
    }
  }

  /** `parseInt(String(n)) === n` for every natural number. */
  lemma ParseNatToString(n: nat)
    ensures ParseInt(NatToString(n)) == Num(n)
  {
    var s := NatToString(n);
    TrimOfDigits(s);
    assert IsDigit(s[0]);
    DigitPrefixOfDigits(s);
    ValueOfNatToString(n);
  }

  /** `parseInt(String(i)) === i` for every integer. */
  lemma ParseIntToString(i: int)
    ensures ParseInt(IntToString(i)) == Num(i)
  {
    if i < 0 {
      var s := IntToString(i);
      var d := NatToString(-i);
      assert TrimStart(s) == s;
      assert s[1..] == d;
      DigitPrefixOfDigits(d);
      ValueOfNatToString(-i);
    } else {
      ParseNatToString(i);
    }
  }

  /** `Number(String(n)) === n` for every natural number. */
  lemma ToNumberNatToString(n: nat)
    ensures ToNumber(NatToString(n)) == Num(n)
  {
    var s := NatToString(n);
    TrimOfDigits(s);
    assert !(s[0] == '-' || s[0] == '+');
    ValueOfNatToString(n);
  }

  // ---------------------------------------------------------------- values

  /** A JSON / request value, as far as the sources inspect it. */
  datatype JsValue = Undefined | Null | Bool(b: bool) | Number(x: JsNumber) | Str(s: string)
  {
    /** `!!v`: undefined, null, false, 0, NaN and '' are falsy. */
    predicate Truthy()
    {
      match this
      case Undefined => false
      case Null => false
      case Bool(b) => b
      case Number(x) => x.Truthy()
      case Str(s) => s != ""
    }

    /** `String(v)`. */
    function ToText(): string
    {
      match this
      case Undefined => "undefined"
      case Null => "null"
      case Bool(b) => if b then "true" else "false"
      case Number(x) => x.ToText()
      case Str(s) => s
    }

    /** `v || d`. */
    function Or(d: JsValue): (r: JsValue)
      ensures Truthy() ==> r == this
      ensures !Truthy() ==> r == d
    {
      if Truthy() then this else d
    }

    /** `parseInt(v)`, which first converts `v` to text. */
    function ParsedInt(): JsNumber { ParseInt(ToText()) }

    /** `Number(v)`. */
    function AsNumber(): JsNumber
    {
      match this
      case Undefined => NaN
      case Null => Num(0)
      case Bool(b) => Num(if b then 1 else 0)
      case Number(x) => x
      case Str(s) => ToNumber(s)
    }
  }

  /** `Number(v) || 0`, the sources' way of reading a quantity. */
  function QuantityOrZero(v: JsValue): int
  {
    v.AsNumber().Or(0)
  }

  /** `Math.ceil(total / limit)` for a positive limit. */
  function CeilDiv(total: int, limit: int): (r: int)
    requires limit > 0
    ensures (r - 1) * limit < total <= r * limit
  {
    if total % limit == 0 then total / limit else total / limit + 1
  }

  /** A positive product with a positive factor has the other factor at least 1. */
  lemma PositiveFactor(t: int, l: int)
    requires l > 0 && t * l > 0
    ensures t >= 1
  {
  }

  /** `String(i)` is a sign and digits only. */
  lemma IntToStringChars(i: int)
    ensures forall c :: c in IntToString(i) ==> IsDigit(c) || c == '-'
  {
    var d := NatToString(if i < 0 then -i else i);
    assert forall c :: c in d ==> IsDigit(c) by {
      forall c | c in d ensures IsDigit(c) {
        var k :| 0 <= k < |d| && d[k] == c;
      }
    }
  }

  /** `xs.map(f)`: one result per element, in order. */
  function ArrayMap<T, U>(xs: seq<T>, f: T -> U): (ys: seq<U>)
    ensures |ys| == |xs|
    ensures forall i :: 0 <= i < |xs| ==> ys[i] == f(xs[i])
  {
    seq(|xs|, i requires 0 <= i < |xs| => f(xs[i]))
  }

  /** Mapping two lists one after the other is mapping their concatenation. */
  lemma ArrayMapAppend<T, U>(a: seq<T>, b: seq<T>, f: T -> U)
    ensures ArrayMap(a + b, f) == ArrayMap(a, f) + ArrayMap(b, f)
  {
    var rab, r := ArrayMap(a + b, f), ArrayMap(a, f) + ArrayMap(b, f);
    forall i | 0 <= i < |rab|
      ensures rab[i] == r[i]
    {
      if i < |a| {
        assert (a + b)[i] == a[i];
      } else {
        assert (a + b)[i] == b[i - |a|];
      }
    }
  }
}
