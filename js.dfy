/** JavaScript value semantics shared by the backend and the frontend models:
    nullish values, truthiness, `Number(...)` coercion (string parsing is a
    parameter), ASCII case mapping, `trim`, decimal rendering of integers,
    and `join`/`split` on a one-character separator. */
module Js {

  datatype Option<T> = None | Some(value: T)

  /** `a ?? b` for a value that is either nullish (None) or present. */
  function OrElse<T>(a: Option<T>, b: Option<T>): Option<T> {
    if a.Some? then a else b
  }

  /** `a ?? d` with a present default. */
  function OrDefault<T>(v: Option<T>, d: T): T {
    if v.Some? then v.value else d
  }

  /** A JavaScript number: NaN, one of the two infinities, or a finite value. */
  datatype JsNumber = NaN | Infinity(positive: bool) | Finite(r: real)

  /** The JSON-shaped values a request body or query field can hold. */
  datatype JsValue = Undefined | Null | Bool(b: bool) | Num(n: JsNumber) | Str(s: string)

  predicate Truthy(v: JsValue) {
    match v
    case Undefined => false
    case Null => false
    case Bool(b) => b
    case Num(n) => !n.NaN? && n != Finite(0.0)
    case Str(s) => s != ""
  }

  /** `Number(v)`; the conversion of a string is the parameter `parse`. */
  function ToNumber(v: JsValue, parse: string -> JsNumber): JsNumber {
    match v
    case Undefined => NaN
    case Null => Finite(0.0)
    case Bool(b) => Finite(if b then 1.0 else 0.0)
    case Num(n) => n
    case Str(s) => parse(s)
  }

  /** `Number.isInteger(n)`. */
  predicate IsInteger(n: JsNumber) {
    n.Finite? && n.r.Floor as real == n.r
  }

  /** A string is truthy iff it is not empty. */
  predicate TruthyStr(s: Option<string>) {
    s.Some? && s.value != ""
  }

  // ---------------------------------------------------------------- case

  function LowerChar(c: char): char {
    if 'A' <= c <= 'Z' then (c as int + 32) as char else c
  }

  function UpperChar(c: char): char {
    if 'a' <= c <= 'z' then (c as int - 32) as char else c
  }

  /** `toLowerCase()` on the ASCII letters. */
  function Lower(s: string): (r: string)
    ensures |r| == |s|
    ensures forall i :: 0 <= i < |s| ==> r[i] == LowerChar(s[i])
  {
    seq(|s|, i requires 0 <= i < |s| => LowerChar(s[i]))
  }

  /** `toUpperCase()` on the ASCII letters. */
  function Upper(s: string): (r: string)
    ensures |r| == |s|
    ensures forall i :: 0 <= i < |s| ==> r[i] == UpperChar(s[i])
  {
    seq(|s|, i requires 0 <= i < |s| => UpperChar(s[i]))
  }

  lemma LowerIdempotent(s: string)
    ensures Lower(Lower(s)) == Lower(s)
  {
    assert forall i :: 0 <= i < |s| ==> LowerChar(LowerChar(s[i])) == LowerChar(s[i]);
  }

  // ---------------------------------------------------------------- trim

  predicate IsSpace(c: char) {
    c == ' ' || c == '\t' || c == '\n' || c == '\r' || c == '\U{000B}' || c == '\U{000C}' || c == '\U{00A0}'
  }

  predicate AllSpace(s: string) {
    forall i :: 0 <= i < |s| ==> IsSpace(s[i])
  }

  /** Dropping a leading space: what follows index `k` of the rest follows `k + 1`
      of the whole, and the dropped prefix grows by that space. */
  lemma DropFirstSpace(s: string, k: nat)
    requires |s| > 0 && IsSpace(s[0]) && k <= |s| - 1 && AllSpace(s[1..][..k])
    ensures s[1..][k..] == s[k + 1..] && AllSpace(s[..k + 1])
  {
    assert s[..k + 1] == [s[0]] + s[1..][..k];
  }

  /** Dropping a trailing space: the kept prefix is the same, and the dropped
      suffix grows by that space. */
  lemma DropLastSpace(s: string, n: nat)
    requires |s| > 0 && IsSpace(s[|s| - 1]) && n <= |s| - 1 && AllSpace(s[..|s| - 1][n..])
    ensures s[..|s| - 1][..n] == s[..n] && AllSpace(s[n..])
  {
    assert forall i :: 0 <= i < |s| - 1 - n ==> s[n..][i] == s[..|s| - 1][n..][i];
  }

  function TrimStart(s: string): (r: string)
    ensures r == [] || !IsSpace(r[0])
  {
    if |s| > 0 && IsSpace(s[0]) then TrimStart(s[1..]) else s
  }

  function TrimEnd(s: string): (r: string)
    ensures r == [] || (!IsSpace(r[|r| - 1]) && |s| > 0 && r[0] == s[0])
  {
    if |s| > 0 && IsSpace(s[|s| - 1]) then TrimEnd(s[..|s| - 1]) else s
  }

  /** `trim()`: no leading and no trailing white space remains. */
  function Trim(s: string): (r: string)
    ensures r == [] || (!IsSpace(r[0]) && !IsSpace(r[|r| - 1]))
  {
    TrimEnd(TrimStart(s))
  }

  /** `trimStart` drops white space, and only white space, from the front. */
  lemma {:induction false} TrimStartIsSuffix(s: string)
    ensures var r := TrimStart(s); |r| <= |s| && r == s[|s| - |r|..] && AllSpace(s[..|s| - |r|])
  {
    if |s| > 0 && IsSpace(s[0]) {
      TrimStartIsSuffix(s[1..]);
      DropFirstSpace(s, |s| - 1 - |TrimStart(s[1..])|);
    }
  }

  /** `trimEnd` drops white space, and only white space, from the back. */
  lemma {:induction false} TrimEndIsPrefix(s: string)
    ensures var r := TrimEnd(s); |r| <= |s| && r == s[..|r|] && AllSpace(s[|r|..])
  {
    if |s| > 0 && IsSpace(s[|s| - 1]) {
      TrimEndIsPrefix(s[..|s| - 1]);
      DropLastSpace(s, |TrimEnd(s[..|s| - 1])|);
    }
  }

  /** `r` is `s` from index `k` on, with white space only before `k` and after `r`. */
  predicate TrimmedSlice(s: string, r: string, k: int) {
    0 <= k && k + |r| <= |s| && r == s[k..k + |r|] && AllSpace(s[..k]) && AllSpace(s[k + |r|..])
  }

  /** `trim()` keeps a contiguous part of `s` and drops only white space around it. */
  lemma TrimIsSlice(s: string)
    ensures TrimmedSlice(s, Trim(s), |s| - |TrimStart(s)|)
  {
    var t := TrimStart(s);
    TrimStartIsSuffix(s);
    TrimEndIsPrefix(t);
    SliceOfSuffix(s, |s| - |t|, |TrimEnd(t)|);
  }

  /** The front of a suffix is a slice of the whole. */
  lemma SliceOfSuffix(s: string, k: nat, n: nat)
    requires k <= |s| && n <= |s| - k && AllSpace(s[k..][n..])
    ensures s[k..][..n] == s[k..k + n] && AllSpace(s[k + n..])
  {
    assert s[k..][n..] == s[k + n..];
  }

  predicate IsTrimmed(s: string) {
    s == [] || (!IsSpace(s[0]) && !IsSpace(s[|s| - 1]))
  }

  /** A string without surrounding white space is its own trim. */
  lemma TrimOfTrimmed(s: string)
    requires IsTrimmed(s)
    ensures Trim(s) == s
  {
  }

  lemma TrimIdempotent(s: string)
    ensures Trim(Trim(s)) == Trim(s)
  {
    TrimOfTrimmed(Trim(s));
  }

  // ---------------------------------------------------------------- numbers as text

  predicate IsDigit(c: char) {
    '0' <= c <= '9'
  }

  predicate AllDigits(s: string) {
    forall i :: 0 <= i < |s| ==> IsDigit(s[i])
  }

  function DigitChar(d: nat): char
    requires d < 10
  {
    (48 + d) as char
  }

  /** `String(n)` for a non-negative integer. */
  function NatToString(n: nat): (r: string)
    ensures |r| >= 1 && AllDigits(r)
  {
    if n < 10 then [DigitChar(n)] else NatToString(n / 10) + [DigitChar(n % 10)]
  }

  /** `String(i)` for any integer. */
  function IntToString(i: int): string {
    if i < 0 then "-" + NatToString(-i) else NatToString(i)
  }

  /** The value of a string of decimal digits. */
  function DigitsValue(s: string): nat
    requires AllDigits(s)
  {
    if s == [] then 0 else DigitsValue(s[..|s| - 1]) * 10 + (s[|s| - 1] as int - 48)
  }

  /** Reading back the decimal rendering gives the number. */
  lemma {:induction false} DigitsValueOfNatToString(n: nat)
    ensures DigitsValue(NatToString(n)) == n
  {
    var s := NatToString(n);
    if n >= 10 {
      DigitsValueOfNatToString(n / 10);
      assert s[..|s| - 1] == NatToString(n / 10);
    }
  }

  lemma NatToStringInjective(m: nat, n: nat)
    requires NatToString(m) == NatToString(n)
    ensures m == n
  {
    DigitsValueOfNatToString(m);
    DigitsValueOfNatToString(n);
  }

  // ---------------------------------------------------------------- join / split

  /** `xs.join(sep)`. */
  function Join(xs: seq<string>, sep: string): string {
    if |xs| == 0 then "" else if |xs| == 1 then xs[0] else xs[0] + sep + Join(xs[1..], sep)
  }

  /** A join starts with its first piece. */
  lemma JoinStartsWithFirst(xs: seq<string>, sep: string)
    requires |xs| >= 1
    ensures |Join(xs, sep)| >= |xs[0]| && Join(xs, sep)[..|xs[0]|] == xs[0]
  {
    if |xs| > 1 {
      assert Join(xs, sep) == xs[0] + (sep + Join(xs[1..], sep));
    }
  }

  /** Joining one more piece adds the separator and the piece at the end. */
  lemma {:induction false} JoinSnoc(xs: seq<string>, y: string, sep: string)
    requires |xs| >= 1
    ensures Join(xs + [y], sep) == Join(xs, sep) + sep + y
  {
    if |xs| > 1 {
      JoinSnoc(xs[1..], y, sep);
      assert (xs + [y])[1..] == xs[1..] + [y];
    }
  }

  /** `s.split(c)` for a one-character separator: always at least one piece. */
  function Split(s: string, c: char): (r: seq<string>)
    ensures |r| >= 1
  {
    if |s| == 0 then [""]
    else
      var rest := Split(s[1..], c);
      if s[0] == c then [""] + rest else [[s[0]] + rest[0]] + rest[1..]
  }

  lemma {:induction false} SplitNoSeparator(s: string, c: char)
    requires c !in s
    ensures Split(s, c) == [s]
  {
    if |s| > 0 {
      SplitNoSeparator(s[1..], c);
      assert s[0] != c;
      assert [s[0]] + s[1..] == s;
    }
  }

  lemma {:induction false} SplitAfterPiece(x: string, c: char, y: string)
    requires c !in x
    ensures Split(x + [c] + y, c) == [x] + Split(y, c)
  {
    if |x| == 0 {
      assert x + [c] + y == [c] + y;
      assert ([c] + y)[1..] == y;
    } else {
      SplitAfterPiece(x[1..], c, y);
      assert (x + [c] + y)[1..] == x[1..] + [c] + y;
      assert [x[0]] + x[1..] == x;
    }
  }

  /** Splitting a join of separator-free pieces gives the pieces back. */
  lemma {:induction false} SplitJoin(xs: seq<string>, c: char)
    requires |xs| >= 1
    requires forall i :: 0 <= i < |xs| ==> c !in xs[i]
    ensures Split(Join(xs, [c]), c) == xs
  {
    if |xs| == 1 {
      SplitNoSeparator(xs[0], c);
    } else {
      SplitJoin(xs[1..], c);
      SplitAfterPiece(xs[0], c, Join(xs[1..], [c]));
      assert [xs[0]] + xs[1..] == xs;
    }
  }

  // ---------------------------------------------------------------- lists

  /** `xs.filter((y) => y !== x)`. */
  function RemoveAll<T(==,!new)>(xs: seq<T>, x: T): (r: seq<T>)
    ensures x !in r
    ensures forall y :: y != x ==> (y in r <==> y in xs)
    ensures |r| <= |xs|
  {
    if |xs| == 0 then [] else (if xs[0] == x then [] else [xs[0]]) + RemoveAll(xs[1..], x)
  }

  /** `xs.filter((y) => keep.includes(y))`. */
  function KeepIn<T(==,!new)>(xs: seq<T>, keep: seq<T>): (r: seq<T>)
    ensures forall y :: y in r <==> (y in xs && y in keep)
    ensures |r| <= |xs|
  {
    if |xs| == 0 then [] else (if xs[0] in keep then [xs[0]] else []) + KeepIn(xs[1..], keep)
  }

  predicate NoDuplicates<T(==,!new)>(xs: seq<T>) {
    forall i, j :: 0 <= i < j < |xs| ==> xs[i] != xs[j]
  }

  /** `Array.from(new Set(xs))`: first occurrences, in order. */
  function Dedup<T(==,!new)>(xs: seq<T>): (r: seq<T>)
    ensures forall y :: y in r <==> y in xs
    ensures NoDuplicates(r)
  {
    var r := DedupAfter(xs, []);
    assert [] + r == r;
    r
  }

  function DedupAfter<T(==,!new)>(xs: seq<T>, seen: seq<T>): (r: seq<T>)
    requires NoDuplicates(seen)
    ensures NoDuplicates(seen + r)
    ensures forall y :: y in r <==> (y in xs && y !in seen)
  {
    if |xs| == 0 then []
    else if xs[0] in seen then DedupAfter(xs[1..], seen)
    else
      var rest := DedupAfter(xs[1..], seen + [xs[0]]);
      assert seen + [xs[0]] + rest == seen + ([xs[0]] + rest);
      [xs[0]] + rest
  }

  /** Dropping repeats from a list extended by one element. */
  lemma {:induction false} DedupAfterSnoc<T(!new)>(xs: seq<T>, x: T, seen: seq<T>)
    requires NoDuplicates(seen)
    ensures DedupAfter(xs + [x], seen) ==
      DedupAfter(xs, seen) + (if x in seen || x in xs then [] else [x])
  {
    if |xs| == 0 {
      assert xs + [x] == [x];
      assert [x][1..] == [];
    } else {
      var ys := xs + [x];
      assert ys[0] == xs[0] && ys[1..] == xs[1..] + [x];
      assert xs == [xs[0]] + xs[1..];
      if xs[0] in seen {
        DedupAfterSnoc(xs[1..], x, seen);
        assert DedupAfter(ys, seen) == DedupAfter(xs[1..] + [x], seen);
        assert (x in seen || x in xs[1..]) == (x in seen || x in xs);
      } else {
        var seen' := seen + [xs[0]];
        assert NoDuplicates(seen') by {
          assert forall i :: 0 <= i < |seen| ==> seen'[i] == seen[i];
        }
        DedupAfterSnoc(xs[1..], x, seen');
        assert DedupAfter(ys, seen) == [xs[0]] + DedupAfter(xs[1..] + [x], seen');
        assert DedupAfter(xs, seen) == [xs[0]] + DedupAfter(xs[1..], seen');
        assert (x in seen' || x in xs[1..]) == (x in seen || x in xs);
      }
    }
  }

  /** `Array.from(new Set(xs))` of a list extended by one element: the element
      is appended iff it was not already there, so the output keeps first
      occurrences in input order. */
  lemma DedupSnoc<T(!new)>(xs: seq<T>, x: T)
    ensures Dedup(xs + [x]) == Dedup(xs) + (if x in xs then [] else [x])
  {
    DedupAfterSnoc(xs, x, []);
  }
}
