/**
 * The JavaScript built-ins that several core files lean on, stated once:
 * `undefined`/`null` as an Option, `Number.prototype.toString`,
 * `toLocaleString` (en-US digit grouping), `parseInt(s, 10)`,
 * `String.prototype.includes`, `Array.prototype.join`, and `Math.round` /
 * `Math.ceil` on exact rationals.
 */
module Js {

  /** A value that may be `undefined` or `null`. */
  datatype Option<T> = None | Some(value: T) {
    function GetOr(default: T): T {
      match this
      case Some(v) => v
      case None => default
    }
  }

  // ---------------------------------------------------------------------
  // Digits

  predicate IsDigit(c: char) {
    '0' <= c <= '9'
  }

  function DigitChar(d: nat): (c: char)
    requires d < 10
    ensures IsDigit(c)
  {
    (48 + d) as char
  }

  function DigitValue(c: char): (d: nat)
    requires IsDigit(c)
    ensures d < 10
  {
    (c as int) - 48
  }

  /** `String(n)` for a non-negative integer. */
  function NatToString(n: nat): (s: string)
    ensures |s| >= 1
    ensures forall i :: 0 <= i < |s| ==> IsDigit(s[i])
  {
    if n < 10 then [DigitChar(n)] else NatToString(n / 10) + [DigitChar(n % 10)]
  }

  /** `String(n)` for any integer. */
  function IntToString(n: int): string {
    if n < 0 then "-" + NatToString(-n) else NatToString(n)
  }

  /** The value of a non-empty run of decimal digits, most significant first. */
  function DigitsValue(ds: string): nat
    requires forall i :: 0 <= i < |ds| ==> IsDigit(ds[i])
  {
    if ds == [] then 0 else DigitsValue(ds[..|ds| - 1]) * 10 + DigitValue(ds[|ds| - 1])
  }

  lemma {:induction false} DigitsOfNat(n: nat)
    ensures DigitsValue(NatToString(n)) == n
  {
    if n >= 10 {
      var s := NatToString(n);
      assert s[..|s| - 1] == NatToString(n / 10);
      DigitsOfNat(n / 10);
    }
  }

  // ---------------------------------------------------------------------
  // parseInt(s, 10)

  /** The white space and line terminators `parseInt` skips: the space separators, the controls and U+FEFF. */
  predicate IsSpace(c: char) {
    c == ' ' || c == '\t' || c == '\n' || c == '\r'
    || c as int in {0x0B, 0x0C, 0xA0, 0x1680, 0x2028, 0x2029, 0x202F, 0x205F, 0x3000, 0xFEFF}
    || 0x2000 <= c as int <= 0x200A
  }

  function TrimStart(s: string): (r: string)
    ensures |r| <= |s|
    ensures r == s[|s| - |r|..]
    ensures r != [] ==> !IsSpace(r[0])
  {
    if s != [] && IsSpace(s[0]) then TrimStart(s[1..]) else s
  }

  /** The longest prefix of `s` made of decimal digits. */
  function DigitPrefix(s: string): (r: string)
    ensures |r| <= |s| && r == s[..|r|]
    ensures forall i :: 0 <= i < |r| ==> IsDigit(r[i])
  {
    if s != [] && IsDigit(s[0]) then [s[0]] + DigitPrefix(s[1..]) else []
  }

  /**
   * `parseInt(s, 10)`: leading white space is skipped, one sign is read, then
   * the longest run of digits; `None` stands for NaN (no digit at all).
   */
  function ParseInt(s: string): (r: Option<int>)
    ensures r.None? <==> DigitPrefix(Unsigned(TrimStart(s))) == []
  {
    var t := TrimStart(s);
    var u := Unsigned(t);
    var ds := DigitPrefix(u);
    var v: int := DigitsValue(ds);
    if ds == [] then None
    else if t != [] && t[0] == '-' then Some(-v)
    else Some(v)
  }

  function Unsigned(t: string): string {
    if t != [] && (t[0] == '-' || t[0] == '+') then t[1..] else t
  }

  lemma DigitPrefixOfDigits(s: string)
    requires forall i :: 0 <= i < |s| ==> IsDigit(s[i])
    ensures DigitPrefix(s) == s
  {
  }

  /** Printing a number and parsing it back gives the number. */
  lemma {:induction false} ParseIntOfIntToString(n: int)
    ensures ParseInt(IntToString(n)) == Some(n)
  {
    var s := IntToString(n);
    var digits := NatToString(if n < 0 then -n else n);
    assert !IsSpace(s[0]);
    assert TrimStart(s) == s;
    assert Unsigned(s) == digits;
    DigitPrefixOfDigits(digits);
    DigitsOfNat(if n < 0 then -n else n);
  }

  // ---------------------------------------------------------------------
  // toLocaleString() in the en-US locale

  function Pad3(r: nat): (s: string)
    requires r < 1000
    ensures |s| == 3
  {
    [DigitChar(r / 100), DigitChar(r / 10 % 10), DigitChar(r % 10)]
  }

  function Grouped(n: nat): string {
    if n < 1000 then NatToString(n) else Grouped(n / 1000) + "," + Pad3(n % 1000)
  }

  /** `n.toLocaleString()` for an integer: groups of three digits separated by commas. */
  function ToLocaleString(n: int): string {
    if n < 0 then "-" + Grouped(-n) else Grouped(n)
  }

  /** `s.replace(/,/g, '')`. */
  function RemoveCommas(s: string): (r: string)
    ensures |r| <= |s|
    ensures ',' !in r
  {
    if s == [] then [] else (if s[0] == ',' then [] else [s[0]]) + RemoveCommas(s[1..])
  }

  lemma RemoveCommasAppend(a: string, b: string)
    ensures RemoveCommas(a + b) == RemoveCommas(a) + RemoveCommas(b)
  {
    if a == [] {
      assert a + b == b;
    } else {
      var h := if a[0] == ',' then [] else [a[0]];
      assert (a + b)[0] == a[0];
      assert (a + b)[1..] == a[1..] + b;
      RemoveCommasAppend(a[1..], b);
      assert RemoveCommas(a + b) == h + RemoveCommas(a[1..]) + RemoveCommas(b);
    }
  }

  /** Every character left after deleting the commas comes from the input. */
  lemma {:induction false} RemoveCommasChars(s: string)
    ensures forall i :: 0 <= i < |RemoveCommas(s)| ==> RemoveCommas(s)[i] in s
  {
    if s != [] {
      RemoveCommasChars(s[1..]);
      var head := if s[0] == ',' then [] else [s[0]];
      var r := RemoveCommas(s);
      assert r == head + RemoveCommas(s[1..]);
      forall i | 0 <= i < |r|
        ensures r[i] in s
      {
        if i >= |head| {
          assert r[i] == RemoveCommas(s[1..])[i - |head|];
          assert r[i] in s[1..];
        }
      }
    }
  }

  lemma RemoveCommasNoComma(s: string)
    requires ',' !in s
    ensures RemoveCommas(s) == s
  {
  }

  lemma NatToStringStep(q: nat, d: nat)
    requires q >= 1 && d < 10
    ensures NatToString(q * 10 + d) == NatToString(q) + [DigitChar(d)]
  {
    assert (q * 10 + d) / 10 == q;
    assert (q * 10 + d) % 10 == d;
  }

  lemma ThreeDigits(r: nat)
    requires r < 1000
    ensures r == r / 100 * 100 + r / 10 % 10 * 10 + r % 10
    ensures r / 100 < 10
  {
  }

  lemma NatToStringThousands(q: nat, r: nat)
    requires q >= 1 && r < 1000
    ensures NatToString(q * 1000 + r) == NatToString(q) + Pad3(r)
  {
    var a, b, c := r / 100, r / 10 % 10, r % 10;
    ThreeDigits(r);
    var qa := q * 10 + a;
    var qab := qa * 10 + b;
    NatToStringStep(q, a);
    NatToStringStep(qa, b);
    assert q * 1000 + r == qab * 10 + c;
    NatToStringStep(qab, c);
  }

  lemma RemoveCommasSeparated(g: string, p: string)
    requires ',' !in p
    ensures RemoveCommas(g + "," + p) == RemoveCommas(g) + p
  {
    var gc := g + ",";
    RemoveCommasAppend(gc, p);
    RemoveCommasAppend(g, ",");
    RemoveCommasOfComma();
    RemoveCommasNoComma(p);
    assert RemoveCommas(gc) == RemoveCommas(g);
  }

  lemma RemoveCommasOfComma()
    ensures RemoveCommas(",") == ""
  {
    assert ","[0] == ',' && ","[1..] == "";
  }

  /** Deleting the grouping commas from a locale-formatted count gives its plain digits. */
  lemma {:induction false} RemoveCommasOfGrouped(n: nat)
    ensures RemoveCommas(Grouped(n)) == NatToString(n)
  {
    if n >= 1000 {
      var q, r := n / 1000, n % 1000;
      RemoveCommasSeparated(Grouped(q), Pad3(r));
      RemoveCommasOfGrouped(q);
      NatToStringThousands(q, r);
    } else {
      RemoveCommasNoComma(NatToString(n));
    }
  }

  // ---------------------------------------------------------------------
  // Strings and arrays

  /** `s.includes(t)`. */
  predicate Includes(s: string, t: string)
    decreases |s|
  {
    (|t| <= |s| && s[..|t|] == t) || (s != [] && Includes(s[1..], t))
  }

  lemma {:induction false} IncludesAt(s: string, t: string, i: nat)
    requires i + |t| <= |s| && s[i..i + |t|] == t
    ensures Includes(s, t)
    decreases i
  {
    if i > 0 {
      assert s[1..][i - 1..i - 1 + |t|] == s[i..i + |t|];
      IncludesAt(s[1..], t, i - 1);
    }
  }

  /** `xs.join(sep)`. */
  function Join(xs: seq<string>, sep: string): string {
    if xs == [] then ""
    else if |xs| == 1 then xs[0]
    else Join(xs[..|xs| - 1], sep) + sep + xs[|xs| - 1]
  }

  /** The present results of `f` over `xs`, in order. */
  function FilterMap<T, U>(xs: seq<T>, f: T -> Option<U>): seq<U> {
    if xs == [] then [] else (if f(xs[0]).Some? then [f(xs[0]).value] else []) + FilterMap(xs[1..], f)
  }

  lemma {:induction false} FilterMapAppend<T, U>(a: seq<T>, b: seq<T>, f: T -> Option<U>)
    ensures FilterMap(a + b, f) == FilterMap(a, f) + FilterMap(b, f)
    decreases |a|
  {
    if a == [] {
      assert a + b == b;
    } else {
      var head := if f(a[0]).Some? then [f(a[0]).value] else [];
      calc {
        FilterMap(a + b, f);
      == { assert (a + b)[0] == a[0] && (a + b)[1..] == a[1..] + b; }
        head + FilterMap(a[1..] + b, f);
      == { FilterMapAppend(a[1..], b, f); }
        head + (FilterMap(a[1..], f) + FilterMap(b, f));
      ==
        (head + FilterMap(a[1..], f)) + FilterMap(b, f);
      }
    }
  }

  lemma FilterMapSnoc<T, U>(xs: seq<T>, x: T, f: T -> Option<U>)
    ensures FilterMap(xs + [x], f) == FilterMap(xs, f) + (if f(x).Some? then [f(x).value] else [])
  {
    FilterMapAppend(xs, [x], f);
    assert [x][1..] == [];
  }

  /** Every collected result comes from some element. */
  lemma {:induction false} FilterMapFrom<T, U>(xs: seq<T>, f: T -> Option<U>)
    ensures forall y :: y in FilterMap(xs, f) ==> exists k :: 0 <= k < |xs| && f(xs[k]) == Some(y)
    decreases |xs|
  {
    if xs != [] {
      FilterMapFrom(xs[1..], f);
      forall y | y in FilterMap(xs, f)
        ensures exists k :: 0 <= k < |xs| && f(xs[k]) == Some(y)
      {
        if y !in FilterMap(xs[1..], f) {
          assert f(xs[0]) == Some(y);
        } else {
          var k :| 0 <= k < |xs[1..]| && f(xs[1..][k]) == Some(y);
          assert xs[k + 1] == xs[1..][k];
        }
      }
    }
  }

  // ---------------------------------------------------------------------
  // Math on exact rationals

  lemma MulAtLeast(n: int, d: int)
    requires n > 0 && d >= 1
    ensures n * d >= n
  {
    assert n * d == n + n * (d - 1);
  }

  /** Euclidean division has one quotient and one remainder. */
  lemma DivModUnique(x: int, n: int, q: int, r: int)
    requires n > 0 && 0 <= r < n && x == q * n + r
    ensures x / n == q && x % n == r
  {
    var d := x / n - q;
    assert n * d == r - x % n;
    if d >= 1 {
      MulAtLeast(n, d);
      assert false;
    } else if d <= -1 {
      MulAtLeast(n, -d);
      assert false;
    }
    assert d == 0;
  }

  /** `Math.round(x)`: halves go up. */
  function Round(x: real): (r: int)
    ensures x - 0.5 < r as real <= x + 0.5
  {
    (x + 0.5).Floor
  }

  /** `Math.ceil(x)`. */
  function Ceil(x: real): (r: int)
    ensures x <= r as real < x + 1.0
  {
    -((-x).Floor)
  }
}
