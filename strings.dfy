/**
 * String helpers with the semantics of the Python and JavaScript built-ins the
 * source relies on: slicing, `str.lower`, `str.strip` / `String.prototype.trim`,
 * `str.split` / `String.prototype.split` on one character, `join`, `str(int)`,
 * `int(str)` and the `icontains` lookup.
 */
module Strings {
  import opened Wrappers

  /** Python's `s[:n]`: the first `n` characters, or all of `s` when shorter. */
  function Take(s: string, n: nat): (r: string)
    ensures |r| <= n && |r| <= |s|
    ensures |s| <= n ==> r == s
    ensures |s| > n ==> |r| == n
    ensures r == s[..|r|]
  {
    if |s| <= n then s else s[..n]
  }

  /** `s.startswith(p)` */
  predicate StartsWith(s: string, p: string) {
    |p| <= |s| && s[..|p|] == p
  }

  lemma StartsWithConcat(p: string, t: string)
    ensures StartsWith(p + t, p) && (p + t)[|p|..] == t
  {
    assert (p + t)[..|p|] == p;
  }

  predicate IsDigit(c: char) {
    '0' <= c <= '9'
  }

  /** ASCII case folding; letters outside A-Z are left alone. */
  function LowerChar(c: char): char {
    if 'A' <= c <= 'Z' then (c as int + 32) as char else c
  }

  function Lower(s: string): (r: string)
    ensures |r| == |s|
  {
    seq(|s|, i requires 0 <= i < |s| => LowerChar(s[i]))
  }

  /** Lower-casing twice is lower-casing once. */
  lemma LowerIdempotent(s: string)
    ensures Lower(Lower(s)) == Lower(s)
  {
    var l := Lower(s);
    forall i | 0 <= i < |s| ensures Lower(l)[i] == l[i] {
      assert l[i] == LowerChar(s[i]);
    }
  }

  /** A text is what lies before a position, the character there, and what lies after. */
  lemma CutAround(s: string, k: nat)
    requires k < |s|
    ensures s == s[..k] + [s[k]] + s[k + 1..]
  {
  }

  /** Every character is its own lower case. */
  predicate IsLower(s: string) {
    forall i :: 0 <= i < |s| ==> LowerChar(s[i]) == s[i]
  }

  /** Lower-cased text is lower case. */
  lemma LowerIsLower(s: string)
    ensures IsLower(Lower(s))
  {
  }

  /** Lower-casing leaves every suffix of lower-case text alone. */
  lemma LowerSuffixKept(s: string, j: nat)
    requires IsLower(s) && j <= |s|
    ensures Lower(s[j..]) == s[j..]
  {
    var t := s[j..];
    forall i | 0 <= i < |t| ensures Lower(t)[i] == t[i] {
      assert t[i] == s[j + i];
    }
  }

  /** Lower-casing moves no character into or out of white space, so a trimmed text stays trimmed. */
  lemma LowerKeepsTrimmed(s: string, rt: Runtime)
    requires Trimmed(s, rt)
    ensures Trimmed(Lower(s), rt)
  {
    if s != [] {
      assert Lower(s)[0] == LowerChar(s[0]) && Lower(s)[|s| - 1] == LowerChar(s[|s| - 1]);
    }
  }

  /** Where `s.rsplit(c, 1)` cuts: the position of the last `c`, or None when there is none. */
  function LastIndex(s: string, c: char): (r: Option<nat>)
    ensures r.Some? ==> r.value < |s| && s[r.value] == c && c !in s[r.value + 1..]
    ensures r.None? ==> c !in s
    decreases |s|
  {
    if |s| == 0 then None
    else if s[|s| - 1] == c then Some(|s| - 1)
    else
      var r := LastIndex(s[..|s| - 1], c);
      assert s == s[..|s| - 1] + [s[|s| - 1]];
      assert r.Some? ==> s[r.value + 1..] == s[..|s| - 1][r.value + 1..] + [s[|s| - 1]];
      r
  }

  /** A string split, trimmed or compared by one of the two runtimes' notion of white space. */
  datatype Runtime = Python | JavaScript

  /**
   * Python's `str.isspace` for one character, and the white space and line
   * terminators that ECMAScript's `trim` removes.
   */
  predicate IsSpace(rt: Runtime, c: char) {
    var k := c as int;
    9 <= k <= 13 || k == 32 || k == 0xA0 || k == 0x1680 || 0x2000 <= k <= 0x200A
    || k == 0x2028 || k == 0x2029 || k == 0x202F || k == 0x205F || k == 0x3000
    || (rt == Python && (28 <= k <= 31 || k == 0x85))
    || (rt == JavaScript && k == 0xFEFF)
  }

  function StripLeft(s: string, rt: Runtime): (r: string)
    ensures |r| <= |s|
    ensures r == [] || !IsSpace(rt, r[0])
    ensures forall i {:trigger IsSpace(rt, s[i])} :: 0 <= i < |s| - |r| ==> IsSpace(rt, s[i])
  {
    if |s| > 0 && IsSpace(rt, s[0]) then StripLeft(s[1..], rt) else s
  }

  function StripRight(s: string, rt: Runtime): (r: string)
    ensures |r| <= |s|
    ensures r == [] || !IsSpace(rt, r[|r| - 1])
    ensures forall i {:trigger IsSpace(rt, s[i])} :: |r| <= i < |s| ==> IsSpace(rt, s[i])
  {
    if |s| > 0 && IsSpace(rt, s[|s| - 1]) then StripRight(s[..|s| - 1], rt) else s
  }

  /** Stripping the left end keeps a suffix. */
  lemma {:induction false} StripLeftSuffix(s: string, rt: Runtime)
    ensures StripLeft(s, rt) == s[|s| - |StripLeft(s, rt)|..]
    decreases |s|
  {
    if |s| > 0 && IsSpace(rt, s[0]) {
      StripLeftSuffix(s[1..], rt);
      assert s[1..][|s| - 1 - |StripLeft(s, rt)|..] == s[|s| - |StripLeft(s, rt)|..];
    }
  }

  /** Stripping the right end keeps a prefix. */
  lemma {:induction false} StripRightPrefix(s: string, rt: Runtime)
    ensures StripRight(s, rt) == s[..|StripRight(s, rt)|]
    decreases |s|
  {
    if |s| > 0 && IsSpace(rt, s[|s| - 1]) {
      StripRightPrefix(s[..|s| - 1], rt);
      assert s[..|s| - 1][..|StripRight(s, rt)|] == s[..|StripRight(s, rt)|];
    }
  }

  /** Python's `s.strip()` (rt == Python) or JavaScript's `s.trim()` (rt == JavaScript). */
  function Strip(s: string, rt: Runtime): (r: string)
    ensures r == [] || (!IsSpace(rt, r[0]) && !IsSpace(rt, r[|r| - 1]))
    ensures |r| <= |s|
  {
    var l := StripLeft(s, rt);
    StripRightPrefix(l, rt);
    StripRight(l, rt)
  }

  predicate Trimmed(s: string, rt: Runtime) {
    s == [] || (!IsSpace(rt, s[0]) && !IsSpace(rt, s[|s| - 1]))
  }

  lemma StripTrimmed(s: string, rt: Runtime)
    requires Trimmed(s, rt)
    ensures Strip(s, rt) == s
  {
  }

  /** One leading space in front of a trimmed, non-empty string is all that `strip` removes. */
  lemma StripSpacePrefixed(s: string, rt: Runtime)
    requires s != [] && Trimmed(s, rt)
    ensures Strip(" " + s, rt) == s
  {
    assert (" " + s)[1..] == s;
    assert StripLeft(" " + s, rt) == StripLeft(s, rt) == s;
    assert StripRight(s, rt) == s;
  }

  /** `s.split(c)` for a one-character separator: the pieces between separators, empty ones included. */
  function Split(s: string, c: char): (r: seq<string>)
    ensures |r| >= 1
    decreases |s|
  {
    if |s| == 0 then [""]
    else
      var rest := Split(s[1..], c);
      if s[0] == c then [""] + rest else [[s[0]] + rest[0]] + rest[1..]
  }

  lemma {:induction false} SplitNoSeparator(s: string, c: char)
    requires c !in s
    ensures Split(s, c) == [s]
    decreases |s|
  {
    if |s| > 0 {
      SplitNoSeparator(s[1..], c);
      assert [s[0]] + s[1..] == s;
    }
  }

  /** Splitting at a separator splits the two sides independently. */
  lemma {:induction false} SplitAtSeparator(x: string, c: char, b: string)
    ensures Split(x + [c] + b, c) == Split(x, c) + Split(b, c)
    decreases |x|
  {
    var s := x + [c] + b;
    if |x| == 0 {
      assert s[0] == c && s[1..] == b;
      assert Split(s, c) == [""] + Split(b, c);
    } else {
      SplitAtSeparator(x[1..], c, b);
      assert s[0] == x[0] && s[1..] == x[1..] + [c] + b;
      SplitSameFirst(x, s, c, Split(b, c));
    }
  }

  /**
   * Two texts that start alike and whose remainders split alike up to the
   * pieces `more` split alike up to `more`.
   */
  lemma SplitSameFirst(x: string, s: string, c: char, more: seq<string>)
    requires |x| > 0 && |s| > 0 && s[0] == x[0]
    requires Split(s[1..], c) == Split(x[1..], c) + more
    ensures Split(s, c) == Split(x, c) + more
  {
    var tail := Split(x[1..], c);
    if x[0] != c {
      var head := [x[0]] + tail[0];
      assert Split(s[1..], c)[1..] == tail[1..] + more;
      assert [head] + (tail[1..] + more) == ([head] + tail[1..]) + more;
    }
  }

  /** The last piece of `s.split(c)`, i.e. Python's `s.split(c)[-1]`. */
  function LastSegment(s: string, c: char): string {
    var parts := Split(s, c);
    parts[|parts| - 1]
  }

  lemma LastSegmentAfterSeparator(a: string, c: char, b: string)
    requires c !in b
    ensures LastSegment(a + [c] + b, c) == b
  {
    SplitAtSeparator(a, c, b);
    SplitNoSeparator(b, c);
  }

  /** `sep.join(xs)` in Python, `xs.join(sep)` in JavaScript. */
  function Join(xs: seq<string>, sep: string): string
    decreases |xs|
  {
    if |xs| == 0 then ""
    else if |xs| == 1 then xs[0]
    else xs[0] + sep + Join(xs[1..], sep)
  }

  /** SQL `LIKE '%needle%'`: `needle` occurs as a contiguous piece of `hay`. */
  predicate Contains(hay: string, needle: string)
    decreases |hay|
  {
    StartsWith(hay, needle) || (|hay| > 0 && Contains(hay[1..], needle))
  }

  lemma {:induction false} ContainsAt(hay: string, needle: string, i: nat)
    requires i + |needle| <= |hay| && hay[i..i + |needle|] == needle
    ensures Contains(hay, needle)
    decreases i
  {
    if i > 0 {
      assert hay[1..][i - 1..i - 1 + |needle|] == needle;
      ContainsAt(hay[1..], needle, i - 1);
    }
  }

  /** Django's `name__icontains=q`, on ASCII case. */
  predicate IContains(name: string, q: string) {
    Contains(Lower(name), Lower(q))
  }

  function DigitChar(d: nat): (c: char)
    requires d < 10
    ensures IsDigit(c)
  {
    ('0' as int + d) as char
  }

  /** `str(n)` for a non-negative integer. */
  function NatToString(n: nat): (r: string)
    ensures |r| >= 1
    ensures forall i :: 0 <= i < |r| ==> IsDigit(r[i])
    decreases n
  {
    if n < 10 then [DigitChar(n)] else NatToString(n / 10) + [DigitChar(n % 10)]
  }

  /** `str(i)` for any integer. */
  function IntToString(i: int): string {
    if i < 0 then "-" + NatToString(-i) else NatToString(i)
  }

  /** `str(n)` left-padded with zeros to `width` characters, as `strftime` does for its fields. */
  function ZeroPad(n: nat, width: nat): (r: string)
    ensures |r| >= width
    ensures forall i :: 0 <= i < |r| ==> IsDigit(r[i])
  {
    var s := NatToString(n);
    if |s| >= width then s else seq(width - |s|, _ => '0') + s
  }

  function Pow10(w: nat): (r: nat)
    ensures r >= 1
  {
    if w == 0 then 1 else 10 * Pow10(w - 1)
  }

  /** A number below 10^w has at most w digits. */
  lemma {:induction false} NatToStringWidth(n: nat, w: nat)
    requires w >= 1 && n < Pow10(w)
    ensures |NatToString(n)| <= w
    decreases n
  {
    if n >= 10 {
      assert w >= 2;
      assert n / 10 < Pow10(w - 1);
      NatToStringWidth(n / 10, w - 1);
    }
  }

  /** A field below 10^w pads to exactly w characters. */
  lemma ZeroPadWidth(n: nat, w: nat)
    requires w >= 1 && n < Pow10(w)
    ensures |ZeroPad(n, w)| == w
  {
    NatToStringWidth(n, w);
  }

  /** The value of a string of ASCII digits. */
  function DigitsValue(s: string): nat
    requires forall i :: 0 <= i < |s| ==> IsDigit(s[i])
  {
    if |s| == 0 then 0
    else
      assert IsDigit(s[|s| - 1]);
      DigitsValue(s[..|s| - 1]) * 10 + (s[|s| - 1] as int - '0' as int)
  }

  lemma {:induction false} DigitsValueOfNatToString(n: nat)
    ensures DigitsValue(NatToString(n)) == n
    decreases n
  {
    var s := NatToString(n);
    if n >= 10 {
      DigitsValueOfNatToString(n / 10);
      assert s[..|s| - 1] == NatToString(n / 10);
    }
  }

  /** The digits of Python's integer literal syntax: digits, single underscores allowed between two digits. */
  predicate WellFormedDigits(s: string) {
    && |s| > 0
    && forall i :: 0 <= i < |s| ==> IsDigit(s[i]) || (s[i] == '_' && BetweenDigits(s, i))
  }

  /** Position `i` has a digit on both sides. */
  predicate BetweenDigits(s: string, i: int) {
    0 < i < |s| - 1 && IsDigit(s[i - 1]) && IsDigit(s[i + 1])
  }

  function RemoveUnderscores(s: string): string
    decreases |s|
  {
    if |s| == 0 then "" else (if s[0] == '_' then "" else [s[0]]) + RemoveUnderscores(s[1..])
  }

  lemma {:induction false} RemoveUnderscoresDigits(s: string)
    requires forall i :: 0 <= i < |s| ==> IsDigit(s[i]) || s[i] == '_'
    ensures forall i :: 0 <= i < |RemoveUnderscores(s)| ==> IsDigit(RemoveUnderscores(s)[i])
    decreases |s|
  {
    if |s| > 0 {
      RemoveUnderscoresDigits(s[1..]);
    }
  }

  lemma {:induction false} RemoveUnderscoresNone(s: string)
    requires forall i :: 0 <= i < |s| ==> IsDigit(s[i])
    ensures RemoveUnderscores(s) == s
    decreases |s|
  {
    if |s| > 0 {
      RemoveUnderscoresNone(s[1..]);
      assert [s[0]] + s[1..] == s;
    }
  }

  /** The value of `int(s)` for an unsigned, already stripped digit string, or None where Python raises. */
  function ParseDigits(s: string): Option<nat> {
    if WellFormedDigits(s) then
      RemoveUnderscoresDigits(s);
      Some(DigitsValue(RemoveUnderscores(s)))
    else None
  }

  /**
   * Python's `int(s)` on a string in base 10: surrounding white space is
   * ignored, one optional sign, then digits; None stands for the ValueError.
   */
  function ParsePyInt(s: string): Option<int> {
    var t := Strip(s, Python);
    if |t| > 0 && (t[0] == '+' || t[0] == '-') then
      match ParseDigits(t[1..])
      case None => None
      case Some(v) => var i: int := v; Some(if t[0] == '-' then -i else i)
    else
      match ParseDigits(t)
      case None => None
      case Some(v) => Some(v)
  }

  /** `int(str(n)) == n`: the ids the engine writes into reply ids parse back. */
  lemma ParsePyIntOfNatToString(n: nat)
    ensures ParsePyInt(NatToString(n)) == Some(n)
  {
    var s := NatToString(n);
    assert IsDigit(s[0]) && IsDigit(s[|s| - 1]);
    assert Trimmed(s, Python);
    StripTrimmed(s, Python);
    assert Strip(s, Python) == s;
    assert s[0] != '+' && s[0] != '-';
    assert WellFormedDigits(s);
    RemoveUnderscoresNone(s);
    DigitsValueOfNatToString(n);
    assert ParseDigits(s) == Some(n);
  }

  /** `int(s)` never accepts the empty string. */
  lemma ParsePyIntEmpty()
    ensures ParsePyInt("") == None
  {
  }

  /**
   * Python's `str(Decimal)` of a two-place decimal held as integer cents,
   * e.g. 1250 is "12.50" and -5 is "-0.05".
   */
  function CentsText(cents: int): string {
    var a := if cents < 0 then -cents else cents;
    (if cents < 0 then "-" else "") + NatToString(a / 100) + "." + [DigitChar(a % 100 / 10), DigitChar(a % 10)]
  }
}
