/** String helpers the integration relies on through Python built-ins:
    `str(int)`, `str.startswith`, the `in` substring test, `str.lower`,
    `str.strip` and slicing. */
module Text {
  import opened Wrappers

  /** Python truthiness of an optional string: present and non-empty. */
  predicate Present(o: Option<string>) {
    o.Some? && o.value != ""
  }

  function Min(a: int, b: int): int {
    if a <= b then a else b
  }

  // ---------------------------------------------------------------------------
  // Decimal rendering of integers, as Python's `str(int)` and f-strings do it
  // ---------------------------------------------------------------------------

  predicate IsDigit(c: char) {
    '0' <= c <= '9'
  }

  predicate AllDigits(s: string) {
    forall i :: 0 <= i < |s| ==> IsDigit(s[i])
  }

  function DigitChar(d: nat): (c: char)
    requires d < 10
    ensures IsDigit(c)
    ensures c as int - '0' as int == d
  {
    (d + '0' as int) as char
  }

  function DigitValue(c: char): (d: nat)
    requires IsDigit(c)
    ensures d < 10
  {
    c as int - '0' as int
  }

  /** The decimal rendering of `n`: digits only, and no leading zero unless `n` is 0. */
  function NatToString(n: nat): (s: string)
    ensures |s| >= 1
    ensures AllDigits(s)
    ensures (s[0] == '0') <==> (n == 0)
    decreases n
  {
    if n < 10 then [DigitChar(n)] else NatToString(n / 10) + [DigitChar(n % 10)]
  }

  /** Python's `str(i)`: a minus sign before the digits of a negative number. */
  function IntToString(i: int): (s: string)
    ensures |s| >= 1
    ensures (s[0] == '-') <==> (i < 0)
  {
    if i < 0 then "-" + NatToString(-i) else NatToString(i)
  }

  /** The number a string of decimal digits denotes. */
  function DigitsValue(s: string): nat
    requires AllDigits(s)
    decreases |s|
  {
    if |s| == 0 then 0 else DigitsValue(s[..|s| - 1]) * 10 + DigitValue(s[|s| - 1])
  }

  /** Decimal digits in the form `str(n)` writes them: no leading zero unless the text is "0". */
  predicate Canonical(s: string) {
    |s| > 0 && AllDigits(s) && (s[0] != '0' || |s| == 1)
  }

  /** Reads the decimal text of a natural number, as `str(n)` writes it. */
  function ParseNat(s: string): Option<nat> {
    if Canonical(s) then Some(DigitsValue(s)) else None
  }

  /** Reads the text of an integer, as `str(i)` writes it; "-0" is not such a text. */
  function ParseInt(s: string): Option<int> {
    if |s| > 0 && s[0] == '-' then
      match ParseNat(s[1..])
      case Some(n) => if n == 0 then None else Some(-(n as int))
      case None => None
    else
      match ParseNat(s)
      case Some(n) => Some(n)
      case None => None
  }

  lemma {:induction false} DigitsValueOfNatToString(n: nat)
    ensures DigitsValue(NatToString(n)) == n
    decreases n
  {
    if n >= 10 {
      var p := NatToString(n / 10);
      var s := p + [DigitChar(n % 10)];
      assert s[..|s| - 1] == p;
      DigitsValueOfNatToString(n / 10);
    }
  }

  /** Reading back the rendering of a natural number gives the number. */
  lemma NatToStringRoundTrip(n: nat)
    ensures ParseNat(NatToString(n)) == Some(n)
  {
    DigitsValueOfNatToString(n);
  }

  /** Reading back the rendering of any integer gives the integer. */
  lemma IntToStringRoundTrip(i: int)
    ensures ParseInt(IntToString(i)) == Some(i)
  {
    if i < 0 {
      assert IntToString(i)[1..] == NatToString(-i);
      NatToStringRoundTrip(-i);
    } else {
      NatToStringRoundTrip(i);
    }
  }

  /** A canonical digit string whose first digit is not 0 denotes a positive number. */
  lemma {:induction false} LeadingDigitPositive(s: string)
    requires |s| > 0 && AllDigits(s) && s[0] != '0'
    ensures DigitsValue(s) >= 1
    decreases |s|
  {
    if |s| > 1 {
      LeadingDigitPositive(s[..|s| - 1]);
    }
  }

  /** Only the rendering of a number parses: whatever `ParseNat` accepts is
      exactly the text `str(n)` writes for the number it returns. */
  lemma {:induction false} ParseNatCanonical(s: string)
    requires ParseNat(s).Some?
    ensures s == NatToString(ParseNat(s).value)
    decreases |s|
  {
    var n := DigitsValue(s);
    if |s| > 1 {
      var p := s[..|s| - 1];
      var d := DigitValue(s[|s| - 1]);
      assert ParseNat(p).Some?;
      ParseNatCanonical(p);
      LeadingDigitPositive(p);
      assert n / 10 == DigitsValue(p) && n % 10 == d;
      assert s == p + [s[|s| - 1]];
    } else {
      assert Canonical(s) && |s| == 1;
      assert s[..|s| - 1] == [];
      assert DigitsValue(s[..|s| - 1]) == 0;
      assert n == DigitValue(s[0]);
      assert DigitChar(n) == s[0];
      assert s == [s[0]];
    }
  }

  /** Whatever `ParseInt` accepts is exactly the text `str(i)` writes for its result. */
  lemma ParseIntCanonical(s: string)
    requires ParseInt(s).Some?
    ensures s == IntToString(ParseInt(s).value)
  {
    if |s| > 0 && s[0] == '-' {
      ParseNatCanonical(s[1..]);
      assert s == "-" + s[1..];
    } else {
      ParseNatCanonical(s);
    }
  }

  /** The length of the run of decimal digits at the start of `s`. */
  function SpanDigits(s: string): (k: nat)
    ensures k <= |s|
    ensures AllDigits(s[..k])
    ensures k < |s| ==> !IsDigit(s[k])
    decreases |s|
  {
    if |s| > 0 && IsDigit(s[0]) then
      var k := 1 + SpanDigits(s[1..]);
      assert s[..k] == [s[0]] + s[1..][..k - 1];
      k
    else 0
  }

  lemma {:induction false} SpanDigitsOfDigitsThen(ds: string, rest: string)
    requires AllDigits(ds)
    requires |rest| > 0 ==> !IsDigit(rest[0])
    ensures SpanDigits(ds + rest) == |ds|
    decreases |ds|
  {
    if |ds| > 0 {
      assert (ds + rest)[1..] == ds[1..] + rest;
      SpanDigitsOfDigitsThen(ds[1..], rest);
    }
  }

  // ---------------------------------------------------------------------------
  // Prefix, substring and subsequence tests
  // ---------------------------------------------------------------------------

  /** Python's `s.startswith(p)`. */
  predicate StartsWith(s: string, p: string) {
    |p| <= |s| && s[..|p|] == p
  }

  /** Python's `t in s` for strings: `t` occurs contiguously in `s`. */
  predicate Contains(s: string, t: string)
    decreases |s|
  {
    StartsWith(s, t) || (|s| > 0 && Contains(s[1..], t))
  }

  /** Whatever surrounds `t`, the result contains `t`. */
  lemma {:induction false} ContainsMiddle(a: string, t: string, b: string)
    ensures Contains(a + t + b, t)
    decreases |a|
  {
    if |a| == 0 {
      assert a + t + b == t + b;
      assert (t + b)[..|t|] == t;
    } else {
      assert (a + t + b)[1..] == a[1..] + t + b;
      ContainsMiddle(a[1..], t, b);
    }
  }

  /** A four-part text starts with its first part and contains its second and fourth. */
  lemma ContainsPair(s: string, a: string, b: string, c: string, d: string)
    requires s == a + b + c + d
    ensures StartsWith(s, a)
    ensures Contains(s, b) && Contains(s, d)
  {
    assert s[..|a|] == a;
    assert s == a + b + (c + d);
    ContainsMiddle(a, b, c + d);
    assert s == (a + b + c) + d + [];
    ContainsMiddle(a + b + c, d, []);
  }

  /** The three values a six-part text is built around all occur in it. */
  lemma {:induction false} ContainsAlternate(s: string, a: string, b: string, c: string, d: string, e: string, f: string)
    requires s == a + b + c + d + e + f
    ensures StartsWith(s, a)
    ensures Contains(s, b) && Contains(s, d) && Contains(s, f)
  {
    assert s[..|a|] == a;
    assert s == a + b + (c + d + e + f);
    ContainsMiddle(a, b, c + d + e + f);
    assert s == (a + b + c) + d + (e + f);
    ContainsMiddle(a + b + c, d, e + f);
    assert s == (a + b + c + d + e) + f + [];
    ContainsMiddle(a + b + c + d + e, f, []);
  }

  /** `a` is obtained from `b` by deleting elements, keeping the rest in order. */
  predicate IsSubsequence<T(==)>(a: seq<T>, b: seq<T>)
    decreases |b|
  {
    |a| == 0 ||
    (|b| > 0 &&
     ((a[0] == b[0] && IsSubsequence(a[1..], b[1..])) || IsSubsequence(a, b[1..])))
  }

  // ---------------------------------------------------------------------------
  // Case and whitespace
  // ---------------------------------------------------------------------------

  function LowerChar(c: char): char {
    if 'A' <= c <= 'Z' then (c as int + 32) as char else c
  }

  /** `str.lower()` restricted to the ASCII letters. */
  function AsciiLower(s: string): (r: string)
    ensures |r| == |s|
    ensures forall i :: 0 <= i < |s| ==> r[i] == LowerChar(s[i])
  {
    seq(|s|, i requires 0 <= i < |s| => LowerChar(s[i]))
  }

  /** Python's `str.isspace()` for a single character. */
  predicate IsSpace(c: char) {
    var k := c as int;
    (9 <= k <= 13) || (28 <= k <= 32) || k == 0x85 || k == 0xA0 || k == 0x1680 ||
    (0x2000 <= k <= 0x200A) || k == 0x2028 || k == 0x2029 || k == 0x202F ||
    k == 0x205F || k == 0x3000
  }

  predicate AllSpace(s: string) {
    forall i :: 0 <= i < |s| ==> IsSpace(s[i])
  }

  /** The index of the first character of `s` that is not whitespace, or `|s|`. */
  function TextStart(s: string): (i: nat)
    ensures i <= |s|
    ensures AllSpace(s[..i])
    ensures i < |s| ==> !IsSpace(s[i])
    decreases |s|
  {
    if |s| > 0 && IsSpace(s[0]) then
      var i := 1 + TextStart(s[1..]);
      assert s[..i] == [s[0]] + s[1..][..i - 1];
      i
    else 0
  }

  /** One past the index of the last character of `s` that is not whitespace, or 0. */
  function TextEnd(s: string): (j: nat)
    ensures j <= |s|
    ensures AllSpace(s[j..])
    ensures j > 0 ==> !IsSpace(s[j - 1])
    decreases |s|
  {
    if |s| > 0 && IsSpace(s[|s| - 1]) then
      var j := TextEnd(s[..|s| - 1]);
      assert s[j..] == s[..|s| - 1][j..] + [s[|s| - 1]];
      j
    else |s|
  }

  /** Python's `str.strip()` with no argument. */
  function Strip(s: string): (r: string)
    ensures (|r| == 0) <==> AllSpace(s)
    ensures |r| > 0 ==> !IsSpace(r[0]) && !IsSpace(r[|r| - 1])
    ensures Contains(s, r)
    ensures exists i :: 0 <= i <= |s| - |r| && s[i..i + |r|] == r && AllSpace(s[..i]) && AllSpace(s[i + |r|..])
  {
    var i := TextStart(s);
    var j := TextEnd(s[i..]);
    var r := s[i..][..j];
    SliceFacts(s, i, j, r);
    r
  }

  /** What the two scans give: `s` is leading space, the stripped text `r`,
      then trailing space. */
  lemma SliceFacts(s: string, i: nat, j: nat, r: string)
    requires i <= |s| && AllSpace(s[..i])
    requires i < |s| ==> !IsSpace(s[i])
    requires j <= |s| - i && AllSpace(s[i..][j..])
    requires j > 0 ==> !IsSpace(s[i..][j - 1])
    requires r == s[i..][..j]
    ensures (|r| == 0) <==> AllSpace(s)
    ensures |r| > 0 ==> !IsSpace(r[0]) && !IsSpace(r[|r| - 1])
    ensures Contains(s, r)
    ensures exists k :: 0 <= k <= |s| - |r| && s[k..k + |r|] == r && AllSpace(s[..k]) && AllSpace(s[k + |r|..])
  {
    var a := s[i..];
    assert a == r + a[j..];
    assert s == s[..i] + a;
    ContainsMiddle(s[..i], r, a[j..]);
    assert s[..i] + a == s[..i] + r + a[j..];
    if j == 0 {
      assert a[j..] == a;
      assert s[..i] == s;
    }
    assert s[i..i + j] == r && s[i + j..] == a[j..];
  }
}
