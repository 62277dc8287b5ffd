/**
 * The string primitives the salon bot relies on from Python's `str` and `int`:
 * case mapping, stripping, substring tests, decimal rendering (`str(n)`, `f"{n:02d}"`)
 * and decimal parsing (`int(s)`). Only ASCII letters, digits and whitespace are
 * modelled; Unicode case mapping and Unicode digits are not.
 */
module Text {
  import opened Wrappers

  // ---------------------------------------------------------------------
  // Character classes
  // ---------------------------------------------------------------------

  predicate IsDigit(c: char) { '0' <= c <= '9' }
  predicate IsUpper(c: char) { 'A' <= c <= 'Z' }
  predicate IsLower(c: char) { 'a' <= c <= 'z' }
  predicate IsAlpha(c: char) { IsUpper(c) || IsLower(c) }

  /** `\w` of a regular expression: letters, digits and the underscore. */
  predicate IsWordChar(c: char) { IsAlpha(c) || IsDigit(c) || c == '_' }

  /** The ASCII characters for which `str.isspace()` holds (and `\s` matches). */
  predicate IsSpace(c: char) {
    c == ' ' || c == '\t' || c == '\n' || c == '\r' || c == '\U{000B}' || c == '\U{000C}'
    || ('\U{001C}' <= c <= '\U{001F}')
  }

  predicate AllDigits(s: string) { forall i :: 0 <= i < |s| ==> IsDigit(s[i]) }

  // ---------------------------------------------------------------------
  // Case mapping
  // ---------------------------------------------------------------------

  function LowerChar(c: char): char {
    if IsUpper(c) then (c as int - 'A' as int + 'a' as int) as char else c
  }

  function UpperChar(c: char): char {
    if IsLower(c) then (c as int - 'a' as int + 'A' as int) as char else c
  }

  /** `s.lower()` */
  function Lower(s: string): (r: string)
    ensures |r| == |s|
    ensures forall i :: 0 <= i < |s| ==> r[i] == LowerChar(s[i])
  {
    seq(|s|, i requires 0 <= i < |s| => LowerChar(s[i]))
  }

  /** `s.upper()` */
  function Upper(s: string): (r: string)
    ensures |r| == |s|
    ensures forall i :: 0 <= i < |s| ==> r[i] == UpperChar(s[i])
  {
    seq(|s|, i requires 0 <= i < |s| => UpperChar(s[i]))
  }

  // ---------------------------------------------------------------------
  // Stripping and whitespace
  // ---------------------------------------------------------------------

  function TrimLeft(s: string): (r: string)
    ensures |r| <= |s|
    decreases |s|
  {
    if |s| > 0 && IsSpace(s[0]) then TrimLeft(s[1..]) else s
  }

  function TrimRight(s: string): (r: string)
    ensures |r| <= |s|
    decreases |s|
  {
    if |s| > 0 && IsSpace(s[|s| - 1]) then TrimRight(s[..|s| - 1]) else s
  }

  /** `s.strip()` */
  function Strip(s: string): string {
    TrimRight(TrimLeft(s))
  }

  /** `s.replace(" ", "")` */
  function RemoveBlanks(s: string): (r: string)
    ensures forall i :: 0 <= i < |r| ==> r[i] != ' '
    decreases |s|
  {
    if |s| == 0 then ""
    else if s[0] == ' ' then RemoveBlanks(s[1..])
    else [s[0]] + RemoveBlanks(s[1..])
  }

  /** `re.sub(r"\s+", " ", s)`: every run of whitespace becomes one blank. */
  function CollapseSpaces(s: string): string
    decreases |s|
  {
    if |s| == 0 then ""
    else if IsSpace(s[0]) then " " + CollapseSpaces(TrimLeft(s[1..]))
    else [s[0]] + CollapseSpaces(s[1..])
  }

  // ---------------------------------------------------------------------
  // Substrings
  // ---------------------------------------------------------------------

  /** `sub in s` for strings. */
  predicate Contains(s: string, sub: string) {
    exists i :: 0 <= i <= |s| && LiteralAt(s, i, sub)
  }

  /** `any(w in s for w in words)` */
  predicate ContainsAny(s: string, words: seq<string>) {
    exists w :: w in words && Contains(s, w)
  }

  /** `s` has `w` as a factor starting at `i`. */
  predicate LiteralAt(s: string, i: int, w: string) {
    0 <= i && i + |w| <= |s| && s[i..i + |w|] == w
  }

  /** A character that occurs in `sub` but nowhere in `s` rules out `sub in s`. */
  lemma MissingCharNotContained(s: string, sub: string, c: char)
    requires c in sub
    requires c !in s
    ensures !Contains(s, sub)
  {
  }

  /** The same, for a match at one given position. */
  lemma MissingCharNoLiteral(s: string, i: int, sub: string, c: char)
    requires c in sub
    requires c !in s
    ensures !LiteralAt(s, i, sub)
  {
  }

  // ---------------------------------------------------------------------
  // Word boundaries (`\b`)
  // ---------------------------------------------------------------------

  /** True when position `i` of `s` is outside it or holds a non-word character. */
  predicate NonWordAt(s: string, i: int) {
    i < 0 || i >= |s| || !IsWordChar(s[i])
  }

  /** End of the run of word characters that starts at `i`. */
  function WordEnd(s: string, i: nat): (e: nat)
    requires i <= |s|
    ensures i <= e <= |s|
    ensures forall k :: i <= k < e ==> IsWordChar(s[k])
    ensures NonWordAt(s, e)
    decreases |s| - i
  {
    if i < |s| && IsWordChar(s[i]) then WordEnd(s, i + 1) else i
  }

  /** End of the run of whitespace that starts at `i`. */
  function SpaceEnd(s: string, i: nat): (e: nat)
    requires i <= |s|
    ensures i <= e <= |s|
    ensures forall k :: i <= k < e ==> IsSpace(s[k])
    ensures e == |s| || !IsSpace(s[e])
    decreases |s| - i
  {
    if i < |s| && IsSpace(s[i]) then SpaceEnd(s, i + 1) else i
  }

  // ---------------------------------------------------------------------
  // Decimal numbers
  // ---------------------------------------------------------------------

  function DigitValue(c: char): int { c as int - '0' as int }

  function DigitChar(d: int): char
    requires 0 <= d < 10
  {
    ('0' as int + d) as char
  }

  /** The value of a string of decimal digits, most significant first. */
  function DigitsValue(s: string): nat
    requires AllDigits(s)
    decreases |s|
  {
    if |s| == 0 then 0
    else DigitsValue(s[..|s| - 1]) * 10 + DigitValue(s[|s| - 1])
  }

  /** `str(n)` for a natural number. */
  function NatToString(n: nat): (r: string)
    ensures |r| > 0 && AllDigits(r)
    decreases n
  {
    if n < 10 then [DigitChar(n)] else NatToString(n / 10) + [DigitChar(n % 10)]
  }

  /** `str(i)` */
  function IntToString(i: int): string {
    if i < 0 then "-" + NatToString(-i) else NatToString(i)
  }

  /** `f"{i:02d}"`: zero-padded to width two; a negative number keeps its sign. */
  function Pad2(i: int): (r: string)
    ensures 0 <= i < 100 ==> |r| == 2 && AllDigits(r) && DigitsValue(r) == i
    ensures 0 <= i ==> |r| >= 2 && AllDigits(r)
    ensures i < 0 ==> |r| > 0 && r[0] == '-'
  {
    if 0 <= i < 10 then
      NatValueRoundTrip(i);
      assert ("0" + NatToString(i))[..1] == "0";
      "0" + NatToString(i)
    else if i < 0 then
      IntToString(i)
    else if 100 <= i then
      NatLengthAtLeast2(i);
      IntToString(i)
    else
      NatValueRoundTrip(i);
      NatLength2(i);
      IntToString(i)
  }

  /** `f"{n:04d}"` for a natural number. */
  function Pad4(n: nat): string {
    if n < 10 then "000" + NatToString(n)
    else if n < 100 then "00" + NatToString(n)
    else if n < 1000 then "0" + NatToString(n)
    else NatToString(n)
  }

  /** `int(s)` for a string: optional surrounding whitespace, an optional sign and
      decimal digits. Python also accepts `_` between digits; that is not modelled. */
  function PyInt(s: string): Option<int> {
    var t := Strip(s);
    if |t| > 0 && (t[0] == '-' || t[0] == '+') then
      var body := t[1..];
      if |body| > 0 && AllDigits(body) then
        var v: int := DigitsValue(body);
        Some(if t[0] == '-' then -v else v)
      else None
    else if |t| > 0 && AllDigits(t) then Some(DigitsValue(t))
    else None
  }

  /** `s.split(c)` for a one-character separator: the pieces between separators. */
  function Split(s: string, c: char): (r: seq<string>)
    ensures |r| >= 1
    decreases |s|
  {
    if |s| == 0 then [""]
    else if s[0] == c then [""] + Split(s[1..], c)
    else
      var rest := Split(s[1..], c);
      [[s[0]] + rest[0]] + rest[1..]
  }

  /** `n` decimal digits start at position `i` of `s`. */
  predicate DigitsAt(s: string, i: int, n: nat) {
    0 <= i && i + n <= |s| && AllDigits(s[i..i + n])
  }

  /** `sep.join(xs)` */
  function Join(xs: seq<string>, sep: string): string
    decreases |xs|
  {
    if |xs| == 0 then ""
    else if |xs| == 1 then xs[0]
    else xs[0] + sep + Join(xs[1..], sep)
  }

  // ---------------------------------------------------------------------
  // Lemmas about decimal rendering and parsing
  // ---------------------------------------------------------------------

  lemma {:induction false} NatValueRoundTrip(n: nat)
    ensures DigitsValue(NatToString(n)) == n
    decreases n
  {
    if n >= 10 {
      var s := NatToString(n);
      NatValueRoundTrip(n / 10);
      assert s[..|s| - 1] == NatToString(n / 10);
      assert s[|s| - 1] == DigitChar(n % 10);
    }
  }

  lemma NatLengthAtLeast2(n: nat)
    requires 10 <= n
    ensures |NatToString(n)| >= 2
  {
    assert NatToString(n) == NatToString(n / 10) + [DigitChar(n % 10)];
  }

  lemma NatLength2(n: nat)
    requires 10 <= n < 100
    ensures |NatToString(n)| == 2
  {
    assert NatToString(n) == NatToString(n / 10) + [DigitChar(n % 10)];
  }

  lemma NoSpaceTrimLeft(s: string)
    requires |s| == 0 || !IsSpace(s[0])
    ensures TrimLeft(s) == s
  {
  }

  lemma NoSpaceTrimRight(s: string)
    requires |s| == 0 || !IsSpace(s[|s| - 1])
    ensures TrimRight(s) == s
  {
  }

  /** `strip()` only removes characters: every character left was in the input. */
  lemma {:induction false} TrimLeftChars(s: string)
    ensures forall i :: 0 <= i < |TrimLeft(s)| ==> TrimLeft(s)[i] in s
    decreases |s|
  {
    if |s| > 0 && IsSpace(s[0]) {
      TrimLeftChars(s[1..]);
      forall i | 0 <= i < |TrimLeft(s)| ensures TrimLeft(s)[i] in s {
        assert TrimLeft(s)[i] in s[1..];
      }
    }
  }

  lemma {:induction false} TrimRightChars(s: string)
    ensures forall i :: 0 <= i < |TrimRight(s)| ==> TrimRight(s)[i] in s
    decreases |s|
  {
    if |s| > 0 && IsSpace(s[|s| - 1]) {
      TrimRightChars(s[..|s| - 1]);
      forall i | 0 <= i < |TrimRight(s)| ensures TrimRight(s)[i] in s {
        assert TrimRight(s)[i] in s[..|s| - 1];
      }
    }
  }

  lemma StripChars(s: string)
    ensures |Strip(s)| <= |s|
    ensures forall i :: 0 <= i < |Strip(s)| ==> Strip(s)[i] in s
  {
    TrimLeftChars(s);
    TrimRightChars(TrimLeft(s));
  }

  lemma Pad2Zero()
    ensures Pad2(0) == "00"
  {
    assert NatToString(0) == "0";
  }

  /** A string that neither starts nor ends with whitespace is its own `strip()`. */
  lemma StripNoop(s: string)
    requires |s| == 0 || (!IsSpace(s[0]) && !IsSpace(s[|s| - 1]))
    ensures Strip(s) == s
  {
    NoSpaceTrimLeft(s);
    NoSpaceTrimRight(s);
  }

  lemma {:induction false} PyIntOfDigits(t: string)
    requires |t| > 0 && AllDigits(t)
    ensures PyInt(t) == Some(DigitsValue(t))
  {
    StripNoop(t);
  }

  lemma {:induction false} PyIntOfMinus(u: string)
    requires |u| > 1 && u[0] == '-' && AllDigits(u[1..])
    ensures PyInt(u) == Some(-(DigitsValue(u[1..]) as int))
  {
    assert IsDigit(u[1..][|u| - 2]);
    StripNoop(u);
  }

  lemma {:induction false} PyIntOfNegative(n: nat)
    ensures PyInt("-" + NatToString(n)) == Some(-(n as int))
  {
    var t := NatToString(n);
    var u := "-" + t;
    assert u[1..] == t;
    NatValueRoundTrip(n);
    PyIntOfMinus(u);
  }

  lemma {:induction false} PyIntOfNat(n: nat)
    ensures PyInt(NatToString(n)) == Some(n)
  {
    NatValueRoundTrip(n);
    PyIntOfDigits(NatToString(n));
  }

  /** `int(str(i)) == i`: the decimal rendering parses back to the same number. */
  lemma PyIntRoundTrip(i: int)
    ensures PyInt(IntToString(i)) == Some(i)
  {
    if i < 0 { PyIntOfNegative(-i); } else { PyIntOfNat(i); }
  }

  lemma {:induction false} SplitWithout(s: string, c: char)
    requires c !in s
    ensures Split(s, c) == [s]
    decreases |s|
  {
    if |s| > 0 {
      SplitWithout(s[1..], c);
      assert [s[0]] + s[1..] == s;
    }
  }

  lemma {:induction false} SplitOnce(a: string, b: string, c: char)
    requires c !in a && c !in b
    ensures Split(a + [c] + b, c) == [a, b]
    decreases |a|
  {
    if |a| == 0 {
      assert a + [c] + b == [c] + b;
      assert ([c] + b)[1..] == b;
      SplitWithout(b, c);
    } else {
      assert (a + [c] + b)[1..] == a[1..] + [c] + b;
      SplitOnce(a[1..], b, c);
      assert [a[0]] + a[1..] == a;
    }
  }

  /** A two-digit string is the zero-padded rendering of its value. */
  lemma Pad2OfDigits(s: string)
    requires |s| == 2 && AllDigits(s)
    ensures Pad2(DigitsValue(s)) == s
  {
    var v := DigitsValue(s);
    assert s[..1] == [s[0]];
    assert s[..1][..0] == [];
    assert DigitsValue(s[..1]) == DigitValue(s[0]);
    assert v == DigitValue(s[0]) * 10 + DigitValue(s[1]);
    if v < 10 {
      assert s[0] == '0';
      assert NatToString(v) == [DigitChar(v)];
    } else {
      assert NatToString(v) == NatToString(v / 10) + [DigitChar(v % 10)];
      assert v / 10 == DigitValue(s[0]);
      assert v % 10 == DigitValue(s[1]);
    }
  }

  lemma DigitsValue2(s: string)
    requires |s| == 2 && AllDigits(s)
    ensures DigitsValue(s) == DigitValue(s[0]) * 10 + DigitValue(s[1])
  {
    assert s[..1] == [s[0]];
    assert s[..1][..0] == [];
    assert DigitsValue(s[..1]) == DigitValue(s[0]);
  }

  lemma DigitsValue1(s: string)
    requires |s| == 1 && AllDigits(s)
    ensures DigitsValue(s) == DigitValue(s[0])
  {
    assert s[..0] == [];
  }

  lemma DigitsValueShort(s: string)
    requires 1 <= |s| <= 2 && AllDigits(s)
    ensures DigitsValue(s) < 100
    ensures |s| == 1 ==> DigitsValue(s) == DigitValue(s[0])
    ensures |s| == 2 ==> DigitsValue(s) == DigitValue(s[0]) * 10 + DigitValue(s[1])
  {
    if |s| == 1 { DigitsValue1(s); } else { DigitsValue2(s); }
  }

  lemma LowerConcat(a: string, b: string)
    ensures Lower(a + b) == Lower(a) + Lower(b)
  {
  }

  /** Lower-casing leaves a text without capital letters as it is. */
  lemma LowerNoUpper(a: string)
    requires forall i :: 0 <= i < |a| ==> !IsUpper(a[i])
    ensures Lower(a) == a
  {
  }

  lemma {:induction false} RemoveBlanksConcat(a: string, b: string)
    ensures RemoveBlanks(a + b) == RemoveBlanks(a) + RemoveBlanks(b)
    decreases |a|
  {
    if |a| > 0 {
      assert (a + b)[1..] == a[1..] + b;
      RemoveBlanksConcat(a[1..], b);
    } else {
      assert a + b == b;
    }
  }

  lemma {:induction false} RemoveBlanksNoBlank(a: string)
    requires ' ' !in a
    ensures RemoveBlanks(a) == a
    decreases |a|
  {
    if |a| > 0 {
      RemoveBlanksNoBlank(a[1..]);
      assert [a[0]] + a[1..] == a;
    }
  }

  /** `TrimLeft` drops a prefix made of whitespace. */
  lemma {:induction false} TrimLeftSuffix(s: string)
    ensures exists k :: 0 <= k <= |s| && TrimLeft(s) == s[k..] && forall j :: 0 <= j < k ==> IsSpace(s[j])
    decreases |s|
  {
    if |s| > 0 && IsSpace(s[0]) {
      TrimLeftSuffix(s[1..]);
      var k :| 0 <= k <= |s[1..]| && TrimLeft(s[1..]) == s[1..][k..] && forall j :: 0 <= j < k ==> IsSpace(s[1..][j]);
      assert TrimLeft(s) == s[k + 1..];
      assert forall j :: 0 <= j < k + 1 ==> IsSpace(s[j]) by {
        forall j | 0 <= j < k + 1 ensures IsSpace(s[j]) {
          if j > 0 { assert s[j] == s[1..][j - 1]; }
        }
      }
    } else {
      assert TrimLeft(s) == s[0..];
    }
  }

  /** `TrimRight` drops a suffix made of whitespace. */
  lemma {:induction false} TrimRightPrefix(s: string)
    ensures exists k :: 0 <= k <= |s| && TrimRight(s) == s[..k] && forall j :: k <= j < |s| ==> IsSpace(s[j])
    decreases |s|
  {
    if |s| > 0 && IsSpace(s[|s| - 1]) {
      var u := s[..|s| - 1];
      TrimRightPrefix(u);
      var k :| 0 <= k <= |u| && TrimRight(u) == u[..k] && forall j :: k <= j < |u| ==> IsSpace(u[j]);
      assert TrimRight(s) == s[..k];
    } else {
      assert TrimRight(s) == s[..|s|];
    }
  }

  /** `Strip` keeps a slice of the text with only whitespace around it. */
  lemma StripSlice(s: string) returns (a: nat, b: nat)
    ensures a <= b <= |s| && Strip(s) == s[a..b]
    ensures forall j :: 0 <= j < a ==> IsSpace(s[j])
    ensures forall j :: b <= j < |s| ==> IsSpace(s[j])
  {
    TrimLeftSuffix(s);
    var k :| 0 <= k <= |s| && TrimLeft(s) == s[k..] && forall j :: 0 <= j < k ==> IsSpace(s[j]);
    var u := s[k..];
    TrimRightPrefix(u);
    var m :| 0 <= m <= |u| && TrimRight(u) == u[..m] && forall j :: m <= j < |u| ==> IsSpace(u[j]);
    a, b := k, k + m;
    assert u[..m] == s[a..b];
    forall j | b <= j < |s| ensures IsSpace(s[j]) {
      assert s[j] == u[j - k];
    }
  }

  /** A factor of a stripped text is a factor of the text. */
  lemma StrippedFactor(s: string, w: string)
    requires Contains(Strip(s), w)
    ensures Contains(s, w)
  {
    var a, b := StripSlice(s);
    var t := Strip(s);
    var i :| 0 <= i <= |t| && LiteralAt(t, i, w);
    forall k | 0 <= k < |w| ensures s[a + i + k] == w[k] {
      assert t[i + k] == w[k];
    }
    assert s[a + i..a + i + |w|] == w;
    assert LiteralAt(s, a + i, w);
  }

  /** Stripping keeps every factor that neither starts nor ends with whitespace. */
  lemma StripKeepsFactor(s: string, w: string)
    requires |w| > 0 && !IsSpace(w[0]) && !IsSpace(w[|w| - 1])
    requires Contains(s, w)
    ensures Contains(Strip(s), w)
  {
    var i :| 0 <= i <= |s| && LiteralAt(s, i, w);
    var a, b := StripSlice(s);
    var t := Strip(s);
    assert s[i] == w[0];
    assert s[i + |w| - 1] == w[|w| - 1];
    assert a <= i && i + |w| <= b;
    forall k | 0 <= k < |w| ensures t[i - a + k] == w[k] {
      assert s[i + k] == w[k];
    }
    assert t[i - a..i - a + |w|] == w;
    assert LiteralAt(t, i - a, w);
  }

  /** A text without digits keeps none after lower-casing and stripping. */
  lemma DigitFreeStripped(text: string)
    requires forall i :: 0 <= i < |text| ==> !IsDigit(text[i])
    ensures forall i :: 0 <= i < |Strip(Lower(text))| ==> !IsDigit(Strip(Lower(text))[i])
  {
    var a, b := StripSlice(Lower(text));
    forall i | 0 <= i < |Strip(Lower(text))| ensures !IsDigit(Strip(Lower(text))[i]) {
      assert Strip(Lower(text))[i] == LowerChar(text[a + i]);
    }
  }

  /** A word listed in `words` that occurs in the text keeps `ContainsAny` true. */
  lemma ContainsListed(s: string, words: seq<string>, w: string)
    requires w in words && Contains(s, w)
    ensures ContainsAny(s, words)
  {
  }

  /** A character that is not a digit does not occur in a string of digits. */
  lemma NotInDigits(a: string, c: char)
    requires AllDigits(a) && !IsDigit(c)
    ensures c !in a
  {
  }

  /** Two-digit renderings of numbers below 100 are distinct. */
  lemma Pad2Injective(a: int, b: int)
    requires 0 <= a < 100 && 0 <= b < 100
    requires Pad2(a) == Pad2(b)
    ensures a == b
  {
  }
}
