/**
 * The handful of Python string operations the modelled code relies on:
 * `str(int)`, `int(str)`, `str.strip()`, `str.lower()`, `"\n".join(...)`,
 * `str.split("\n")` and the `in` test between strings.
 */
module Text {

  import opened Wrappers

  // ---------------------------------------------------------------------------
  // Whitespace and `str.strip()`
  // ---------------------------------------------------------------------------

  /** `c.isspace()` in Python: the characters of bidirectional class WS, B or S, and category Zs. */
  predicate IsSpace(c: char) {
    || c == ' '
    || ('\t' <= c <= '\r')
    || ('\U{1c}' <= c <= '\U{1f}')
    || c == '\U{85}' || c == '\U{a0}' || c == '\U{1680}'
    || ('\U{2000}' <= c <= '\U{200a}')
    || c == '\U{2028}' || c == '\U{2029}' || c == '\U{202f}' || c == '\U{205f}' || c == '\U{3000}'
  }

  /** `s.lstrip()`: the suffix of `s` that starts at its first non-space character. */
  function TrimStart(s: string): string {
    if s != [] && IsSpace(s[0]) then TrimStart(s[1..]) else s
  }

  /** `lstrip` keeps a suffix, cuts only whitespace, and leaves no whitespace in front. */
  lemma {:induction false} TrimStartCutsSpace(s: string)
    ensures var r := TrimStart(s);
      && |r| <= |s| && r == s[|s| - |r|..]
      && (r == [] || !IsSpace(r[0]))
      && forall k :: 0 <= k < |s| - |r| ==> IsSpace(s[k])
  {
    if s != [] && IsSpace(s[0]) {
      TrimStartCutsSpace(s[1..]);
      var r := TrimStart(s);
      forall k | 0 < k < |s| - |r| ensures IsSpace(s[k]) {
        assert s[k] == s[1..][k - 1];
      }
    }
  }

  /** `s.rstrip()`: the prefix of `s` that ends at its last non-space character. */
  function TrimEnd(s: string): string {
    if s != [] && IsSpace(s[|s| - 1]) then TrimEnd(s[..|s| - 1]) else s
  }

  /** `rstrip` keeps a prefix, cuts only whitespace, and leaves no whitespace at the end. */
  lemma {:induction false} TrimEndCutsSpace(s: string)
    ensures var r := TrimEnd(s);
      && |r| <= |s| && r == s[..|r|]
      && (r == [] || !IsSpace(r[|r| - 1]))
      && forall k :: |r| <= k < |s| ==> IsSpace(s[k])
  {
    if s != [] && IsSpace(s[|s| - 1]) {
      TrimEndCutsSpace(s[..|s| - 1]);
      var r := TrimEnd(s);
      forall k | |r| <= k < |s| - 1 ensures IsSpace(s[k]) {
        assert s[k] == s[..|s| - 1][k];
      }
    }
  }

  /** `s.strip()`: whitespace cut from both ends (see `StripCutsOnlySpace`). */
  function Strip(s: string): string {
    TrimEnd(TrimStart(s))
  }

  /**
   * What `strip()` keeps is one contiguous slice of its argument, with only whitespace cut
   * on either side and no whitespace left at either end.
   */
  lemma StripCutsOnlySpace(s: string)
    ensures exists i :: CutFrom(s, i, Strip(s))
    ensures var r := Strip(s); r != [] ==> !IsSpace(r[0]) && !IsSpace(r[|r| - 1])
  {
    var a := TrimStart(s);
    var r := TrimEnd(a);
    TrimStartCutsSpace(s);
    TrimEndCutsSpace(a);
    var i := |s| - |a|;
    TailCut(s, a, r, i);
    assert r == Strip(s);
    assert CutFrom(s, i, Strip(s));
    if r != [] {
      assert r[0] == a[0];
    }
  }

  /** Trimming the end of a suffix cut at `i` leaves a slice of `s` with whitespace around it. */
  lemma TailCut(s: string, a: string, r: string, i: int)
    requires 0 <= i <= |s| && a == s[i..]
    requires |r| <= |a| && r == a[..|r|]
    requires forall k :: 0 <= k < i ==> IsSpace(s[k])
    requires forall k :: |r| <= k < |a| ==> IsSpace(a[k])
    ensures CutFrom(s, i, r)
  {
    assert r == s[i..i + |r|];
    forall k | i + |r| <= k < |s| ensures IsSpace(s[k]) {
      assert s[k] == a[k - i];
    }
  }

  /** `r` is the slice of `s` starting at `i`, and everything around it is whitespace. */
  predicate CutFrom(s: string, i: int, r: string) {
    && 0 <= i <= |s| - |r|
    && r == s[i..i + |r|]
    && (forall k :: 0 <= k < i ==> IsSpace(s[k]))
    && (forall k :: i + |r| <= k < |s| ==> IsSpace(s[k]))
  }

  // ---------------------------------------------------------------------------
  // `str.lower()` (ASCII letters only)
  // ---------------------------------------------------------------------------

  function LowerChar(c: char): char {
    if 'A' <= c <= 'Z' then (c as int + 32) as char else c
  }

  function Lower(s: string): string {
    seq(|s|, k requires 0 <= k < |s| => LowerChar(s[k]))
  }

  // ---------------------------------------------------------------------------
  // `needle in hay` for strings
  // ---------------------------------------------------------------------------

  predicate Contains(hay: string, needle: string) {
    exists i :: 0 <= i <= |hay| - |needle| && OccursAt(hay, needle, i)
  }

  predicate OccursAt(hay: string, needle: string, i: int) {
    0 <= i <= |hay| - |needle| && hay[i..i + |needle|] == needle
  }

  predicate NoNewline(s: string) {
    forall k :: 0 <= k < |s| ==> s[k] != '\n'
  }

  // ---------------------------------------------------------------------------
  // `"\n".join(lines)` and `s.split("\n")`
  // ---------------------------------------------------------------------------

  function JoinLines(lines: seq<string>): string {
    if |lines| == 0 then ""
    else if |lines| == 1 then lines[0]
    else lines[0] + ("\n" + JoinLines(lines[1..]))
  }

  /** `s.split("\n")`: never empty; `"".split("\n") == [""]`. */
  function SplitLines(s: string): (r: seq<string>)
    ensures |r| >= 1
  {
    if s == [] then [""]
    else
      var rest := SplitLines(s[1..]);
      if s[0] == '\n' then [""] + rest else [[s[0]] + rest[0]] + rest[1..]
  }

  lemma {:induction false} SplitWithoutNewline(a: string)
    requires NoNewline(a)
    ensures SplitLines(a) == [a]
  {
    if a != [] {
      SplitWithoutNewline(a[1..]);
      assert [a[0]] + a[1..] == a;
    }
  }

  lemma {:induction false} SplitAfterFirstLine(a: string, b: string)
    requires NoNewline(a)
    ensures SplitLines(a + ("\n" + b)) == [a] + SplitLines(b)
  {
    var s := a + ("\n" + b);
    if a == [] {
      assert s[1..] == b;
    } else {
      assert s[1..] == a[1..] + ("\n" + b);
      SplitAfterFirstLine(a[1..], b);
      assert [a[0]] + a[1..] == a;
    }
  }

  /** Splitting a join gives back the lines, provided no line holds a newline itself. */
  lemma {:induction false} SplitJoinLines(lines: seq<string>)
    requires |lines| >= 1
    requires forall k :: 0 <= k < |lines| ==> NoNewline(lines[k])
    ensures SplitLines(JoinLines(lines)) == lines
  {
    if |lines| == 1 {
      SplitWithoutNewline(lines[0]);
    } else {
      SplitJoinLines(lines[1..]);
      SplitAfterFirstLine(lines[0], JoinLines(lines[1..]));
    }
  }

  /**
   * `s.split("\n", 1)[0]`: the first line has no newline, is a prefix of `s`, and
   * is either all of `s` or followed by a newline.
   */
  function FirstLine(s: string): (r: string)
    ensures NoNewline(r)
    ensures |r| <= |s| && r == s[..|r|]
    ensures |r| == |s| || s[|r|] == '\n'
  {
    SplitHead(s);
    SplitLines(s)[0]
  }

  lemma {:induction false} SplitHead(s: string)
    ensures var h := SplitLines(s)[0];
            NoNewline(h) && |h| <= |s| && h == s[..|h|] && (|h| == |s| || s[|h|] == '\n')
  {
    if s != [] {
      SplitHead(s[1..]);
    }
  }

  // ---------------------------------------------------------------------------
  // `str(n)` for integers and its inverse
  // ---------------------------------------------------------------------------

  predicate IsDigit(c: char) {
    '0' <= c <= '9'
  }

  function DigitChar(d: nat): (c: char)
    requires d < 10
    ensures IsDigit(c) && c as int - '0' as int == d
  {
    (d + '0' as int) as char
  }

  /** `str(n)` for `n >= 0`: the shortest decimal numeral, all digits. */
  function NatToString(n: nat): (r: string)
    ensures |r| >= 1
    ensures forall k :: 0 <= k < |r| ==> IsDigit(r[k])
    ensures |r| > 1 ==> r[0] != '0'
  {
    if n < 10 then [DigitChar(n)] else NatToString(n / 10) + [DigitChar(n % 10)]
  }

  /** `str(i)` for any integer: a minus sign, then the numeral of the magnitude. */
  function IntToString(i: int): (r: string)
    ensures |r| >= 1
    ensures forall k :: 0 <= k < |r| ==> r[k] == '-' || IsDigit(r[k])
  {
    if i < 0 then "-" + NatToString(-i) else NatToString(i)
  }

  /** The value of a string of decimal digits (the empty string reads as 0). */
  function DigitsValue(s: string): int {
    if s == [] then 0 else DigitsValue(s[..|s| - 1]) * 10 + (s[|s| - 1] as int - '0' as int)
  }

  /** Reads back what `IntToString` writes. */
  function ReadInt(s: string): int {
    if s != [] && s[0] == '-' then -DigitsValue(s[1..]) else DigitsValue(s)
  }

  lemma {:induction false} ReadNatToString(n: nat)
    ensures DigitsValue(NatToString(n)) == n
  {
    if n >= 10 {
      var s := NatToString(n);
      ReadNatToString(n / 10);
      assert s[..|s| - 1] == NatToString(n / 10);
    }
  }

  lemma ReadIntToString(i: int)
    ensures ReadInt(IntToString(i)) == i
  {
    if i < 0 {
      ReadNatToString(-i);
      assert IntToString(i)[1..] == NatToString(-i);
    } else {
      ReadNatToString(i);
    }
  }

  /** Distinct integers have distinct decimal strings. */
  lemma IntToStringInjective(a: int, b: int)
    requires a != b
    ensures IntToString(a) != IntToString(b)
  {
    ReadIntToString(a);
    ReadIntToString(b);
  }

  /** A Python f-string renders `None` as `None` and a string as itself. */
  function Show(o: Option<string>): string {
    match o
    case None => "None"
    case Some(s) => s
  }

  // ---------------------------------------------------------------------------
  // `int(s)` for a string
  // ---------------------------------------------------------------------------

  /** Decimal digits, single underscores allowed between two digits, as `int()` accepts. */
  predicate IsNumeral(s: string) {
    |s| >= 1 && IsDigit(s[0]) && IsNumeralTail(s[1..])
  }

  /** What may follow the first digit: digits, each underscore followed by a digit. */
  predicate IsNumeralTail(t: string) {
    || t == []
    || (IsDigit(t[0]) && IsNumeralTail(t[1..]))
    || (|t| >= 2 && t[0] == '_' && IsDigit(t[1]) && IsNumeralTail(t[2..]))
  }

  function DropUnderscores(s: string): (r: string)
    ensures |r| <= |s|
  {
    if s == [] then [] else (if s[0] == '_' then [] else [s[0]]) + DropUnderscores(s[1..])
  }

  /**
   * `int(s)` on ASCII input: surrounding whitespace is ignored, then one optional sign and
   * a numeral of the digits `0`-`9`; `None` stands for the `ValueError` raised on anything
   * else. Python also reads the other Unicode decimal digits; those count as non-digits here.
   */
  function ParseInt(s: string): (r: Option<int>)
    ensures r.Some? ==> Strip(s) != []
  {
    ParseSignedNumeral(Strip(s))
  }

  function ParseSignedNumeral(t: string): (r: Option<int>)
    ensures r.Some? ==> t != []
  {
    if t != [] && (t[0] == '-' || t[0] == '+') then
      if IsNumeral(t[1..]) then
        var v := DigitsValue(DropUnderscores(t[1..]));
        Some(if t[0] == '-' then -v else v)
      else None
    else if IsNumeral(t) then Some(DigitsValue(DropUnderscores(t)))
    else None
  }

  lemma {:induction false} DropUnderscoresOfDigits(s: string)
    requires forall k :: 0 <= k < |s| ==> IsDigit(s[k])
    ensures DropUnderscores(s) == s
  {
    if s != [] {
      DropUnderscoresOfDigits(s[1..]);
    }
  }

  lemma {:induction false} NumeralOfDigits(s: string)
    requires forall k :: 0 <= k < |s| ==> IsDigit(s[k])
    ensures IsNumeralTail(s)
    ensures |s| >= 1 ==> IsNumeral(s)
  {
    if s != [] {
      NumeralOfDigits(s[1..]);
    }
  }

  /** `int(str(i)) == i`. */
  lemma {:induction false} ParseIntToString(i: int)
    ensures ParseInt(IntToString(i)) == Some(i)
  {
    var s := IntToString(i);
    if i < 0 {
      var n: nat := -i;
      var t := "-" + NatToString(n);
      assert s == t;
      NegativeRoundTrip(n);
      assert ParseInt(t) == Some(i);
    } else {
      assert s == NatToString(i);
      NonNegativeRoundTrip(i);
    }
  }

  lemma {:induction false} NonNegativeRoundTrip(n: nat)
    ensures ParseInt(NatToString(n)) == Some(n as int)
  {
    ParseNatToString(n);
    StripOfNumber(NatToString(n));
    assert Strip(NatToString(n)) == NatToString(n);
  }

  lemma {:induction false} NegativeRoundTrip(n: nat)
    requires n > 0
    ensures ParseInt("-" + NatToString(n)) == Some(0 - n)
  {
    StripOfNegative(n);
    ParseSignedOfNegative(n);
  }

  lemma {:induction false} StripOfNegative(n: nat)
    requires n > 0
    ensures Strip("-" + NatToString(n)) == "-" + NatToString(n)
  {
    var digits := NatToString(n);
    var s := "-" + digits;
    assert s[|s| - 1] == digits[|digits| - 1];
    StripOfNumber(s);
  }

  lemma {:induction false} ParseSignedOfNegative(n: nat)
    requires n > 0
    ensures ParseSignedNumeral("-" + NatToString(n)) == Some(0 - n)
  {
    var digits := NatToString(n);
    ParseNatToString(n);
    var s := "-" + digits;
    assert s[1..] == digits;
  }

  /** Padding a string that has nothing to strip with a space and a newline changes nothing for `strip`. */
  lemma {:induction false} StripOfPadded(s: string)
    requires s != [] && Strip(s) == s && !IsSpace(s[0])
    ensures Strip(" " + s + "\n") == s
  {
    var w := " " + s + "\n";
    assert w[1..] == s + "\n";
    assert TrimStart(w) == TrimStart(s + "\n");
    assert TrimStart(s + "\n") == s + "\n";
    assert (s + "\n")[..|s|] == s;
    assert TrimEnd(s + "\n") == TrimEnd(s);
    assert TrimStart(s) == s;
  }

  lemma StripOfNumber(s: string)
    requires |s| >= 1 && IsDigit(s[|s| - 1]) && (IsDigit(s[0]) || s[0] == '-')
    ensures Strip(s) == s
  {
    assert !IsSpace(s[0]) && TrimStart(s) == s;
    assert !IsSpace(s[|s| - 1]) && TrimEnd(s) == s;
  }

  lemma ParseNatToString(n: nat)
    ensures IsNumeral(NatToString(n))
    ensures DigitsValue(DropUnderscores(NatToString(n))) == n
    ensures ParseSignedNumeral(NatToString(n)) == Some(n)
  {
    var digits := NatToString(n);
    DropUnderscoresOfDigits(digits);
    ReadNatToString(n);
    NumeralOfDigits(digits);
  }
}
