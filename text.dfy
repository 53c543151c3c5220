/**
 * The few pieces of Python's `str` behaviour the core relies on: `strip()`, an ASCII
 * `lower()`, `split(sep)` on one separator character, `sep.join(parts)`, `str(n)` for an
 * integer and `int(s)` for a base-10 literal.
 */
module Text {
  import opened Wrappers

  // ---------------------------------------------------------------- Whitespace and strip

  /**
   * The characters Python's `str.isspace` accepts, so the ones `strip()` removes: in ASCII
   * the space, tab to carriage return and the four separators 0x1C to 0x1F.
   */
  predicate IsSpace(c: char) {
    if c < '\U{0080}' then c == ' ' || ('\t' <= c <= '\r') || ('\U{001C}' <= c <= '\U{001F}')
    else IsWideSpace(c)
  }

  /** The whitespace characters of `str.isspace` beyond ASCII. */
  predicate IsWideSpace(c: char) {
    || c == '\U{0085}' || c == '\U{00A0}' || c == '\U{1680}' || ('\U{2000}' <= c <= '\U{200A}')
    || c == '\U{2028}' || c == '\U{2029}' || c == '\U{202F}' || c == '\U{205F}' || c == '\U{3000}'
  }

  function TrimLeft(s: string): (r: string)
    ensures |r| <= |s| && r == s[|s| - |r|..]
    ensures r != [] ==> !IsSpace(r[0])
    ensures forall i :: 0 <= i < |s| - |r| ==> IsSpace(s[i])
    decreases |s|
  {
    if s != [] && IsSpace(s[0]) then
      var r := TrimLeft(s[1..]);
      assert forall i :: 1 <= i < |s| - |r| ==> s[i] == s[1..][i - 1];
      r
    else s
  }

  function TrimRight(s: string): (r: string)
    ensures |r| <= |s| && r == s[..|r|]
    ensures r != [] ==> !IsSpace(r[|r| - 1])
    ensures forall i :: |r| <= i < |s| ==> IsSpace(s[i])
    decreases |s|
  {
    if s != [] && IsSpace(s[|s| - 1]) then
      var r := TrimRight(s[..|s| - 1]);
      assert forall i :: |r| <= i < |s| - 1 ==> s[i] == s[..|s| - 1][i];
      r
    else s
  }

  /** Where the stripped part of `s` starts. */
  function StripStart(s: string): nat {
    |s| - |TrimLeft(s)|
  }

  /**
   * `s.strip()`: the middle part of `s` from `StripStart(s)` on, which neither starts nor
   * ends with whitespace.
   */
  function Strip(s: string): (r: string)
    ensures StripStart(s) + |r| <= |s| && r == s[StripStart(s)..StripStart(s) + |r|]
    ensures r != [] ==> !IsSpace(r[0]) && !IsSpace(r[|r| - 1])
  {
    var l := TrimLeft(s);
    var r := TrimRight(l);
    assert r != [] ==> r[0] == l[0];
    r
  }

  /** Everything `strip()` cuts off, on either side, is whitespace. */
  lemma {:induction false} StripCutsOnlySpace(s: string)
    ensures forall k :: 0 <= k < StripStart(s) ==> IsSpace(s[k])
    ensures forall k :: StripStart(s) + |Strip(s)| <= k < |s| ==> IsSpace(s[k])
  {
    var l := TrimLeft(s);
    TailHolds(s, |s| - |l|, |TrimRight(l)|, IsSpace);
  }

  /** A test that holds on a tail of the suffix `s[i..]` holds on the same tail of `s`. */
  lemma {:induction false} TailHolds(s: string, i: int, m: int, test: char -> bool)
    requires 0 <= i <= |s| && 0 <= m
    requires forall k :: m <= k < |s[i..]| ==> test(s[i..][k])
    ensures forall k :: i + m <= k < |s| ==> test(s[k])
  {
    forall k | i + m <= k < |s| ensures test(s[k]) {
      assert s[k] == s[i..][k - i];
    }
  }

  /** A slice of a string that avoids `c` avoids it too. */
  lemma {:induction false} SliceAvoids(s: string, c: char, i: int, j: int)
    requires 0 <= i <= j <= |s|
    requires forall k :: 0 <= k < |s| ==> s[k] != c
    ensures forall k :: 0 <= k < j - i ==> s[i..j][k] != c
  {
  }

  /** A string without whitespace at either end is its own `strip()`. */
  lemma {:induction false} StripNoEdgeSpace(s: string)
    requires s != [] ==> !IsSpace(s[0]) && !IsSpace(s[|s| - 1])
    ensures Strip(s) == s
  {
    if s != [] {
      assert TrimLeft(s) == s;
      assert TrimRight(s) == s;
    }
  }

  // ---------------------------------------------------------------- Lower case

  function LowerChar(c: char): char {
    if 'A' <= c <= 'Z' then (c as int + 32) as char else c
  }

  /** `s.lower()` on the ASCII letters; every other character is kept. */
  function Lower(s: string): (r: string)
    ensures |r| == |s|
    ensures forall i :: 0 <= i < |s| ==> r[i] == LowerChar(s[i])
  {
    seq(|s|, i requires 0 <= i < |s| => LowerChar(s[i]))
  }

  /** `s.lower() == "true"` holds exactly for the spellings of "true" in any mix of cases. */
  lemma {:induction false} LowerIsTrue(s: string)
    ensures Lower(s) == "true" <==>
      |s| == 4 && (s[0] == 't' || s[0] == 'T') && (s[1] == 'r' || s[1] == 'R')
               && (s[2] == 'u' || s[2] == 'U') && (s[3] == 'e' || s[3] == 'E')
  {
    if |s| == 4 && Lower(s) == "true" {
      assert Lower(s)[0] == 't' && Lower(s)[1] == 'r' && Lower(s)[2] == 'u' && Lower(s)[3] == 'e';
    }
  }

  // ---------------------------------------------------------------- Split and join

  /** `s.split(sep)` for a one-character separator: the pieces between separators, always at least one. */
  function Split(s: string, sep: char): (parts: seq<string>)
    ensures |parts| >= 1
    ensures forall j, k :: 0 <= j < |parts| && 0 <= k < |parts[j]| ==> parts[j][k] != sep
    decreases |s|
  {
    if s == [] then [""]
    else
      var rest := Split(s[1..], sep);
      if s[0] == sep then [""] + rest
      else
        assert forall j, k :: 1 <= j < |rest| && 0 <= k < |rest[j]| ==> rest[j][k] != sep;
        [[s[0]] + rest[0]] + rest[1..]
  }

  /** `sep.join(parts)`. */
  function Join(parts: seq<string>, sep: string): string
    decreases |parts|
  {
    if parts == [] then ""
    else if |parts| == 1 then parts[0]
    else parts[0] + sep + Join(parts[1..], sep)
  }

  /** Splitting and joining back with the same separator gives the original string. */
  lemma {:induction false} JoinSplit(s: string, sep: char)
    ensures Join(Split(s, sep), [sep]) == s
    decreases |s|
  {
    if s != [] {
      JoinSplit(s[1..], sep);
      var rest := Split(s[1..], sep);
      if s[0] != sep {
        if |rest| > 1 {
          assert ([[s[0]] + rest[0]] + rest[1..])[1..] == rest[1..];
          assert Join(rest, [sep]) == rest[0] + [sep] + Join(rest[1..], [sep]);
        }
      } else {
        assert ([""] + rest)[1..] == rest;
      }
    }
  }

  /** A string without the separator splits into itself alone. */
  lemma {:induction false} SplitNoSep(p: string, sep: char)
    requires forall k :: 0 <= k < |p| ==> p[k] != sep
    ensures Split(p, sep) == [p]
    decreases |p|
  {
    if p != [] {
      SplitNoSep(p[1..], sep);
      assert [p[0]] + p[1..] == p;
    }
  }

  /** A separator-free first piece is split off whole. */
  lemma {:induction false} SplitFirst(p: string, rest: string, sep: char)
    requires forall k :: 0 <= k < |p| ==> p[k] != sep
    ensures Split(p + [sep] + rest, sep) == [p] + Split(rest, sep)
    decreases |p|
  {
    var s := p + [sep] + rest;
    if p == [] {
      assert s[1..] == rest;
    } else {
      assert s[1..] == p[1..] + [sep] + rest;
      SplitFirst(p[1..], rest, sep);
      assert [p[0]] + p[1..] == p;
    }
  }

  /** Joining separator-free pieces and splitting again gives the pieces back. */
  lemma {:induction false} SplitJoin(parts: seq<string>, sep: char)
    requires |parts| >= 1
    requires forall j, k :: 0 <= j < |parts| && 0 <= k < |parts[j]| ==> parts[j][k] != sep
    ensures Split(Join(parts, [sep]), sep) == parts
    decreases |parts|
  {
    if |parts| == 1 {
      SplitNoSep(parts[0], sep);
    } else {
      SplitJoin(parts[1..], sep);
      SplitFirst(parts[0], Join(parts[1..], [sep]), sep);
      assert [parts[0]] + parts[1..] == parts;
    }
  }

  // ---------------------------------------------------------------- Decimal numbers

  predicate IsDigit(c: char) {
    '0' <= c <= '9'
  }

  function DigitChar(d: nat): (c: char)
    requires d < 10
    ensures IsDigit(c)
  {
    ('0' as int + d) as char
  }

  function DigitValue(c: char): (d: nat)
    requires IsDigit(c)
    ensures d < 10
  {
    c as int - '0' as int
  }

  /** `str(n)` for a natural number: its decimal digits, without leading zeros. */
  function NatToString(n: nat): (s: string)
    ensures |s| >= 1
    ensures forall i :: 0 <= i < |s| ==> IsDigit(s[i])
    ensures |s| > 1 ==> s[0] != '0'
    decreases n
  {
    if n < 10 then [DigitChar(n)] else NatToString(n / 10) + [DigitChar(n % 10)]
  }

  /** `str(i)` for any integer. */
  function IntToString(i: int): string {
    if i < 0 then "-" + NatToString(-i) else NatToString(i)
  }

  predicate AllDigits(s: string) {
    forall i :: 0 <= i < |s| ==> IsDigit(s[i])
  }

  /** The value of a string of decimal digits. */
  function DigitsValue(s: string): nat
    requires AllDigits(s)
    decreases |s|
  {
    if s == [] then 0 else DigitsValue(s[..|s| - 1]) * 10 + DigitValue(s[|s| - 1])
  }

  lemma {:induction false} DigitsValueOfNatToString(n: nat)
    ensures DigitsValue(NatToString(n)) == n
    decreases n
  {
    if n >= 10 {
      DigitsValueOfNatToString(n / 10);
      var s := NatToString(n);
      assert s[..|s| - 1] == NatToString(n / 10);
    }
  }

  /** What `int()` accepts after the sign: digits, with single underscores only between two digits. */
  predicate DigitGroups(b: string) {
    && |b| > 0 && IsDigit(b[0]) && IsDigit(b[|b| - 1])
    && (forall i :: 0 <= i < |b| ==> IsDigit(b[i]) || b[i] == '_')
    && (forall i :: 0 <= i < |b| - 1 ==> !(b[i] == '_' && b[i + 1] == '_'))
  }

  function DropUnderscores(b: string): (r: string)
    requires forall i :: 0 <= i < |b| ==> IsDigit(b[i]) || b[i] == '_'
    ensures AllDigits(r)
    ensures AllDigits(b) ==> r == b
    decreases |b|
  {
    if b == [] then []
    else
      var rest := DropUnderscores(b[1..]);
      if b[0] == '_' then rest else [b[0]] + rest
  }

  /**
   * `int(s)` in base 10: surrounding whitespace is ignored, then an optional sign, then
   * digit groups. Anything else raises ValueError, modelled as `None`.
   */
  function ParseInt(s: string): Option<int> {
    var t := Strip(s);
    var negative := |t| > 0 && t[0] == '-';
    var body := if |t| > 0 && (t[0] == '-' || t[0] == '+') then t[1..] else t;
    if !DigitGroups(body) then None
    else
      var v: int := DigitsValue(DropUnderscores(body));
      Some(if negative then -v else v)
  }

  /** `int(str(i)) == i`: parsing gives back every integer that `str` renders. */
  lemma {:induction false} ParseIntOfIntToString(i: int)
    ensures ParseInt(IntToString(i)) == Some(i)
  {
    var d := NatToString(if i < 0 then -i else i);
    DigitsValueOfNatToString(if i < 0 then -i else i);
    if i < 0 {
      ParseIntOfNegative(d);
      assert IntToString(i) == "-" + d;
    } else {
      ParseIntOfDigits(d);
      assert IntToString(i) == d;
    }
  }

  /** Decimal digits parse to their value. */
  lemma {:induction false} ParseIntOfDigits(digits: string)
    requires |digits| >= 1 && AllDigits(digits)
    ensures ParseInt(digits) == Some(DigitsValue(digits) as int)
  {
    DigitsUnstripped(digits);
    PlainDigitGroups(digits);
    assert digits[0] != '-' && digits[0] != '+';
  }

  /** A minus sign followed by decimal digits parses to their negated value. */
  lemma {:induction false} ParseIntOfNegative(digits: string)
    requires |digits| >= 1 && AllDigits(digits)
    ensures ParseInt("-" + digits) == Some(-(DigitsValue(digits) as int))
  {
    NegativeUnstripped(digits);
    PlainDigitGroups(digits);
    var s := "-" + digits;
    assert s[0] == '-' && s[1..] == digits;
  }

  /** Digits have nothing for `strip()` to remove. */
  lemma {:induction false} DigitsUnstripped(digits: string)
    requires |digits| >= 1 && AllDigits(digits)
    ensures Strip(digits) == digits
  {
    assert IsDigit(digits[0]) && IsDigit(digits[|digits| - 1]);
    DigitNotSpace(digits[0]);
    DigitNotSpace(digits[|digits| - 1]);
    StripNoEdgeSpace(digits);
  }

  /** Nor does a minus sign followed by digits. */
  lemma {:induction false} NegativeUnstripped(digits: string)
    requires |digits| >= 1 && AllDigits(digits)
    ensures Strip("-" + digits) == "-" + digits
  {
    var s := "-" + digits;
    assert s[0] == '-' && s[|s| - 1] == digits[|digits| - 1];
    assert IsDigit(digits[|digits| - 1]);
    DigitNotSpace(digits[|digits| - 1]);
    StripNoEdgeSpace(s);
  }

  /** Plain digits are one group, and dropping underscores leaves them alone. */
  lemma {:induction false} PlainDigitGroups(digits: string)
    requires |digits| >= 1 && AllDigits(digits)
    ensures DigitGroups(digits) && DropUnderscores(digits) == digits
  {
    forall j | 0 <= j < |digits| - 1 ensures !(digits[j] == '_' && digits[j + 1] == '_') {
      assert IsDigit(digits[j]);
    }
  }

  lemma {:induction false} DigitNotSpace(c: char)
    requires IsDigit(c)
    ensures !IsSpace(c)
  {
  }
}
