/**
 * The handful of Python string operations the codec relies on: str.strip(),
 * str.startswith(), slicing, str.split(sep), str(n) and int(s), and
 * '\n'.join(...), stated over Dafny strings (sequences of characters).
 */
module Strings {
  import opened Values

  /** Python's str.isspace() for one character (the characters strip() removes). */
  predicate IsSpace(c: char) {
    var n := c as int;
    (9 <= n <= 13) || (28 <= n <= 32) || n == 0x85 || n == 0xA0 || n == 0x1680
    || (0x2000 <= n <= 0x200A) || n == 0x2028 || n == 0x2029 || n == 0x202F
    || n == 0x205F || n == 0x3000
  }

  predicate IsDigit(c: char) {
    '0' <= c <= '9'
  }

  predicate AllDigits(s: string) {
    forall k :: 0 <= k < |s| ==> IsDigit(s[k])
  }

  predicate AllSpaces(s: string) {
    forall k :: 0 <= k < |s| ==> s[k] == ' '
  }

  /** Neither the first nor the last character is whitespace. */
  predicate NoEdgeSpace(s: string) {
    s == [] || (!IsSpace(s[0]) && !IsSpace(s[|s| - 1]))
  }

  /** `c * n` in Python. */
  function Repeat(c: char, n: nat): (r: string)
    ensures |r| == n
  {
    seq(n, _ => c)
  }

  lemma {:induction false} RepeatAdd(c: char, a: nat, b: nat)
    ensures Repeat(c, a) + Repeat(c, b) == Repeat(c, a + b)
  {
  }

  /** str.lstrip(): drops the leading whitespace. */
  function TrimLeft(s: string): (r: string)
    ensures |r| <= |s|
  {
    if s != [] && IsSpace(s[0]) then TrimLeft(s[1..]) else s
  }

  /** lstrip() keeps a suffix, removes only whitespace and stops at the first other character. */
  lemma {:induction false} TrimLeftFacts(s: string)
    ensures var r := TrimLeft(s); r == s[|s| - |r|..]
    ensures var r := TrimLeft(s); forall k :: 0 <= k < |s| - |r| ==> IsSpace(s[k])
    ensures var r := TrimLeft(s); r == [] || !IsSpace(r[0])
  {
    if s != [] && IsSpace(s[0]) {
      TrimLeftFacts(s[1..]);
    }
  }

  /** str.rstrip(): drops the trailing whitespace. */
  function TrimRight(s: string): (r: string)
    ensures |r| <= |s|
  {
    if s != [] && IsSpace(s[|s| - 1]) then TrimRight(s[..|s| - 1]) else s
  }

  /** rstrip() keeps a prefix, removes only whitespace and stops at the last other character. */
  lemma {:induction false} TrimRightFacts(s: string)
    ensures var r := TrimRight(s); r == s[..|r|]
    ensures var r := TrimRight(s); forall k :: |r| <= k < |s| ==> IsSpace(s[k])
    ensures var r := TrimRight(s); r == [] || !IsSpace(r[|r| - 1])
  {
    if s != [] && IsSpace(s[|s| - 1]) {
      TrimRightFacts(s[..|s| - 1]);
    }
  }

  /** str.strip(). */
  function Strip(s: string): (r: string)
  {
    TrimRight(TrimLeft(s))
  }

  /** What strip() keeps never starts or ends with whitespace, and it is empty exactly for all-whitespace text. */
  lemma {:induction false} StripFacts(s: string)
    ensures |Strip(s)| <= |s|
    ensures NoEdgeSpace(Strip(s))
    ensures Strip(s) == [] <==> forall k :: 0 <= k < |s| ==> IsSpace(s[k])
  {
    var l := TrimLeft(s);
    var r := TrimRight(l);
    TrimLeftFacts(s);
    TrimRightFacts(l);
    if r == [] {
      assert l == [];
    } else {
      assert r[0] == l[0];
    }
  }

  /** Text that has no whitespace at either end is left alone by strip(). */
  lemma {:induction false} StripNoEdge(s: string)
    requires NoEdgeSpace(s)
    ensures Strip(s) == s
  {
  }

  /** Right-padding with blanks is undone by strip() on text without edge whitespace. */
  lemma {:induction false} StripPadded(s: string, n: nat)
    requires NoEdgeSpace(s)
    ensures Strip(s + Repeat(' ', n)) == s
  {
    var t := s + Repeat(' ', n);
    if s == [] {
      assert t == Repeat(' ', n);
      StripFacts(t);
    } else {
      assert TrimLeft(t) == t;
      TrimRightSpaces(s, n);
    }
  }

  lemma {:induction false} TrimRightSpaces(s: string, n: nat)
    requires s == [] || !IsSpace(s[|s| - 1])
    ensures TrimRight(s + Repeat(' ', n)) == s
    decreases n
  {
    if n > 0 {
      var t := s + Repeat(' ', n);
      assert t[..|t| - 1] == s + Repeat(' ', n - 1);
      TrimRightSpaces(s, n - 1);
    } else {
      assert s + Repeat(' ', 0) == s;
    }
  }

  /** Digits are never whitespace, so a digit string is its own strip(). */
  lemma {:induction false} StripDigits(s: string)
    requires AllDigits(s)
    ensures TrimLeft(s) == s && TrimRight(s) == s && Strip(s) == s
  {
    if s != [] {
      assert !IsSpace(s[0]) && !IsSpace(s[|s| - 1]);
    }
    StripNoEdge(s);
  }

  /** str.startswith(p). */
  predicate StartsWith(s: string, p: string) {
    |p| <= |s| && s[..|p|] == p
  }

  /** Python slicing s[lo:hi] for non-negative bounds: out-of-range bounds are clamped. */
  function Slice(s: string, lo: nat, hi: nat): (r: string)
    ensures lo <= hi <= |s| ==> r == s[lo..hi]
  {
    var a := if lo <= |s| then lo else |s|;
    var b := if hi <= |s| then hi else |s|;
    if a < b then s[a..b] else []
  }

  /** str.split(sep) with a one-character separator. */
  function SplitOn(s: string, sep: char): (parts: seq<string>)
    ensures |parts| >= 1
  {
    if s == [] then [[]]
    else
      var rest := SplitOn(s[1..], sep);
      if s[0] == sep then [[]] + rest else [[s[0]] + rest[0]] + rest[1..]
  }

  /** Text without the separator splits into itself. */
  lemma {:induction false} SplitOnNone(s: string, sep: char)
    requires sep !in s
    ensures SplitOn(s, sep) == [s]
  {
    if s != [] {
      SplitOnNone(s[1..], sep);
      assert [s[0]] + s[1..] == s;
    }
  }

  /** Splitting `a + sep + b` where `a` holds no separator gives `a` then the parts of `b`. */
  lemma {:induction false} SplitOnFirst(a: string, sep: char, b: string)
    requires sep !in a
    ensures SplitOn(a + [sep] + b, sep) == [a] + SplitOn(b, sep)
  {
    var s := a + [sep] + b;
    if a == [] {
      assert s[1..] == b;
    } else {
      assert s[1..] == a[1..] + [sep] + b;
      SplitOnFirst(a[1..], sep, b);
      assert [a[0]] + a[1..] == a;
    }
  }

  // ---- decimal digits -----------------------------------------------------

  function DigitChar(d: nat): (c: char)
    requires d < 10
    ensures IsDigit(c)
  {
    (48 + d) as char
  }

  function DigitValue(c: char): (d: nat)
    requires IsDigit(c)
    ensures d < 10 && DigitChar(d) == c
  {
    (c as int - 48)
  }

  /** The value of a string of decimal digits (leading zeros allowed). */
  function DigitsValue(s: string): nat
    requires AllDigits(s)
  {
    if s == [] then 0 else 10 * DigitsValue(s[..|s| - 1]) + DigitValue(s[|s| - 1])
  }

  /** str(n) for a natural number: its shortest decimal form. */
  function NatStr(n: nat): (s: string)
    ensures |s| >= 1 && AllDigits(s)
    ensures s[0] == '0' ==> n == 0
  {
    if n < 10 then [DigitChar(n)] else NatStr(n / 10) + [DigitChar(n % 10)]
  }

  /** str(n) for any integer. */
  function IntStr(n: int): string {
    if n < 0 then "-" + NatStr(-n) else NatStr(n)
  }

  /** Reading back the decimal form of n gives n. */
  lemma {:induction false} DigitsValueNatStr(n: nat)
    ensures DigitsValue(NatStr(n)) == n
  {
    if n >= 10 {
      var s := NatStr(n);
      assert s[..|s| - 1] == NatStr(n / 10);
      DigitsValueNatStr(n / 10);
    }
  }

  /** A zero in front does not change the value. */
  lemma {:induction false} DigitsValueLeadingZero(s: string)
    requires AllDigits(s)
    ensures AllDigits(['0'] + s) && DigitsValue(['0'] + s) == DigitsValue(s)
  {
    var t := ['0'] + s;
    if s != [] {
      assert t[..|t| - 1] == ['0'] + s[..|s| - 1];
      DigitsValueLeadingZero(s[..|s| - 1]);
    }
  }

  /** Any number of zeros in front does not change the value. */
  lemma {:induction false} DigitsValueZeros(n: nat, s: string)
    requires AllDigits(s)
    ensures AllDigits(Repeat('0', n) + s) && DigitsValue(Repeat('0', n) + s) == DigitsValue(s)
    decreases n
  {
    if n > 0 {
      var t := Repeat('0', n - 1) + s;
      DigitsValueZeros(n - 1, s);
      assert Repeat('0', n) + s == ['0'] + t;
      DigitsValueLeadingZero(t);
    } else {
      assert Repeat('0', n) + s == s;
    }
  }

  /** A digit string that is not zero-led has a positive value. */
  lemma {:induction false} DigitsValuePositive(s: string)
    requires AllDigits(s) && |s| >= 1 && s[0] != '0'
    ensures DigitsValue(s) >= 1
  {
    if |s| > 1 {
      DigitsValuePositive(s[..|s| - 1]);
    }
  }

  /** A digit string without a leading zero (or the single "0") is the decimal form of its value. */
  lemma {:induction false} NatStrDigitsValue(s: string)
    requires AllDigits(s) && |s| >= 1 && (s[0] != '0' || |s| == 1)
    ensures NatStr(DigitsValue(s)) == s
  {
    if |s| > 1 {
      var p := s[..|s| - 1];
      DigitsValuePositive(p);
      NatStrDigitsValue(p);
      var v := DigitsValue(s);
      assert v / 10 == DigitsValue(p) && v % 10 == DigitValue(s[|s| - 1]);
      assert s == p + [s[|s| - 1]];
    }
  }

  /**
   * Zero-padding the decimal form of a digit string's value back to the
   * string's length gives the string back: int() then zero-fill is the
   * identity on digit strings.
   */
  lemma {:induction false} PadDigitsValue(s: string)
    requires AllDigits(s) && |s| >= 1
    ensures |NatStr(DigitsValue(s))| <= |s|
    ensures Repeat('0', |s| - |NatStr(DigitsValue(s))|) + NatStr(DigitsValue(s)) == s
  {
    PadValue(s, DigitsValue(s));
  }

  lemma {:induction false} PadValue(s: string, v: nat)
    requires AllDigits(s) && |s| >= 1 && v == DigitsValue(s)
    ensures |NatStr(v)| <= |s|
    ensures Repeat('0', |s| - |NatStr(v)|) + NatStr(v) == s
  {
    if s[0] != '0' || |s| == 1 {
      NatStrDigitsValue(s);
      assert Repeat('0', 0) + s == s;
    } else {
      var t := s[1..];
      assert s == ['0'] + t;
      DigitsValueLeadingZero(t);
      PadValue(t, v);
      var d := NatStr(v);
      assert Repeat('0', |s| - |d|) == ['0'] + Repeat('0', |t| - |d|);
    }
  }

  /** The value of exactly two digits. */
  function TwoDigits(m: nat): (s: string)
    requires m < 100
    ensures |s| == 2 && AllDigits(s) && DigitsValue(s) == m
  {
    var s := [DigitChar(m / 10), DigitChar(m % 10)];
    assert s[..1] == [DigitChar(m / 10)] && s[..1][..0] == [];
    assert DigitsValue(s[..1]) == m / 10;
    s
  }

  /**
   * int(s): surrounding whitespace, an optional sign, then at least one
   * decimal digit.
   */
  function ParseInt(s: string): (r: Option<int>)
  {
    var t := Strip(s);
    var body := if t != [] && (t[0] == '-' || t[0] == '+') then t[1..] else t;
    if body != [] && AllDigits(body) then
      var v: int := DigitsValue(body);
      Some(if t[0] == '-' then -v else v)
    else None
  }

  /** int() of a non-empty digit string is its value. */
  lemma {:induction false} ParseIntDigits(s: string)
    requires AllDigits(s) && |s| >= 1
    ensures ParseInt(s) == Some(DigitsValue(s))
  {
    StripDigits(s);
  }

  /** '<sep>'.join(parts). */
  function Join(parts: seq<string>, sep: string): string
  {
    if |parts| == 0 then []
    else if |parts| == 1 then parts[0]
    else parts[0] + sep + Join(parts[1..], sep)
  }

  /** Two prefixes of the same string: the shorter one is a prefix of the longer one. */
  lemma {:induction false} CommonPrefix(s: string, p: string, q: string)
    requires StartsWith(s, p) && StartsWith(s, q) && |p| <= |q|
    ensures StartsWith(q, p)
  {
    assert q[..|p|] == s[..|q|][..|p|];
  }

  /** The joined text starts with the first part and ends with the last one. */
  lemma {:induction false} JoinEnds(parts: seq<string>, sep: string)
    requires |parts| >= 1
    ensures StartsWith(Join(parts, sep), parts[0])
    ensures var j := Join(parts, sep); var l := parts[|parts| - 1];
      |l| <= |j| && j[|j| - |l|..] == l
  {
    if |parts| > 1 {
      JoinEnds(parts[1..], sep);
      var j := Join(parts, sep);
      var rest := Join(parts[1..], sep);
      assert j == parts[0] + sep + rest;
      assert j[..|parts[0]|] == parts[0];
      var l := parts[|parts| - 1];
      assert l == parts[1..][|parts[1..]| - 1];
      assert j[|j| - |l|..] == rest[|rest| - |l|..];
    }
  }
}
