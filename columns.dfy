/**
 * Column codecs of the fixed-width declaration file: how one field value is
 * rendered into a slice of a given width and how a slice is read back.
 *
 * Numbers are zero-filled on the left, text is blank-filled on the right,
 * dates travel as DDMMYYYY and are held as YYYY-MM-DD, amounts carry two
 * implied decimals, and "text integers" are rendered as numbers but read
 * back as trimmed strings.
 */
module Columns {
  import opened Values
  import opened Strings

  /** The codec kinds: ColText, ColTextCapital, ColDate, ColPoso, ColInt, ColIntSpace, ColTextInt. */
  datatype ColumnType =
    | ColText
    | ColTextCapital
    | ColDate
    | ColPoso
    | ColInt
    | ColIntSpace
    | ColTextInt

  /** fill_front_zeros: raises when the text is wider than the column, else keeps it at the right behind zeros. */
  function FillFrontZeros(txtval: string, size: nat): (r: Result<string>)
    ensures r.Err? <==> |txtval| > size
    ensures r.Err? ==> r.error == ValueTooWide
    ensures r.Ok? ==> |r.value| == size && r.value[size - |txtval|..] == txtval
  {
    if |txtval| > size then Err(ValueTooWide) else Ok(Repeat('0', size - |txtval|) + txtval)
  }

  /** fill_back_spaces: raises when the text is wider than the column, else keeps it at the left before blanks. */
  function FillBackSpaces(txtval: string, size: nat): (r: Result<string>)
    ensures r.Err? <==> |txtval| > size
    ensures r.Err? ==> r.error == ValueTooWide
    ensures r.Ok? ==> |r.value| == size && r.value[..|txtval|] == txtval
  {
    if |txtval| > size then Err(ValueTooWide) else Ok(txtval + Repeat(' ', size - |txtval|))
  }

  /** The fill characters: zeros in front, blanks behind. */
  lemma {:induction false} FillCharacters(txtval: string, size: nat)
    ensures FillFrontZeros(txtval, size).Ok? ==>
      forall k :: 0 <= k < size - |txtval| ==> FillFrontZeros(txtval, size).value[k] == '0'
    ensures FillBackSpaces(txtval, size).Ok? ==>
      forall k :: |txtval| <= k < size ==> FillBackSpaces(txtval, size).value[k] == ' '
  {
  }

  /** int(value): integers as they are, floats truncated toward zero, strings parsed. */
  function ToInt(v: Value): Option<int>
  {
    match v
    case Int(n) => Some(n)
    case Amount(c) => Some(if c >= 0 then c / 100 else -((-c) / 100))
    case Text(s) => ParseInt(s)
  }

  /** The number of cents f'{value:.2f}' prints; a string cannot be formatted that way. */
  function ToCents(v: Value): Option<int>
  {
    match v
    case Int(n) => Some(100 * n)
    case Amount(c) => Some(c)
    case Text(_) => None
  }

  /**
   * The digits of f'{m / 100:.2f}' for m >= 0 once the decimal point is
   * removed: the decimal form of m, zero-filled to at least three digits.
   */
  function CentsDigits(m: nat): (s: string)
    ensures |s| >= 3 && AllDigits(s)
  {
    var n := NatStr(m);
    if |n| < 3 then Repeat('0', 3 - |n|) + n else n
  }

  /** f'{cents / 100:.2f}' with the decimal point removed. */
  function CentsStr(c: int): string
  {
    if c < 0 then "-" + CentsDigits(-c) else CentsDigits(c)
  }

  /** ColDate.render: blank text is blank-filled, anything else is split on '-' into exactly three parts. */
  function DateRender(v: Value, size: nat): Result<string>
  {
    if !v.Text? then Err(TypeMismatch)
    else if Strip(v.s) == [] then FillBackSpaces(v.s, size)
    else
      var parts := SplitOn(v.s, '-');
      if |parts| != 3 then Err(MalformedValue) else Ok(parts[2] + parts[1] + parts[0])
  }

  /**
   * ColPoso.render: the amount with two decimals, point removed, zero-filled;
   * formatting a string with '.2f' raises ValueError.
   */
  function PosoRender(v: Value, size: nat): Result<string>
  {
    match ToCents(v)
    case None => Err(MalformedValue)
    case Some(c) => FillFrontZeros(CentsStr(c), size)
  }

  /** ColInt, ColIntSpace and ColTextInt render: str(int(value)) zero-filled. */
  function IntRender(v: Value, size: nat): Result<string>
  {
    match ToInt(v)
    case None => Err(MalformedValue)
    case Some(n) => FillFrontZeros(IntStr(n), size)
  }

  /** The ColumnType.render of each codec. */
  function Render(ct: ColumnType, v: Value, size: nat, grup: string -> string): Result<string>
  {
    match ct
    case ColText => if v.Text? then FillBackSpaces(v.s, size) else Err(TypeMismatch)
    case ColTextCapital => if v.Text? then FillBackSpaces(grup(v.s), size) else Err(TypeMismatch)
    case ColDate => DateRender(v, size)
    case ColPoso => PosoRender(v, size)
    case _ => IntRender(v, size)
  }

  /**
   * What each codec's render promises. The text codecs need a string and
   * keep it (capitalised by ColTextCapital) at the left of `size`
   * characters; the number codecs need a value int() accepts and keep
   * str(int(value)) at the right; the amount codec needs a number and keeps
   * its cents at the right; the date codec needs a string. A value too wide
   * for its column fails with ValueTooWide; a value of the wrong kind fails
   * with TypeMismatch for the text and date codecs and with MalformedValue
   * for the number codecs, whose int() and '.2f' raise ValueError.
   */
  lemma {:induction false} RenderCodecs(ct: ColumnType, v: Value, size: nat, grup: string -> string)
    ensures var r := Render(ct, v, size, grup);
      (ct == ColText || ct == ColTextCapital || ct == ColDate) && !v.Text? ==> r == Err(TypeMismatch)
    ensures var r := Render(ct, v, size, grup);
      ct == ColText && v.Text? ==>
        (r.Ok? <==> |v.s| <= size) && (r.Ok? ==> |r.value| == size && StartsWith(r.value, v.s))
    ensures var r := Render(ct, v, size, grup);
      ct == ColTextCapital && v.Text? ==>
        (r.Ok? <==> |grup(v.s)| <= size) && (r.Ok? ==> |r.value| == size && StartsWith(r.value, grup(v.s)))
    ensures var r := Render(ct, v, size, grup);
      ct == ColPoso ==>
        (r.Ok? <==> ToCents(v).Some? && |CentsStr(ToCents(v).value)| <= size)
        && (r.Ok? ==> var c := CentsStr(ToCents(v).value); |r.value| == size && r.value[size - |c|..] == c)
    ensures var r := Render(ct, v, size, grup);
      (ct == ColInt || ct == ColIntSpace || ct == ColTextInt) ==>
        (r.Ok? <==> ToInt(v).Some? && |IntStr(ToInt(v).value)| <= size)
        && (r.Ok? ==> var n := IntStr(ToInt(v).value); |r.value| == size && r.value[size - |n|..] == n)
    ensures var r := Render(ct, v, size, grup);
      (ct == ColText || ct == ColTextCapital) && v.Text? && r.Err? ==> r.error == ValueTooWide
    ensures var r := Render(ct, v, size, grup);
      ct == ColPoso && ToCents(v).None? ==> r == Err(MalformedValue)
    ensures var r := Render(ct, v, size, grup);
      (ct == ColInt || ct == ColIntSpace || ct == ColTextInt) && ToInt(v).None? ==> r == Err(MalformedValue)
    ensures var r := Render(ct, v, size, grup);
      r.Err? ==> r.error == ValueTooWide || r.error == TypeMismatch || r.error == MalformedValue
  {
  }

  /**
   * Every codec but the date one renders exactly `size` characters; a date
   * does so only when blank, and otherwise renders the three '-'-separated
   * parts in reverse order whatever the width.
   */
  lemma {:induction false} RenderWidth(ct: ColumnType, v: Value, size: nat, grup: string -> string)
    requires Render(ct, v, size, grup).Ok?
    ensures ct != ColDate ==> |Render(ct, v, size, grup).value| == size
    ensures ct == ColDate ==> v.Text?
    ensures ct == ColDate && Strip(v.s) == [] ==> |Render(ct, v, size, grup).value| == size
    ensures ct == ColDate && Strip(v.s) != [] ==>
      var parts := SplitOn(v.s, '-');
      |parts| == 3 && Render(ct, v, size, grup).value == parts[2] + parts[1] + parts[0]
  {
  }

  function Pow10(e: nat): nat
  {
    if e == 0 then 1 else 10 * Pow10(e - 1)
  }

  /**
   * float(f'{t[:-2]}.{t[-2:]}') in cents: an optional sign, the integer
   * digits, the point, then at most two fraction digits, or an exponent
   * such as "e5" when the last two characters make one; whitespace is
   * allowed only around the whole number.
   */
  function ReadAmount(t: string): Option<int>
  {
    var k := if |t| >= 2 then |t| - 2 else 0;
    var a := TrimLeft(t[..k]);
    var b := TrimRight(t[k..]);
    var digits := if a != [] && (a[0] == '-' || a[0] == '+') then a[1..] else a;
    var negative := a != [] && a[0] == '-';
    if AllDigits(digits) && AllDigits(b) && |digits| + |b| >= 1 then
      var frac: int := if |b| == 1 then 10 * DigitsValue(b) else DigitsValue(b);
      var c: int := 100 * DigitsValue(digits) + frac;
      Some(if negative then -c else c)
    else if AllDigits(digits) && |digits| >= 1 && |b| == 2 && (b[0] == 'e' || b[0] == 'E') && IsDigit(b[1]) then
      var c: int := 100 * DigitsValue(digits) * Pow10(DigitValue(b[1]));
      Some(if negative then -c else c)
    else None
  }

  /** int(txtvalue) as a field value. */
  function ReadInt(t: string): Result<Value>
  {
    match ParseInt(t)
    case Some(n) => Ok(Int(n))
    case None => Err(MalformedValue)
  }

  /** The ColumnType.reverse of each codec. */
  function Reverse(ct: ColumnType, txtvalue: string): Result<Value>
  {
    match ct
    case ColText => Ok(Text(Strip(txtvalue)))
    case ColTextCapital => Ok(Text(Strip(txtvalue)))
    case ColDate =>
      if Strip(txtvalue) == [] then Ok(Text([]))
      else Ok(Text(Slice(txtvalue, 4, 8) + "-" + Slice(txtvalue, 2, 4) + "-" + Slice(txtvalue, 0, 2)))
    case ColPoso =>
      (match ReadAmount(txtvalue)
       case Some(c) => Ok(Amount(c))
       case None => Err(MalformedValue))
    case ColInt => ReadInt(txtvalue)
    case ColIntSpace => ReadInt(txtvalue)
    case ColTextInt => Ok(Text(Strip(txtvalue)))
  }

  /**
   * What each codec's reverse promises. The text and date codecs always give
   * a string; the number codecs give the integer int() reads and the amount
   * codec the amount float() reads, and fail with MalformedValue, their only
   * failure, when the slice is not a number.
   */
  lemma {:induction false} ReverseCodecs(ct: ColumnType, txtvalue: string)
    ensures var r := Reverse(ct, txtvalue);
      (ct == ColText || ct == ColTextCapital || ct == ColTextInt || ct == ColDate) ==> r.Ok? && r.value.Text?
    ensures var r := Reverse(ct, txtvalue);
      (ct == ColInt || ct == ColIntSpace) ==>
        (r.Ok? <==> ParseInt(txtvalue).Some?) && (r.Ok? ==> r.value == Int(ParseInt(txtvalue).value))
    ensures var r := Reverse(ct, txtvalue);
      ct == ColPoso ==>
        (r.Ok? <==> ReadAmount(txtvalue).Some?) && (r.Ok? ==> r.value == Amount(ReadAmount(txtvalue).value))
    ensures var r := Reverse(ct, txtvalue);
      r.Err? ==> r.error == MalformedValue
  {
  }

  /**
   * The text codecs never fail and return stripped text; the date codec
   * never fails and returns '' exactly for an all-whitespace slice.
   */
  lemma {:induction false} ReverseShape(ct: ColumnType, txtvalue: string)
    ensures ct in {ColText, ColTextCapital, ColTextInt} ==>
      var r := Reverse(ct, txtvalue); r.Ok? && r.value.Text? && NoEdgeSpace(r.value.s)
    ensures ct == ColDate ==>
      var r := Reverse(ct, txtvalue); r.Ok? && (r.value == Text([]) <==> forall k :: 0 <= k < |txtvalue| ==> IsSpace(txtvalue[k]))
  {
    StripFacts(txtvalue);
    if ct == ColDate && Strip(txtvalue) != [] {
      var r := Reverse(ct, txtvalue).value.s;
      assert r[|Slice(txtvalue, 4, 8)|] == '-';
    }
  }

  // ---- round trips ---------------------------------------------------------

  /** An ISO date YYYY-MM-DD written with decimal digits. */
  predicate IsIsoDate(s: string) {
    |s| == 10 && s[4] == '-' && s[7] == '-'
    && AllDigits(s[..4]) && AllDigits(s[5..7]) && AllDigits(s[8..])
  }

  /** A value that renders into `size` characters and reads back as itself. */
  predicate CanonicalValue(ct: ColumnType, v: Value, size: nat, grup: string -> string) {
    match ct
    case ColText => v.Text? && |v.s| <= size && NoEdgeSpace(v.s)
    case ColTextCapital => v.Text? && |v.s| <= size && NoEdgeSpace(v.s) && grup(v.s) == v.s
    case ColDate => v == Text([]) || (v.Text? && IsIsoDate(v.s) && size == 8)
    case ColPoso => v.Amount? && v.cents >= 0 && |CentsStr(v.cents)| <= size
    case ColInt => v.Int? && v.n >= 0 && |NatStr(v.n)| <= size
    case ColIntSpace => v.Int? && v.n >= 0 && |NatStr(v.n)| <= size
    case ColTextInt => v.Text? && |v.s| == size && size >= 1 && AllDigits(v.s)
  }

  /** A slice as the codec itself would have written it. */
  predicate CanonicalSlice(ct: ColumnType, t: string, grup: string -> string) {
    match ct
    case ColText => |Strip(t)| <= |t| && t == Strip(t) + Repeat(' ', |t| - |Strip(t)|)
    case ColTextCapital =>
      |Strip(t)| <= |t| && t == Strip(t) + Repeat(' ', |t| - |Strip(t)|) && grup(Strip(t)) == Strip(t)
    case ColDate => AllSpaces(t) || (|t| == 8 && AllDigits(t))
    case ColPoso => |t| >= 3 && AllDigits(t)
    case ColInt => |t| >= 1 && AllDigits(t)
    case ColIntSpace => |t| >= 1 && AllDigits(t)
    case ColTextInt => |t| >= 1 && AllDigits(t)
  }

  /** Two digits read back and re-rendered give the same two digits. */
  lemma {:induction false} TwoDigitsValue(f: string)
    requires |f| == 2 && AllDigits(f)
    ensures DigitsValue(f) < 100 && TwoDigits(DigitsValue(f)) == f
  {
    var a, b := DigitValue(f[0]), DigitValue(f[1]);
    assert f[..1] == [f[0]] && f[..1][..0] == [];
    assert DigitsValue(f[..1]) == a;
    assert DigitsValue(f) == 10 * a + b;
    assert TwoDigits(10 * a + b) == [DigitChar(a), DigitChar(b)];
  }

  /** The three '-'-separated parts of an ISO date. */
  lemma {:induction false} DateParts(y: string, m: string, d: string)
    requires AllDigits(y) && AllDigits(m) && AllDigits(d)
    ensures SplitOn(y + "-" + m + "-" + d, '-') == [y, m, d]
  {
    assert '-' !in y && '-' !in m && '-' !in d by {
      assert !IsDigit('-');
    }
    assert y + "-" + m + "-" + d == y + ['-'] + (m + ['-'] + d);
    SplitOnFirst(y, '-', m + ['-'] + d);
    SplitOnFirst(m, '-', d);
    SplitOnNone(d, '-');
  }

  /** Text that starts with a digit is not blank. */
  lemma {:induction false} DigitFirstNotBlank(s: string)
    requires |s| >= 1 && IsDigit(s[0])
    ensures Strip(s) != []
  {
    StripFacts(s);
    assert !IsSpace(s[0]);
  }

  lemma {:induction false} DateValueRoundTrip(y: string, m: string, d: string, size: nat)
    requires |y| == 4 && |m| == 2 && |d| == 2 && AllDigits(y) && AllDigits(m) && AllDigits(d)
    ensures DateRender(Text(y + "-" + m + "-" + d), size) == Ok(d + m + y)
    ensures Reverse(ColDate, d + m + y) == Ok(Text(y + "-" + m + "-" + d))
  {
    DateParts(y, m, d);
    DigitFirstNotBlank(y + "-" + m + "-" + d);
    var t := d + m + y;
    DigitFirstNotBlank(t);
    assert Slice(t, 4, 8) == y && Slice(t, 2, 4) == m && Slice(t, 0, 2) == d;
  }

  /** The last two digits of a digit string weigh one, the rest a hundred. */
  lemma {:induction false} DigitsValueCents(t: string)
    requires |t| >= 2 && AllDigits(t)
    ensures DigitsValue(t) == 100 * DigitsValue(t[..|t| - 2]) + DigitsValue(t[|t| - 2..])
  {
    var k := |t| - 2;
    var f := t[k..];
    assert t[..|t| - 1][..k] == t[..k];
    assert f[..1] == [t[k]] && f[..1][..0] == [];
    assert DigitsValue(f[..1]) == DigitValue(t[k]);
  }

  /** A digit string reads as the amount of that many cents. */
  lemma {:induction false} ReadAmountDigits(t: string)
    requires |t| >= 2 && AllDigits(t)
    ensures ReadAmount(t) == Some(DigitsValue(t))
  {
    var x := 100 * DigitsValue(t[..|t| - 2]) + DigitsValue(t[|t| - 2..]);
    DigitsValueCents(t);
    assert x == DigitsValue(t);
    ReadAmountSplit(t);
    assert ReadAmount(t) == Some(x);
  }

  lemma {:induction false} ReadAmountSplit(t: string)
    requires |t| >= 2 && AllDigits(t)
    ensures ReadAmount(t) == Some(100 * DigitsValue(t[..|t| - 2]) + DigitsValue(t[|t| - 2..]))
  {
    var k := |t| - 2;
    StripDigits(t[..k]);
    StripDigits(t[k..]);
  }

  /** The digits rendered for a non-negative amount read back as that amount. */
  lemma {:induction false} CentsDigitsValue(c: nat)
    ensures DigitsValue(CentsDigits(c)) == c
  {
    var n := NatStr(c);
    DigitsValueNatStr(c);
    if |n| < 3 {
      DigitsValueZeros(3 - |n|, n);
    }
  }

  lemma {:induction false} PosoValueRoundTrip(c: nat, size: nat)
    requires |CentsStr(c)| <= size
    ensures var r := PosoRender(Amount(c), size);
      r.Ok? && |r.value| == size && Reverse(ColPoso, r.value) == Ok(Amount(c))
  {
    var d := CentsDigits(c);
    assert CentsStr(c) == d;
    var t := Repeat('0', size - |d|) + d;
    assert FillFrontZeros(d, size) == Ok(t) && |t| == size;
    PosoRenderDigits(c, size, t);
    DigitsValueZeros(size - |d|, d);
    CentsDigitsValue(c);
    PosoSliceRoundTrip(t, c);
  }

  /** Zero-filling the cents digits of a digit string's value to its width gives the string back. */
  lemma {:induction false} PadCents(t: string, c: nat)
    requires |t| >= 3 && AllDigits(t) && c == DigitsValue(t)
    ensures FillFrontZeros(CentsDigits(c), |t|) == Ok(t)
  {
    PadValue(t, c);
    var n := NatStr(c);
    var w := |t| - |CentsDigits(c)|;
    if |n| < 3 {
      RepeatAdd('0', w, 3 - |n|);
      assert Repeat('0', w) + CentsDigits(c) == Repeat('0', w) + Repeat('0', 3 - |n|) + n;
    }
  }

  lemma {:induction false} PosoSliceRoundTrip(t: string, c: nat)
    requires |t| >= 3 && AllDigits(t) && c == DigitsValue(t)
    ensures Reverse(ColPoso, t) == Ok(Amount(c))
    ensures PosoRender(Amount(c), |t|) == Ok(t)
  {
    PadCents(t, c);
    PosoRenderDigits(c, |t|, t);
    ReadAmountDigits(t);
  }

  lemma {:induction false} PosoRenderDigits(c: nat, size: nat, t: string)
    requires FillFrontZeros(CentsDigits(c), size) == Ok(t)
    ensures PosoRender(Amount(c), size) == Ok(t)
  {
  }

  lemma {:induction false} IntValueRoundTrip(ct: ColumnType, n: nat, size: nat)
    requires ct == ColInt || ct == ColIntSpace
    requires |NatStr(n)| <= size
    ensures var r := IntRender(Int(n), size);
      r.Ok? && |r.value| == size && Reverse(ct, r.value) == Ok(Int(n))
  {
    var t := Repeat('0', size - |NatStr(n)|) + NatStr(n);
    assert IntRender(Int(n), size) == Ok(t);
    DigitsValueZeros(size - |NatStr(n)|, NatStr(n));
    DigitsValueNatStr(n);
    ParseIntDigits(t);
  }

  /** Zero-filling the number a digit string denotes, at the string's width, gives the string back. */
  lemma {:induction false} DigitsRerender(t: string)
    requires |t| >= 1 && AllDigits(t)
    ensures IntRender(Int(DigitsValue(t)), |t|) == Ok(t)
    ensures IntRender(Text(t), |t|) == Ok(t)
  {
    PadDigitsValue(t);
    ParseIntDigits(t);
  }

  lemma {:induction false} TextValueRoundTrip(ct: ColumnType, s: string, size: nat, grup: string -> string)
    requires ct == ColText || (ct == ColTextCapital && grup(s) == s)
    requires |s| <= size && NoEdgeSpace(s)
    ensures Render(ct, Text(s), size, grup) == Ok(s + Repeat(' ', size - |s|))
    ensures Reverse(ct, s + Repeat(' ', size - |s|)) == Ok(Text(s))
  {
    StripPadded(s, size - |s|);
  }

  lemma {:induction false} TextSliceRoundTrip(ct: ColumnType, t: string, grup: string -> string)
    requires ct == ColText || ct == ColTextCapital
    requires CanonicalSlice(ct, t, grup)
    ensures Reverse(ct, t) == Ok(Text(Strip(t)))
    ensures Render(ct, Text(Strip(t)), |t|, grup) == Ok(t)
  {
  }

  lemma {:induction false} DateSliceRoundTrip(t: string)
    requires AllSpaces(t) || (|t| == 8 && AllDigits(t))
    ensures Reverse(ColDate, t).Ok?
    ensures DateRender(Reverse(ColDate, t).value, |t|) == Ok(t)
  {
    if AllSpaces(t) {
      StripFacts(t);
      assert t == Repeat(' ', |t|);
    } else {
      var d, m, y := t[..2], t[2..4], t[4..];
      assert t == d + m + y;
      DateValueRoundTrip(y, m, d, |t|);
    }
  }

  lemma {:induction false} DateValueCanonical(v: Value, size: nat)
    requires v == Text([]) || (v.Text? && IsIsoDate(v.s) && size == 8)
    ensures DateRender(v, size).Ok? && |DateRender(v, size).value| == size
    ensures Reverse(ColDate, DateRender(v, size).value) == Ok(v)
  {
    if v == Text([]) {
      StripFacts(Repeat(' ', size));
    } else {
      var s := v.s;
      var y, m, d := s[..4], s[5..7], s[8..];
      assert s == y + "-" + m + "-" + d;
      DateValueRoundTrip(y, m, d, size);
    }
  }

  /**
   * Every canonical value renders into exactly `size` characters and reads
   * back as itself: reverse(render(v, size)) == v.
   */
  lemma {:induction false} ReverseRender(ct: ColumnType, v: Value, size: nat, grup: string -> string)
    requires CanonicalValue(ct, v, size, grup)
    ensures Render(ct, v, size, grup).Ok?
    ensures |Render(ct, v, size, grup).value| == size
    ensures Reverse(ct, Render(ct, v, size, grup).value) == Ok(v)
  {
    match ct
    case ColText => TextValueRoundTrip(ct, v.s, size, grup);
    case ColTextCapital => TextValueRoundTrip(ct, v.s, size, grup);
    case ColDate => DateValueCanonical(v, size);
    case ColPoso => PosoValueRoundTrip(v.cents, size);
    case ColInt => IntValueRoundTrip(ct, v.n, size);
    case ColIntSpace => IntValueRoundTrip(ct, v.n, size);
    case ColTextInt =>
      DigitsRerender(v.s);
      StripDigits(v.s);
  }

  /**
   * Every canonical slice reads back into a value that renders, at the
   * slice's own width, into the same slice: render(reverse(t), len(t)) == t.
   */
  lemma {:induction false} RenderReverse(ct: ColumnType, t: string, grup: string -> string)
    requires CanonicalSlice(ct, t, grup)
    ensures Reverse(ct, t).Ok?
    ensures Render(ct, Reverse(ct, t).value, |t|, grup) == Ok(t)
  {
    match ct
    case ColText => TextSliceRoundTrip(ct, t, grup);
    case ColTextCapital => TextSliceRoundTrip(ct, t, grup);
    case ColDate => DateSliceRoundTrip(t);
    case ColPoso => PosoSliceRoundTrip(t, DigitsValue(t));
    case ColInt =>
      ParseIntDigits(t);
      DigitsRerender(t);
    case ColIntSpace =>
      ParseIntDigits(t);
      DigitsRerender(t);
    case ColTextInt =>
      StripDigits(t);
      DigitsRerender(t);
  }

  // ---- worked examples of the amount codec -----------------------------------

  /** A zero amount fills a ten-character column with zeros. */
  lemma {:induction false} ZeroAmountRender(grup: string -> string)
    ensures Render(ColPoso, Amount(0), 10, grup) == Ok("0000000000")
  {
    assert CentsStr(0) == Repeat('0', 2) + "0";
    assert Repeat('0', 7) + (Repeat('0', 2) + "0") == "0000000000";
  }

  /** "000000005" with two implied decimals is five cents. */
  lemma {:induction false} FiveCentsReverse()
    ensures Reverse(ColPoso, "000000005") == Ok(Amount(5))
  {
    var t := "000000005";
    assert t == Repeat('0', 8) + "5";
    DigitsValueZeros(8, "5");
    ReadAmountDigits(t);
  }
}
