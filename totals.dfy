/**
 * What the totals of a document mean: get_totals sums the amount, the
 * contributions and the days of the contribution lines and of no other line;
 * totals_by_18 splits those same sums into two buckets; correct_header makes
 * errors_found come back empty; DublicateLines doubles every sum and puts
 * the copies in the bucket of the types other than '18'.
 */
module TotalsFacts {
  import opened Values
  import opened Documents

  const AmountKey: string := "apodoxes"
  const ContributionsKey: string := "katablitees_eisfores"
  const DaysKey: string := "imeres_asfalisis"
  const TypeKey: string := "apodoxes_type"

  /** Which contribution lines a reference sum runs over. */
  datatype Selection = AllTypes | Type18 | OtherTypes

  /** A contribution line counted by the selection. */
  predicate Selected(line: Record, sel: Selection) {
    Contribution(line) &&
    match sel
    case AllTypes => true
    case Type18 => TypeKey in line && line[TypeKey] == Text("18")
    case OtherTypes => !(TypeKey in line && line[TypeKey] == Text("18"))
  }

  /** The field holds a number. */
  predicate Numeric(line: Record, key: string) {
    key in line && !line[key].Text?
  }

  /** The amount in cents a field holds, 0 when it holds none. */
  function CentsAt(line: Record, key: string): int {
    if Numeric(line, key) then Cents(line[key]) else 0
  }

  /** The reference sum: the field over the selected contribution lines, in cents. */
  function Sum(lines: seq<Record>, key: string, sel: Selection): int {
    if lines == [] then 0
    else (if Selected(lines[0], sel) then CentsAt(lines[0], key) else 0) + Sum(lines[1..], key, sel)
  }

  /** A line get_totals goes past: it has a line code, and a contribution line holds three numbers. */
  predicate Summable(line: Record) {
    LineCode in line &&
    (Contribution(line) ==> Numeric(line, AmountKey) && Numeric(line, ContributionsKey) && Numeric(line, DaysKey))
  }

  /** A line totals_by_18 goes past: a contribution line also has a type. */
  predicate Bucketable(line: Record) {
    Summable(line) && (Contribution(line) ==> TypeKey in line)
  }

  predicate AllSummable(lines: seq<Record>) {
    forall i :: 0 <= i < |lines| ==> Summable(lines[i])
  }

  predicate AllBucketable(lines: seq<Record>) {
    forall i :: 0 <= i < |lines| ==> Bucketable(lines[i])
  }

  /** Three sums that are numbers. */
  predicate NumericTotals(t: Totals) {
    !t.apodoxes.Text? && !t.eisfores.Text? && !t.meres.Text?
  }

  /** The sums t are acc plus the reference sums of the selected lines. */
  predicate SumsOf(t: Totals, acc: Totals, lines: seq<Record>, sel: Selection)
    requires NumericTotals(acc)
  {
    NumericTotals(t)
    && Cents(t.apodoxes) == Cents(acc.apodoxes) + Sum(lines, AmountKey, sel)
    && Cents(t.eisfores) == Cents(acc.eisfores) + Sum(lines, ContributionsKey, sel)
    && Cents(t.meres) == Cents(acc.meres) + Sum(lines, DaysKey, sel)
  }

  lemma {:induction false} SliceStep(lines: seq<Record>, k: nat)
    requires k < |lines|
    ensures lines[k..][0] == lines[k] && lines[k..][1..] == lines[k + 1..]
  {
  }

  lemma {:induction false} AllSummableCons(s: seq<Record>)
    requires s != []
    ensures AllSummable(s) <==> Summable(s[0]) && AllSummable(s[1..])
  {
    if Summable(s[0]) && AllSummable(s[1..]) {
      forall i | 0 <= i < |s| ensures Summable(s[i]) {
        if i > 0 {
          assert s[i] == s[1..][i - 1];
        }
      }
    }
  }

  lemma {:induction false} AllBucketableCons(s: seq<Record>)
    requires s != []
    ensures AllBucketable(s) <==> Bucketable(s[0]) && AllBucketable(s[1..])
  {
    if Bucketable(s[0]) && AllBucketable(s[1..]) {
      forall i | 0 <= i < |s| ensures Bucketable(s[i]) {
        if i > 0 {
          assert s[i] == s[1..][i - 1];
        }
      }
    }
  }

  /** One line of get_totals against the reference sums. */
  lemma {:induction false} TotalsStepSum(acc: Totals, line: Record)
    requires NumericTotals(acc)
    ensures TotalsStep(acc, line).Ok? <==> Summable(line)
    ensures TotalsStep(acc, line).Ok? ==> SumsOf(TotalsStep(acc, line).value, acc, [line], AllTypes)
  {
    assert [line][1..] == [];
  }

  /** get_totals from record k on succeeds exactly on summable records and adds their reference sums. */
  lemma {:induction false} TotalsFromSum(lines: seq<Record>, k: nat, acc: Totals)
    requires k <= |lines| && NumericTotals(acc)
    ensures TotalsFrom(lines, k, acc).Ok? <==> AllSummable(lines[k..])
    ensures TotalsFrom(lines, k, acc).Ok? ==> SumsOf(TotalsFrom(lines, k, acc).value, acc, lines[k..], AllTypes)
    decreases |lines| - k
  {
    if k < |lines| {
      SliceStep(lines, k);
      AllSummableCons(lines[k..]);
      TotalsStepSum(acc, lines[k]);
      var s := TotalsStep(acc, lines[k]);
      if s.Ok? {
        TotalsFromSum(lines, k + 1, s.value);
      }
    }
  }

  /**
   * get_totals sums over the contribution lines only: it fails exactly when
   * a line has no line code or a contribution line lacks a number, and its
   * three sums are the reference sums over the contribution lines.
   */
  lemma TotalsAreSums(lines: seq<Record>)
    ensures TotalsOf(lines).Ok? <==> AllSummable(lines)
    ensures TotalsOf(lines).Ok? ==> SumsOf(TotalsOf(lines).value, NoTotals, lines, AllTypes)
  {
    TotalsFromSum(lines, 0, NoTotals);
    assert lines[0..] == lines;
  }

  /** Every contribution line is in exactly one of the two buckets. */
  lemma {:induction false} SumSplit(lines: seq<Record>, key: string)
    ensures Sum(lines, key, AllTypes) == Sum(lines, key, Type18) + Sum(lines, key, OtherTypes)
  {
    if lines != [] {
      SumSplit(lines[1..], key);
    }
  }

  /** Both buckets are numbers. */
  predicate NumericBuckets(b: Buckets) {
    NumericTotals(b.eighteen) && NumericTotals(b.other)
  }

  /** The buckets are b plus the reference sums of the lines of type '18' and of the other types. */
  predicate BucketSums(r: Buckets, b: Buckets, lines: seq<Record>)
    requires NumericBuckets(b)
  {
    SumsOf(r.eighteen, b.eighteen, lines, Type18) && SumsOf(r.other, b.other, lines, OtherTypes)
  }

  /** One line of totals_by_18 against the reference sums. */
  lemma {:induction false} By18StepSum(b: Buckets, line: Record)
    requires NumericBuckets(b)
    ensures By18Step(b, line).Ok? <==> Bucketable(line)
    ensures By18Step(b, line).Ok? ==> BucketSums(By18Step(b, line).value, b, [line])
  {
    assert [line][1..] == [];
  }

  lemma {:induction false} By18FromSum(lines: seq<Record>, k: nat, b: Buckets)
    requires k <= |lines| && NumericBuckets(b)
    ensures By18From(lines, k, b).Ok? <==> AllBucketable(lines[k..])
    ensures By18From(lines, k, b).Ok? ==> BucketSums(By18From(lines, k, b).value, b, lines[k..])
    decreases |lines| - k
  {
    if k < |lines| {
      SliceStep(lines, k);
      AllBucketableCons(lines[k..]);
      By18StepSum(b, lines[k]);
      var s := By18Step(b, lines[k]);
      if s.Ok? {
        By18FromSum(lines, k + 1, s.value);
      }
    }
  }

  /**
   * totals_by_18 succeeds exactly when every contribution line also has a
   * type; then its '18' bucket sums the contribution lines of type '18', its
   * other bucket sums the remaining contribution lines, and the two add up
   * to the sums of get_totals, field by field.
   */
  lemma By18Partition(lines: seq<Record>)
    ensures By18Of(lines).Ok? <==> AllBucketable(lines)
    ensures By18Of(lines).Ok? ==> TotalsOf(lines).Ok?
    ensures By18Of(lines).Ok? ==>
      var b, t := By18Of(lines).value, TotalsOf(lines).value;
      NumericBuckets(b) && NumericTotals(t)
      && Cents(b.eighteen.apodoxes) + Cents(b.other.apodoxes) == Cents(t.apodoxes)
      && Cents(b.eighteen.eisfores) + Cents(b.other.eisfores) == Cents(t.eisfores)
      && Cents(b.eighteen.meres) + Cents(b.other.meres) == Cents(t.meres)
    ensures By18Of(lines).Ok? ==>
      var b := By18Of(lines).value;
      Cents(b.eighteen.apodoxes) == Sum(lines, AmountKey, Type18)
      && Cents(b.eighteen.eisfores) == Sum(lines, ContributionsKey, Type18)
      && Cents(b.eighteen.meres) == Sum(lines, DaysKey, Type18)
      && Cents(b.other.apodoxes) == Sum(lines, AmountKey, OtherTypes)
      && Cents(b.other.eisfores) == Sum(lines, ContributionsKey, OtherTypes)
      && Cents(b.other.meres) == Sum(lines, DaysKey, OtherTypes)
  {
    By18FromSum(lines, 0, NoBuckets);
    TotalsAreSums(lines);
    assert lines[0..] == lines;
    if By18Of(lines).Ok? {
      SumSplit(lines, AmountKey);
      SumSplit(lines, ContributionsKey);
      SumSplit(lines, DaysKey);
    }
  }

  // ---- the header ----------------------------------------------------------------

  lemma {:induction false} SumCons(a: Record, rest: seq<Record>, key: string, sel: Selection)
    ensures Sum([a] + rest, key, sel) == (if Selected(a, sel) then CentsAt(a, key) else 0) + Sum(rest, key, sel)
  {
    assert ([a] + rest)[0] == a && ([a] + rest)[1..] == rest;
  }

  /** Overwriting the header's totals leaves the sums alone when the header is not a contribution line. */
  lemma {:induction false} HeaderOverwrite(lines: seq<Record>, t: Totals)
    requires lines != [] && LineCode in lines[0] && !Contribution(lines[0])
    ensures var l := lines[0 := WithTotals(lines[0], t)];
      (AllSummable(l) <==> AllSummable(lines))
      && Sum(l, AmountKey, AllTypes) == Sum(lines, AmountKey, AllTypes)
      && Sum(l, ContributionsKey, AllTypes) == Sum(lines, ContributionsKey, AllTypes)
      && Sum(l, DaysKey, AllTypes) == Sum(lines, DaysKey, AllTypes)
  {
    var l := lines[0 := WithTotals(lines[0], t)];
    assert l == [l[0]] + lines[1..] && lines == [lines[0]] + lines[1..];
    assert l[0][LineCode] == lines[0][LineCode];
    AllSummableCons(l);
    AllSummableCons(lines);
    SumCons(l[0], lines[1..], AmountKey, AllTypes);
    SumCons(lines[0], lines[1..], AmountKey, AllTypes);
    SumCons(l[0], lines[1..], ContributionsKey, AllTypes);
    SumCons(lines[0], lines[1..], ContributionsKey, AllTypes);
    SumCons(l[0], lines[1..], DaysKey, AllTypes);
    SumCons(lines[0], lines[1..], DaysKey, AllTypes);
  }

  /**
   * After correct_header, errors_found reports nothing, as long as the
   * header is not itself a contribution line (whose amounts the overwrite
   * would change).
   */
  lemma CorrectHeaderClears(lines: seq<Record>)
    requires CorrectedHeader(lines).Ok? && !Contribution(lines[0])
    ensures HeaderErrors(CorrectedHeader(lines).value) == Ok([])
  {
    var t := TotalsOf(lines).value;
    var l := CorrectedHeader(lines).value;
    TotalsAreSums(lines);
    TotalsAreSums(l);
    assert Summable(lines[0]);
    HeaderOverwrite(lines, t);
    var u := TotalsOf(l).value;
    assert l[0]["apodoxes"] == t.apodoxes && l[0]["eisfores"] == t.eisfores && l[0]["totalmeres"] == t.meres;
    assert Same(u.apodoxes, t.apodoxes) && Same(u.eisfores, t.eisfores) && Same(u.meres, t.meres);
    var none: seq<HeaderField> := [];
    assert HeaderErrors(l) == Ok(none + none + none);
    assert none + none + none == none;
  }

  // ---- duplication ---------------------------------------------------------------

  /** What a copy keeps and what it changes, as far as the sums see it. */
  lemma {:induction false} CopySums(line: Record)
    requires Contribution(line)
    ensures Contribution(Copy(line)) && (Summable(Copy(line)) <==> Summable(line))
    ensures !Selected(Copy(line), Type18) && Selected(Copy(line), OtherTypes)
    ensures CentsAt(Copy(line), AmountKey) == CentsAt(line, AmountKey)
    ensures CentsAt(Copy(line), ContributionsKey) == CentsAt(line, ContributionsKey)
    ensures CentsAt(Copy(line), DaysKey) == CentsAt(line, DaysKey)
  {
  }

  /** The records a line turns into when duplicated. */
  lemma {:induction false} DupOfCons(lines: seq<Record>)
    requires lines != []
    ensures DupOf(lines) == [lines[0]] + ((if Contribution(lines[0]) then [Copy(lines[0])] else []) + DupOf(lines[1..]))
  {
  }

  /** Duplicated records are summable exactly when the records are. */
  lemma {:induction false} DupOfSummable(lines: seq<Record>)
    ensures AllSummable(DupOf(lines)) <==> AllSummable(lines)
  {
    if lines != [] {
      var a, rest := lines[0], DupOf(lines[1..]);
      DupOfSummable(lines[1..]);
      DupOfCons(lines);
      AllSummableCons(lines);
      if Contribution(a) {
        CopySums(a);
        AllSummableCons([a] + ([Copy(a)] + rest));
        AllSummableCons([Copy(a)] + rest);
        assert ([a] + ([Copy(a)] + rest))[1..] == [Copy(a)] + rest;
        assert ([Copy(a)] + rest)[1..] == rest;
      } else {
        assert DupOf(lines) == [a] + rest;
        AllSummableCons([a] + rest);
        assert ([a] + rest)[1..] == rest;
      }
    }
  }

  /** The sums over the duplicated records: every copy counts once more, in the bucket of the other types. */
  lemma {:induction false} DupOfSums(lines: seq<Record>, key: string, sel: Selection)
    requires key == AmountKey || key == ContributionsKey || key == DaysKey
    ensures Sum(DupOf(lines), key, sel) == Sum(lines, key, sel) + (if sel == Type18 then 0 else Sum(lines, key, AllTypes))
  {
    if lines != [] {
      var a, rest := lines[0], DupOf(lines[1..]);
      DupOfSums(lines[1..], key, sel);
      DupOfCons(lines);
      SumCons(a, lines[1..], key, sel);
      SumCons(a, lines[1..], key, AllTypes);
      assert lines == [a] + lines[1..];
      if Contribution(a) {
        CopySums(a);
        SumCons(a, [Copy(a)] + rest, key, sel);
        SumCons(Copy(a), rest, key, sel);
      } else {
        SumCons(a, rest, key, sel);
      }
    }
  }

  /**
   * DublicateLines doubles the three sums of get_totals, and the copies,
   * whose type is the integer 18 rather than the text '18', all land in the
   * bucket of the other types.
   */
  lemma DuplicatedTotals(lines: seq<Record>)
    requires Duplicated(lines).Ok?
    ensures var d := Duplicated(lines).value;
      (TotalsOf(d).Ok? <==> TotalsOf(lines).Ok?)
      && (TotalsOf(lines).Ok? ==>
            TotalsOf(d).Ok? &&
            var t, u := TotalsOf(lines).value, TotalsOf(d).value;
            NumericTotals(t) && NumericTotals(u)
            && Cents(u.apodoxes) == 2 * Cents(t.apodoxes)
            && Cents(u.eisfores) == 2 * Cents(t.eisfores)
            && Cents(u.meres) == 2 * Cents(t.meres))
  {
    var d := Duplicated(lines).value;
    TotalsAreSums(lines);
    TotalsAreSums(d);
    DupOfSummable(lines);
    DupOfSums(lines, AmountKey, AllTypes);
    DupOfSums(lines, ContributionsKey, AllTypes);
    DupOfSums(lines, DaysKey, AllTypes);
  }

  /** The reference sums of the '18' bucket are untouched by DublicateLines; the other bucket gains every sum. */
  lemma DuplicatedBuckets(lines: seq<Record>, key: string)
    requires Duplicated(lines).Ok? && (key == AmountKey || key == ContributionsKey || key == DaysKey)
    ensures var d := Duplicated(lines).value;
      Sum(d, key, Type18) == Sum(lines, key, Type18)
      && Sum(d, key, OtherTypes) == Sum(lines, key, OtherTypes) + Sum(lines, key, AllTypes)
  {
    DupOfSums(lines, key, Type18);
    DupOfSums(lines, key, OtherTypes);
  }
}
