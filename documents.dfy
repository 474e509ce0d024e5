/**
 * The declaration document: a registry of line types keyed by prefix, the
 * ordered list of decoded records (the header first), and the grouping of
 * contribution lines under the employee line that precedes them.
 *
 * The pure functions below say what each Document operation computes; the
 * Document class performs the same operations in place, and each of its
 * methods is proved equal to the function that specifies it.
 */
module Documents {
  import opened Values
  import opened Strings
  import opened Columns
  import opened Lines

  /** The key parse adds to every record: the prefix of the line type that read it. */
  const LineCode: string := "line_code"
  /** The prefix of an employee line, which opens a group. */
  const EmployeeCode: string := "2"
  /** The prefix of a contribution line, which joins the open group. */
  const ContributionCode: string := "3"

  // ---- the registry ------------------------------------------------------------

  /** The prefixes of the registered line types, in registration order. */
  function PrefixesOf(lts: seq<LineType>): (r: seq<string>)
    ensures |r| == |lts| && forall i :: 0 <= i < |lts| ==> r[i] == lts[i].prefix
  {
    seq(|lts|, i requires 0 <= i < |lts| => lts[i].prefix)
  }

  /** The names of the registered line types, in registration order (linetype_names). */
  function NamesOf(lts: seq<LineType>): (r: seq<string>)
    ensures |r| == |lts| && forall i :: 0 <= i < |lts| ==> r[i] == lts[i].name
  {
    seq(|lts|, i requires 0 <= i < |lts| => lts[i].name)
  }

  /** No string occurs twice. */
  predicate Distinct(s: seq<string>) {
    forall i, j :: 0 <= i < j < |s| ==> s[i] != s[j]
  }

  /** What the registered line types currently are. */
  function Layouts(lts: seq<LineType>): (r: seq<LineLayout>)
    reads set i | 0 <= i < |lts| :: lts[i]
    ensures |r| == |lts|
  {
    if lts == [] then [] else [lts[0].Layout()] + Layouts(lts[1..])
  }

  lemma {:induction false} LayoutsAt(lts: seq<LineType>, k: nat)
    requires k < |lts|
    ensures Layouts(lts)[k] == lts[k].Layout()
  {
    if k > 0 {
      LayoutsAt(lts[1..], k - 1);
    }
  }

  /** The position of the line type registered under `code` (the dict lookup linetypes[code]). */
  function FindPrefix(L: seq<LineLayout>, code: string): (r: Option<nat>)
    ensures r.Some? ==> r.value < |L| && L[r.value].prefix == code
    ensures r.None? ==> forall k :: 0 <= k < |L| ==> L[k].prefix != code
  {
    if L == [] then None
    else if L[|L| - 1].prefix == code then Some(|L| - 1)
    else FindPrefix(L[..|L| - 1], code)
  }

  // ---- records -----------------------------------------------------------------

  /** A dictionary lookup: a missing key raises. */
  function Get(rec: Record, key: string): Result<Value>
  {
    if key in rec then Ok(rec[key]) else Err(MissingKey)
  }

  /** line['line_code'] == '3': whether a record is a contribution line. */
  function IsContribution(line: Record): Result<bool>
  {
    var code :- Get(line, LineCode);
    Ok(code == Text(ContributionCode))
  }

  // ---- render ------------------------------------------------------------------

  /** One record rendered by the line type its line code names. */
  function RenderRecord(L: seq<LineLayout>, line: Record, grup: string -> string): Result<string>
  {
    var code :- Get(line, LineCode);
    if !code.Text? then Err(MissingKey)
    else
      match FindPrefix(L, code.s)
      case None => Err(MissingKey)
      case Some(k) => RenderLine(L[k], line, grup)
  }

  /** The rendered lines of the records, in order; the first failure wins. */
  function RenderRecords(L: seq<LineLayout>, lines: seq<Record>, grup: string -> string): (r: Result<seq<string>>)
    ensures r.Ok? ==> |r.value| == |lines|
  {
    if lines == [] then Ok([])
    else
      var first :- RenderRecord(L, lines[0], grup);
      var rest :- RenderRecords(L, lines[1..], grup);
      Ok([first] + rest)
  }

  /** The three ways a record renders: without a textual line_code, without its line type, or by its line type. */
  lemma {:induction false} RenderRecordCases(L: seq<LineLayout>, line: Record, grup: string -> string)
    ensures LineCode !in line || !line[LineCode].Text? ==> RenderRecord(L, line, grup) == Err(MissingKey)
    ensures LineCode in line && line[LineCode].Text? ==>
      var f := FindPrefix(L, line[LineCode].s);
      RenderRecord(L, line, grup) == if f.None? then Err(MissingKey) else RenderLine(L[f.value], line, grup)
  {
  }

  /** Rendering a record followed by more records. */
  lemma {:induction false} RenderRecordsCons(L: seq<LineLayout>, line: Record, rest: seq<Record>, grup: string -> string)
    ensures var first, tail := RenderRecord(L, line, grup), RenderRecords(L, rest, grup);
      first.Ok? && tail.Ok? ==> RenderRecords(L, [line] + rest, grup) == Ok([first.value] + tail.value)
  {
    assert ([line] + rest)[0] == line && ([line] + rest)[1..] == rest;
  }

  /** Document.render: the rendered records joined by newlines. */
  function RenderDocument(L: seq<LineLayout>, lines: seq<Record>, grup: string -> string): Result<string>
  {
    var rendered :- RenderRecords(L, lines, grup);
    Ok(Join(rendered, "\n"))
  }

  /** Each rendered line is the rendering of its own record. */
  lemma {:induction false} RenderRecordsAt(L: seq<LineLayout>, lines: seq<Record>, grup: string -> string, i: nat)
    requires RenderRecords(L, lines, grup).Ok? && i < |lines|
    ensures RenderRecord(L, lines[i], grup).Ok?
    ensures RenderRecords(L, lines, grup).value[i] == RenderRecord(L, lines[i], grup).value
  {
    if i > 0 {
      RenderRecordsAt(L, lines[1..], grup, i - 1);
    }
  }

  /** A record that renders has a textual line_code, and its line starts with that code. */
  lemma {:induction false} RenderRecordCode(L: seq<LineLayout>, line: Record, grup: string -> string)
    requires RenderRecord(L, line, grup).Ok?
    ensures LineCode in line && line[LineCode].Text?
    ensures StartsWith(RenderRecord(L, line, grup).value, line[LineCode].s)
  {
    var k := FindPrefix(L, line[LineCode].s).value;
    RenderLinePrefix(L[k], line, grup);
  }

  /** A rendered document starts with its first record's line_code and ends with its last record's line. */
  lemma {:induction false} RenderDocumentEnds(L: seq<LineLayout>, lines: seq<Record>, grup: string -> string)
    requires RenderDocument(L, lines, grup).Ok? && |lines| >= 1
    ensures LineCode in lines[0] && lines[0][LineCode].Text?
    ensures StartsWith(RenderDocument(L, lines, grup).value, lines[0][LineCode].s)
    ensures RenderRecord(L, lines[|lines| - 1], grup).Ok?
    ensures var d := RenderDocument(L, lines, grup).value; var l := RenderRecord(L, lines[|lines| - 1], grup).value;
      |l| <= |d| && d[|d| - |l|..] == l
  {
    var rendered := RenderRecords(L, lines, grup).value;
    RenderRecordsAt(L, lines, grup, 0);
    RenderRecordCode(L, lines[0], grup);
    RenderRecordsAt(L, lines, grup, |lines| - 1);
    JoinEnds(rendered, "\n");
    var d, first := Join(rendered, "\n"), rendered[0];
    var c := lines[0][LineCode].s;
    assert d[..|c|] == d[..|first|][..|c|];
  }

  // ---- parse -------------------------------------------------------------------

  /** The document's mutable state besides its registry. */
  datatype DocState = DocState(lines: seq<Record>, ergnoi: map<nat, seq<nat>>, totalErgnoi: nat)

  /** Where parsing stands inside one text line: the state, the open group and the outcome so far. */
  datatype Step = Step(st: DocState, cur: nat, outcome: Outcome)

  /**
   * The grouping effect of text line i matching the line type with prefix
   * `code`: an employee line opens the empty group i, a contribution line
   * joins group `cur` (raising when there is no such group).
   */
  function Group(code: string, i: nat, cur: nat, st: DocState): Step
  {
    if code == EmployeeCode then
      Step(st.(ergnoi := st.ergnoi[i := []], totalErgnoi := st.totalErgnoi + 1), i, Pass)
    else if code == ContributionCode then
      if cur in st.ergnoi then Step(st.(ergnoi := st.ergnoi[cur := st.ergnoi[cur] + [i]]), cur, Pass)
      else Step(st, cur, Fail(MissingKey))
    else Step(st, cur, Pass)
  }

  /**
   * The inner loop of parse over the line types from position k on, for
   * text line i: every line type whose prefix starts the line groups it,
   * reads it and appends the tagged record (there is no break).
   */
  function ParseLine(L: seq<LineLayout>, lin: string, i: nat, k: nat, cur: nat, st: DocState): Step
    requires k <= |L|
    decreases |L| - k
  {
    if k == |L| then Step(st, cur, Pass)
    else if !StartsWith(lin, L[k].prefix) then ParseLine(L, lin, i, k + 1, cur, st)
    else
      var code := L[k].prefix;
      var g := Group(code, i, cur, st);
      if g.outcome.Fail? then g
      else
        match ReadLine(L[k], lin)
        case Err(e) => Step(g.st, g.cur, Fail(e))
        case Ok(rec) =>
          ParseLine(L, lin, i, k + 1, g.cur, g.st.(lines := g.st.lines + [rec[LineCode := Text(code)]]))
  }

  /** The outer loop of parse from text line i on; a failure stops it with the state reached. */
  function ParseFrom(L: seq<LineLayout>, text: seq<string>, i: nat, cur: nat, st: DocState): (DocState, Outcome)
    requires i <= |text|
    decreases |text| - i, 1
  {
    if i == |text| then (st, Pass) else AfterLine(L, text, i, ParseLine(L, text[i], i, 0, cur, st))
  }

  /** Continues with the next text line unless line i failed. */
  function AfterLine(L: seq<LineLayout>, text: seq<string>, i: nat, s: Step): (DocState, Outcome)
    requires i < |text|
    decreases |text| - i, 0
  {
    if s.outcome.Fail? then (s.st, s.outcome) else ParseFrom(L, text, i + 1, s.cur, s.st)
  }

  /** Document.parse over the lines of a file; the open group starts at line 0. */
  function ParseText(L: seq<LineLayout>, text: seq<string>, st: DocState): (DocState, Outcome)
  {
    ParseFrom(L, text, 0, 0, st)
  }

  // ---- totals ------------------------------------------------------------------

  /** The amount a number stands for, in cents (an int n stands for n * 100 cents). */
  function Cents(v: Value): int
    requires !v.Text?
  {
    if v.Int? then 100 * v.n else v.cents
  }

  /**
   * Python's + on the accumulated sums: int + int stays an int, anything
   * with a float is a float, and a string raises.
   */
  function Add(a: Value, b: Value): (r: Result<Value>)
    ensures r.Ok? <==> !a.Text? && !b.Text?
    ensures r.Err? ==> r.error == TypeMismatch
    ensures r.Ok? ==> !r.value.Text? && Cents(r.value) == Cents(a) + Cents(b)
    ensures r.Ok? ==> (r.value.Int? <==> a.Int? && b.Int?)
  {
    if a.Text? || b.Text? then Err(TypeMismatch)
    else if a.Int? && b.Int? then Ok(Int(a.n + b.n))
    else Ok(Amount(Cents(a) + Cents(b)))
  }

  /** acc += line[key]. */
  function AddField(acc: Value, line: Record, key: string): Result<Value>
  {
    var v :- Get(line, key);
    Add(acc, v)
  }

  /** Python's == between a computed total and a header field. */
  predicate Same(a: Value, b: Value) {
    if !a.Text? && !b.Text? then Cents(a) == Cents(b) else a == b
  }

  /** The three sums of get_totals. */
  datatype Totals = Totals(apodoxes: Value, eisfores: Value, meres: Value)

  /** The sums before the first line: the integer 0 three times. */
  const NoTotals := Totals(Int(0), Int(0), Int(0))

  /** One iteration of get_totals: a contribution line adds its amount, contributions and days. */
  function TotalsStep(acc: Totals, line: Record): Result<Totals>
  {
    var is3 :- IsContribution(line);
    if !is3 then Ok(acc)
    else
      var a :- AddField(acc.apodoxes, line, "apodoxes");
      var e :- AddField(acc.eisfores, line, "katablitees_eisfores");
      var m :- AddField(acc.meres, line, "imeres_asfalisis");
      Ok(Totals(a, e, m))
  }

  /** get_totals from record k on, starting from the sums `acc`. */
  function TotalsFrom(lines: seq<Record>, k: nat, acc: Totals): Result<Totals>
    requires k <= |lines|
    decreases |lines| - k
  {
    if k == |lines| then Ok(acc)
    else
      var acc' :- TotalsStep(acc, lines[k]);
      TotalsFrom(lines, k + 1, acc')
  }

  /** Document.get_totals (rounding to two decimals is exact on cents). */
  function TotalsOf(lines: seq<Record>): Result<Totals>
  {
    TotalsFrom(lines, 0, NoTotals)
  }

  /** The two buckets of totals_by_18: apodoxes_type '18' and every other type. */
  datatype Buckets = Buckets(eighteen: Totals, other: Totals)

  const NoBuckets := Buckets(NoTotals, NoTotals)

  /** One iteration of totals_by_18: days, then amount, then contributions, into the line's bucket. */
  function By18Step(b: Buckets, line: Record): Result<Buckets>
  {
    var is3 :- IsContribution(line);
    if !is3 then Ok(b)
    else
      var typ :- Get(line, "apodoxes_type");
      var into := if typ == Text("18") then b.eighteen else b.other;
      var m :- AddField(into.meres, line, "imeres_asfalisis");
      var a :- AddField(into.apodoxes, line, "apodoxes");
      var e :- AddField(into.eisfores, line, "katablitees_eisfores");
      Ok(if typ == Text("18") then b.(eighteen := Totals(a, e, m)) else b.(other := Totals(a, e, m)))
  }

  function By18From(lines: seq<Record>, k: nat, b: Buckets): Result<Buckets>
    requires k <= |lines|
    decreases |lines| - k
  {
    if k == |lines| then Ok(b)
    else
      var b' :- By18Step(b, lines[k]);
      By18From(lines, k + 1, b')
  }

  /** Document.totals_by_18. */
  function By18Of(lines: seq<Record>): Result<Buckets>
  {
    By18From(lines, 0, NoBuckets)
  }

  // ---- header check and correction ------------------------------------------------

  /** The header fields errors_found compares with the totals, one message each. */
  datatype HeaderField = HeaderApodoxes | HeaderEisfores | HeaderMeres

  /** Document.errors_found: the header fields that differ from the totals, in this order. */
  function HeaderErrors(lines: seq<Record>): Result<seq<HeaderField>>
  {
    var t :- TotalsOf(lines);
    if lines == [] then Err(NoHeader)
    else
      var a :- Get(lines[0], "apodoxes");
      var e :- Get(lines[0], "eisfores");
      var m :- Get(lines[0], "totalmeres");
      Ok((if Same(t.apodoxes, a) then [] else [HeaderApodoxes])
         + (if Same(t.eisfores, e) then [] else [HeaderEisfores])
         + (if Same(t.meres, m) then [] else [HeaderMeres]))
  }

  /** The header with its three total fields overwritten. */
  function WithTotals(header: Record, t: Totals): Record
  {
    header["apodoxes" := t.apodoxes]["eisfores" := t.eisfores]["totalmeres" := t.meres]
  }

  /** Document.correct_header: the records with the header's totals replaced by the computed ones. */
  function CorrectedHeader(lines: seq<Record>): Result<seq<Record>>
  {
    var t :- TotalsOf(lines);
    if lines == [] then Err(NoHeader) else Ok(lines[0 := WithTotals(lines[0], t)])
  }

  // ---- duplication -------------------------------------------------------------

  /** The copy DublicateLines makes of a contribution line (type set to the integer 18, fixed dates). */
  function Copy(line: Record): Record
  {
    line["apodoxes_type" := Int(18)]["apoapasxolisi" := Text("2020-03-15")]["eosapasxolisi" := Text("2020-03-31")]
  }

  /** A record whose line code is that of a contribution line. */
  predicate Contribution(line: Record) {
    LineCode in line && line[LineCode] == Text(ContributionCode)
  }

  /** Every record has a line code. */
  predicate Coded(lines: seq<Record>) {
    forall i :: 0 <= i < |lines| ==> LineCode in lines[i]
  }

  /** The records with a copy inserted right after every contribution line. */
  function DupOf(lines: seq<Record>): seq<Record>
  {
    if lines == [] then []
    else [lines[0]] + (if Contribution(lines[0]) then [Copy(lines[0])] else []) + DupOf(lines[1..])
  }

  /** What DublicateLines leaves before correcting the header; a record without a line code raises. */
  function Duplicated(lines: seq<Record>): Result<seq<Record>>
  {
    if Coded(lines) then Ok(DupOf(lines)) else Err(MissingKey)
  }

  /** A declaration document. */
  class Document {
    var linetypes: seq<LineType>
    var lines: seq<Record>
    var ergnoi: map<nat, seq<nat>>
    var totalErgnoi: nat

    /** Prefixes and names are each registered at most once. */
    ghost predicate Valid()
      reads this
    {
      Distinct(PrefixesOf(linetypes)) && Distinct(NamesOf(linetypes))
    }

    constructor()
      ensures linetypes == [] && lines == [] && ergnoi == map[] && totalErgnoi == 0
      ensures Valid()
    {
      linetypes := [];
      lines := [];
      ergnoi := map[];
      totalErgnoi := 0;
    }

    function State(): DocState
      reads this
    {
      DocState(lines, ergnoi, totalErgnoi)
    }

    /** The registered line types as they currently are. */
    function Registry(): seq<LineLayout>
      reads this, set i | 0 <= i < |linetypes| :: linetypes[i]
    {
      Layouts(linetypes)
    }

    /** Document.linetype_names. */
    function LinetypeNames(): seq<string>
      reads this
    {
      NamesOf(linetypes)
    }

    /**
     * Document.add_linetype: a registered prefix is rejected first, then a
     * registered name; otherwise the line type is registered last.
     */
    method AddLinetype(linetype: LineType) returns (o: Outcome)
      requires Valid()
      modifies this
      ensures Valid()
      ensures lines == old(lines) && ergnoi == old(ergnoi) && totalErgnoi == old(totalErgnoi)
      ensures linetype.prefix in old(PrefixesOf(linetypes)) ==>
        o == Fail(DuplicatePrefix) && linetypes == old(linetypes)
      ensures linetype.prefix !in old(PrefixesOf(linetypes)) && linetype.name in old(LinetypeNames()) ==>
        o == Fail(DuplicateName) && linetypes == old(linetypes)
      ensures linetype.prefix !in old(PrefixesOf(linetypes)) && linetype.name !in old(LinetypeNames()) ==>
        o == Pass && linetypes == old(linetypes) + [linetype]
    {
      if linetype.prefix in PrefixesOf(linetypes) {
        return Fail(DuplicatePrefix);
      }
      if linetype.name in LinetypeNames() {
        return Fail(DuplicateName);
      }
      linetypes := linetypes + [linetype];
      o := Pass;
      assert PrefixesOf(linetypes) == PrefixesOf(old(linetypes)) + [linetype.prefix];
      assert NamesOf(linetypes) == NamesOf(old(linetypes)) + [linetype.name];
    }

    /** Document.add_line. */
    method AddLine(line: Record)
      modifies this
      ensures lines == old(lines) + [line]
      ensures linetypes == old(linetypes) && ergnoi == old(ergnoi) && totalErgnoi == old(totalErgnoi)
    {
      lines := lines + [line];
    }

    /** Document.render: every record rendered by its line type, joined by newlines. */
    method Render(grup: string -> string) returns (r: Result<string>)
      ensures r == RenderDocument(Registry(), lines, grup)
    {
      var L := Registry();
      ghost var spec := RenderRecords(L, lines, grup);
      var rendered: seq<string> := [];
      assert lines[0..] == lines;
      assert spec.Ok? ==> [] + spec.value == spec.value;
      for i := 0 to |lines|
        invariant spec == Prepend(rendered, RenderRecords(L, lines[i..], grup))
      {
        var line := lines[i];
        RenderRecordsStep(L, lines, i, grup);
        RenderRecordCases(L, line, grup);
        if LineCode !in line || !line[LineCode].Text? {
          return Err(MissingKey);
        }
        var found := FindPrefix(L, line[LineCode].s);
        if found.None? {
          return Err(MissingKey);
        }
        var lt := linetypes[found.value];
        LayoutsAt(linetypes, found.value);
        var s := lt.Render(line, grup);
        if s.Err? {
          return Err(s.error);
        }
        ThenAppend(rendered, s.value, RenderRecords(L, lines[i + 1..], grup));
        rendered := rendered + [s.value];
      }
      assert lines[|lines|..] == [] && rendered + [] == rendered;
      return Ok(Join(rendered, "\n"));
    }

    /**
     * Document.parse over the lines of a file: the nested loops over the
     * text lines and the line types, without a break.
     */
    method Parse(text: seq<string>) returns (o: Outcome)
      modifies this
      ensures linetypes == old(linetypes)
      ensures (State(), o) == ParseText(Registry(), text, old(State()))
    {
      ghost var L := Registry();
      ghost var spec := ParseText(L, text, State());
      var currentergline: nat := 0;
      for i := 0 to |text|
        invariant linetypes == old(linetypes) && L == Registry()
        invariant spec == ParseFrom(L, text, i, currentergline, State())
      {
        ParseFromStep(L, text, i, currentergline, State());
        var next, lineOutcome := ParseLineTypes(text[i], i, currentergline);
        if lineOutcome.Fail? {
          return lineOutcome;
        }
        currentergline := next;
      }
      return Pass;
    }

    /**
     * The inner loop of Document.parse: line i is tried against every line
     * type in registration order (there is no break), grouped, read and appended.
     */
    method ParseLineTypes(lin: string, i: nat, cur: nat) returns (next: nat, o: Outcome)
      modifies this
      ensures linetypes == old(linetypes)
      ensures Step(State(), next, o) == ParseLine(Registry(), lin, i, 0, cur, old(State()))
    {
      ghost var L := Registry();
      ghost var lineSpec := ParseLine(L, lin, i, 0, cur, State());
      next := cur;
      for k := 0 to |linetypes|
        invariant linetypes == old(linetypes) && L == Registry()
        invariant lineSpec == ParseLine(L, lin, i, k, next, State())
      {
        var linetype := linetypes[k];
        LayoutsAt(linetypes, k);
        var code := linetype.prefix;
        if StartsWith(lin, code) {
          ghost var cur0, st0 := next, State();
          var grouped;
          next, grouped := GroupLine(code, i, next);
          if grouped.Fail? {
            ParseLineFails(L, lin, i, k, cur0, st0);
            return next, grouped;
          }
          var ldic := linetype.Read(lin);
          ParseLineRead(L, lin, i, k, cur0, st0, Step(State(), next, grouped), ldic);
          if ldic.Err? {
            return next, Fail(ldic.error);
          }
          lines := lines + [ldic.value[LineCode := Text(code)]];
        } else {
          ParseLineSkip(L, lin, i, k, next, State());
        }
      }
      return next, Pass;
    }

    /**
     * The grouping part of Document.parse for text line i matching the line
     * type with prefix `code`, with `cur` the open group.
     */
    method GroupLine(code: string, i: nat, cur: nat) returns (next: nat, o: Outcome)
      modifies this
      ensures linetypes == old(linetypes)
      ensures Step(State(), next, o) == Group(code, i, cur, old(State()))
    {
      next := cur;
      if code == EmployeeCode {
        ergnoi := ergnoi[i := []];
        totalErgnoi := totalErgnoi + 1;
        next := i;
      } else if code == ContributionCode {
        if cur !in ergnoi {
          return next, Fail(MissingKey);
        }
        ergnoi := ergnoi[cur := ergnoi[cur] + [i]];
      }
      return next, Pass;
    }

    /** Document.get_totals, accumulating over the records. */
    method GetTotals() returns (r: Result<Totals>)
      ensures r == TotalsOf(lines)
    {
      var apodoxes, eisfores, meres := Int(0), Int(0), Int(0);
      for k := 0 to |lines|
        invariant TotalsOf(lines) == TotalsFrom(lines, k, Totals(apodoxes, eisfores, meres))
      {
        var line := lines[k];
        if LineCode !in line {
          return Err(MissingKey);
        }
        if line[LineCode] == Text(ContributionCode) {
          var a := AddField(apodoxes, line, "apodoxes");
          if a.Err? {
            return Err(a.error);
          }
          var e := AddField(eisfores, line, "katablitees_eisfores");
          if e.Err? {
            return Err(e.error);
          }
          var m := AddField(meres, line, "imeres_asfalisis");
          if m.Err? {
            return Err(m.error);
          }
          apodoxes, eisfores, meres := a.value, e.value, m.value;
        }
      }
      return Ok(Totals(apodoxes, eisfores, meres));
    }

    /** Document.totals_by_18, accumulating into the two buckets. */
    method TotalsBy18() returns (r: Result<Buckets>)
      ensures r == By18Of(lines)
    {
      var tot := NoBuckets;
      for k := 0 to |lines|
        invariant By18Of(lines) == By18From(lines, k, tot)
      {
        var line := lines[k];
        if LineCode !in line {
          return Err(MissingKey);
        }
        if line[LineCode] == Text(ContributionCode) {
          if "apodoxes_type" !in line {
            return Err(MissingKey);
          }
          var is18 := line["apodoxes_type"] == Text("18");
          var into := if is18 then tot.eighteen else tot.other;
          var m := AddField(into.meres, line, "imeres_asfalisis");
          if m.Err? {
            return Err(m.error);
          }
          var a := AddField(into.apodoxes, line, "apodoxes");
          if a.Err? {
            return Err(a.error);
          }
          var e := AddField(into.eisfores, line, "katablitees_eisfores");
          if e.Err? {
            return Err(e.error);
          }
          if is18 {
            tot := tot.(eighteen := Totals(a.value, e.value, m.value));
          } else {
            tot := tot.(other := Totals(a.value, e.value, m.value));
          }
        }
      }
      return Ok(tot);
    }

    /** Document.correct_header: overwrites the header's three totals with the computed ones. */
    method CorrectHeader() returns (o: Outcome)
      modifies this
      ensures linetypes == old(linetypes) && ergnoi == old(ergnoi) && totalErgnoi == old(totalErgnoi)
      ensures var c := CorrectedHeader(old(lines));
        (c.Ok? ==> o == Pass && lines == c.value) && (c.Err? ==> o == Fail(c.error) && lines == old(lines))
    {
      var t := GetTotals();
      if t.Err? {
        return Fail(t.error);
      }
      if lines == [] {
        return Fail(NoHeader);
      }
      lines := lines[0 := WithTotals(lines[0], t.value)];
      return Pass;
    }

    /** Document.errors_found. */
    method ErrorsFound() returns (r: Result<seq<HeaderField>>)
      ensures r == HeaderErrors(lines)
    {
      var t := GetTotals();
      if t.Err? {
        return Err(t.error);
      }
      if lines == [] {
        return Err(NoHeader);
      }
      var header := lines[0];
      var errors: seq<HeaderField> := [];
      if "apodoxes" !in header {
        return Err(MissingKey);
      }
      if !Same(t.value.apodoxes, header["apodoxes"]) {
        errors := errors + [HeaderApodoxes];
      }
      if "eisfores" !in header {
        return Err(MissingKey);
      }
      if !Same(t.value.eisfores, header["eisfores"]) {
        errors := errors + [HeaderEisfores];
      }
      if "totalmeres" !in header {
        return Err(MissingKey);
      }
      if !Same(t.value.meres, header["totalmeres"]) {
        errors := errors + [HeaderMeres];
      }
      assert errors == (if Same(t.value.apodoxes, header["apodoxes"]) then [] else [HeaderApodoxes])
        + (if Same(t.value.eisfores, header["eisfores"]) then [] else [HeaderEisfores])
        + (if Same(t.value.meres, header["totalmeres"]) then [] else [HeaderMeres]);
      return Ok(errors);
    }

    /**
     * The first half of Document.DublicateLines: the positions of the
     * contribution lines, in order, and a copy of each; a record without a
     * line code raises.
     */
    method ContributionLines() returns (ok: bool, pos: seq<nat>, val: seq<Record>)
      ensures ok <==> Coded(lines)
      ensures ok ==> Collected(lines, |lines|, pos, val)
    {
      pos, val := [], [];
      for i := 0 to |lines|
        invariant Collected(lines, i, pos, val)
      {
        var lin := lines[i];
        if LineCode !in lin {
          return false, pos, val;
        }
        if lin[LineCode] == Text(ContributionCode) {
          CollectedAdd(lines, i, pos, val);
          val := val + [Copy(lin)];
          pos := pos + [i];
        } else {
          CollectedSkip(lines, i, pos, val);
        }
      }
      ok := true;
    }

    /**
     * Document.DublicateLines: collects the contribution lines and their
     * positions, inserts each copy right after its original (last position
     * first, so earlier positions stay valid), then corrects the header.
     */
    method DublicateLines() returns (o: Outcome)
      modifies this
      ensures linetypes == old(linetypes) && ergnoi == old(ergnoi) && totalErgnoi == old(totalErgnoi)
      ensures var d := Duplicated(old(lines));
        (d.Err? ==> o == Fail(d.error) && lines == old(lines))
        && (d.Ok? ==> var c := CorrectedHeader(d.value);
              (c.Ok? ==> o == Pass && lines == c.value) && (c.Err? ==> o == Fail(c.error) && lines == d.value))
    {
      var ok, pos, val := ContributionLines();
      if !ok {
        return Fail(MissingKey);
      }
      ghost var original := lines;
      // Walking pos and val from the back is the loop over their reversed copies.
      var j := |pos|;
      while j > 0
        invariant 0 <= j <= |pos|
        invariant lines == InsertedFrom(original, Next(original, pos, j))
        invariant linetypes == old(linetypes) && ergnoi == old(ergnoi) && totalErgnoi == old(totalErgnoi)
      {
        j := j - 1;
        NoContributionBetween(original, pos, val, j);
        InsertStep(original, pos[j], Next(original, pos, j + 1));
        lines := lines[..pos[j] + 1] + [val[j]] + lines[pos[j] + 1..];
      }
      InsertedAll(original, pos, val);
      o := CorrectHeader();
    }
  }

  // ---- proof helpers for the Document methods ----------------------------------

  /** Prepends already produced lines to a later result. */
  function Prepend(done: seq<string>, r: Result<seq<string>>): Result<seq<string>>
  {
    if r.Err? then r else Ok(done + r.value)
  }

  lemma {:induction false} ThenAppend(done: seq<string>, s: string, r: Result<seq<string>>)
    ensures Prepend(done, (if r.Err? then Err(r.error) else Ok([s] + r.value))) == Prepend(done + [s], r)
  {
    if r.Ok? {
      assert done + ([s] + r.value) == done + [s] + r.value;
    }
  }

  /**
   * After the first k records: pos lists the positions of their contribution
   * lines in increasing order and val the copies of those lines.
   */
  ghost predicate Collected(lines: seq<Record>, k: nat, pos: seq<nat>, val: seq<Record>)
  {
    k <= |lines| && |pos| == |val|
    && (forall x :: 0 <= x < k ==> LineCode in lines[x])
    && (forall m :: 0 <= m < |pos| ==> pos[m] < k && Contribution(lines[pos[m]]) && val[m] == Copy(lines[pos[m]]))
    && (forall m, n :: 0 <= m < n < |pos| ==> pos[m] < pos[n])
    && (forall x :: 0 <= x < k && Contribution(lines[x]) ==> x in pos)
  }

  /** Collecting one more record, a contribution line. */
  lemma {:induction false} CollectedAdd(lines: seq<Record>, i: nat, pos: seq<nat>, val: seq<Record>)
    requires Collected(lines, i, pos, val) && i < |lines| && Contribution(lines[i])
    ensures Collected(lines, i + 1, pos + [i], val + [Copy(lines[i])])
  {
  }

  /** Collecting one more record, not a contribution line. */
  lemma {:induction false} CollectedSkip(lines: seq<Record>, i: nat, pos: seq<nat>, val: seq<Record>)
    requires Collected(lines, i, pos, val) && i < |lines| && LineCode in lines[i] && !Contribution(lines[i])
    ensures Collected(lines, i + 1, pos, val)
  {
  }

  /** The position from which copies have been inserted once pos[j..] is done. */
  ghost function Next(original: seq<Record>, pos: seq<nat>, j: nat): nat
  {
    if j < |pos| then pos[j] else |original|
  }

  /** The records with copies inserted after the contribution lines from position p on. */
  ghost function InsertedFrom(original: seq<Record>, p: nat): seq<Record>
    requires p <= |original|
  {
    original[..p] + DupOf(original[p..])
  }

  lemma {:induction false} DupOfAppend(a: seq<Record>, b: seq<Record>)
    ensures DupOf(a + b) == DupOf(a) + DupOf(b)
  {
    if a != [] {
      assert (a + b)[0] == a[0] && (a + b)[1..] == a[1..] + b;
      DupOfAppend(a[1..], b);
    } else {
      assert a + b == b;
    }
  }

  lemma {:induction false} DupOfNone(a: seq<Record>)
    requires forall x :: 0 <= x < |a| ==> !Contribution(a[x])
    ensures DupOf(a) == a
  {
    if a != [] {
      DupOfNone(a[1..]);
    }
  }

  /** No contribution line lies strictly between pos[j] and the next position (or the end). */
  lemma {:induction false} NoContributionBetween(original: seq<Record>, pos: seq<nat>, val: seq<Record>, j: nat)
    requires Collected(original, |original|, pos, val) && j < |pos|
    ensures pos[j] < Next(original, pos, j + 1) <= |original| && Contribution(original[pos[j]])
    ensures val[j] == Copy(original[pos[j]])
    ensures forall x :: pos[j] < x < Next(original, pos, j + 1) ==> !Contribution(original[x])
  {
    var q := Next(original, pos, j + 1);
    forall x | pos[j] < x < q ensures !Contribution(original[x]) {
      forall m | 0 <= m < |pos| ensures pos[m] != x {
        if m < j {
          assert pos[m] < pos[j];
        } else if m > j + 1 {
          assert pos[j + 1] < pos[m];
        }
      }
    }
  }

  /** Duplicating from contribution line p on, when the next contribution line is at q or later. */
  lemma {:induction false} DupOfFrom(original: seq<Record>, p: nat, q: nat)
    requires p < q <= |original| && Contribution(original[p])
    requires forall x :: p < x < q ==> !Contribution(original[x])
    ensures DupOf(original[p..]) == [original[p], Copy(original[p])] + original[p + 1..q] + DupOf(original[q..])
  {
    var mid, tail := original[p + 1..q], original[q..];
    forall x | 0 <= x < |mid| ensures !Contribution(mid[x]) {
      assert mid[x] == original[p + 1 + x];
    }
    DupOfNone(mid);
    DupOfAppend(mid, tail);
    var s := original[p..];
    assert s[0] == original[p] && s[1..] == mid + tail;
    assert DupOf(s) == [original[p]] + [Copy(original[p])] + DupOf(s[1..]);
    assert DupOf(s[1..]) == mid + DupOf(tail);
  }

  /** Putting c right after a prefix a + [x] of a sequence. */
  lemma {:induction false} Splice(a: seq<Record>, x: Record, c: Record, rest: seq<Record>)
    ensures var l := a + [x] + rest; l[..|a| + 1] + [c] + l[|a| + 1..] == a + [x, c] + rest
  {
    var l := a + [x] + rest;
    assert l[..|a| + 1] == a + [x];
    assert l[|a| + 1..] == rest;
  }

  /** Cutting the records before q at p. */
  lemma {:induction false} CutAt(original: seq<Record>, p: nat, q: nat, d: seq<Record>)
    requires p < q <= |original|
    ensures original[..q] + d == original[..p] + [original[p]] + (original[p + 1..q] + d)
  {
    assert original[..q] == original[..p] + [original[p]] + original[p + 1..q];
  }

  /** Inserting the copy of contribution line p right after it extends the inserted suffix to start at p. */
  lemma {:induction false} InsertStep(original: seq<Record>, p: nat, q: nat)
    requires p < q <= |original| && Contribution(original[p])
    requires forall x :: p < x < q ==> !Contribution(original[x])
    ensures p + 1 <= |InsertedFrom(original, q)|
    ensures var l := InsertedFrom(original, q);
      l[..p + 1] + [Copy(original[p])] + l[p + 1..] == InsertedFrom(original, p)
  {
    var a, x, c := original[..p], original[p], Copy(original[p]);
    var rest := original[p + 1..q] + DupOf(original[q..]);
    DupOfFrom(original, p, q);
    assert DupOf(original[p..]) == [x, c] + rest;
    CutAt(original, p, q, DupOf(original[q..]));
    assert InsertedFrom(original, q) == a + [x] + rest;
    Splice(a, x, c, rest);
    assert |a| == p;
  }

  /** With every copy inserted, the records are the duplicated records. */
  lemma {:induction false} InsertedAll(original: seq<Record>, pos: seq<nat>, val: seq<Record>)
    requires Collected(original, |original|, pos, val)
    ensures Duplicated(original) == Ok(InsertedFrom(original, Next(original, pos, 0)))
  {
    var p := Next(original, pos, 0);
    var head := original[..p];
    assert forall m :: 0 <= m < |pos| ==> p <= pos[m];
    forall x | 0 <= x < |head| ensures !Contribution(head[x]) {
      assert x !in pos;
    }
    DupOfNone(head);
    assert original == head + original[p..];
    DupOfAppend(head, original[p..]);
  }

  // ---- proof helpers for Document.parse ------------------------------------------

  /** Parsing from text line i is parsing line i, then the rest. */
  lemma {:induction false} ParseFromStep(L: seq<LineLayout>, text: seq<string>, i: nat, cur: nat, st: DocState)
    requires i < |text|
    ensures ParseFrom(L, text, i, cur, st) == AfterLine(L, text, i, ParseLine(L, text[i], i, 0, cur, st))
  {
  }

  /** A line type whose prefix does not start the line is passed over. */
  lemma {:induction false} ParseLineSkip(L: seq<LineLayout>, lin: string, i: nat, k: nat, cur: nat, st: DocState)
    requires k < |L| && !StartsWith(lin, L[k].prefix)
    ensures ParseLine(L, lin, i, k, cur, st) == ParseLine(L, lin, i, k + 1, cur, st)
  {
  }

  /** A contribution line with no open group stops the line. */
  lemma {:induction false} ParseLineFails(L: seq<LineLayout>, lin: string, i: nat, k: nat, cur: nat, st: DocState)
    requires k < |L| && StartsWith(lin, L[k].prefix)
    requires Group(L[k].prefix, i, cur, st).outcome.Fail?
    ensures ParseLine(L, lin, i, k, cur, st) == Group(L[k].prefix, i, cur, st)
  {
  }

  /** A matching line type, once the line is grouped into g, reads the line and appends the tagged record. */
  lemma {:induction false} ParseLineRead(L: seq<LineLayout>, lin: string, i: nat, k: nat, cur: nat, st: DocState, g: Step, r: Result<Record>)
    requires k < |L| && StartsWith(lin, L[k].prefix) && r == ReadLine(L[k], lin)
    requires g == Group(L[k].prefix, i, cur, st) && g.outcome == Pass
    ensures ParseLine(L, lin, i, k, cur, st) ==
      if r.Err? then Step(g.st, g.cur, Fail(r.error))
      else ParseLine(L, lin, i, k + 1, g.cur, g.st.(lines := g.st.lines + [r.value[LineCode := Text(L[k].prefix)]]))
  {
  }

  /** Rendering the records from position i on: record i, then the ones after it. */
  lemma {:induction false} RenderRecordsStep(L: seq<LineLayout>, lines: seq<Record>, i: nat, grup: string -> string)
    requires i < |lines|
    ensures var first := RenderRecord(L, lines[i], grup);
      RenderRecords(L, lines[i..], grup) ==
        if first.Err? then Err(first.error)
        else
          var rest := RenderRecords(L, lines[i + 1..], grup);
          if rest.Err? then Err(rest.error) else Ok([first.value] + rest.value)
  {
    assert lines[i..][0] == lines[i] && lines[i..][1..] == lines[i + 1..];
  }
}
