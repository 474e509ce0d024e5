/**
 * What Document.parse builds, stated without its loops: over a registry
 * whose prefixes are distinct, a successful parse from a fresh document
 *   - opens one group per employee line, keyed by its text line index,
 *     and counts them in total_ergnoi;
 *   - files every contribution line under the last employee line before it
 *     (and fails when there is none);
 *   - appends, line after line, one tagged record per line type whose
 *     prefix starts the line, and nothing for a line no prefix starts.
 */
module ParseFacts {
  import opened Values
  import opened Strings
  import opened Lines
  import opened Documents
  import opened Groups

  /** No prefix is registered twice. */
  predicate DistinctPrefixes(L: seq<LineLayout>) {
    forall a, b :: 0 <= a < b < |L| ==> L[a].prefix != L[b].prefix
  }

  /** Some line type from position k on has the prefix `code`. */
  predicate Registered(L: seq<LineLayout>, k: nat, code: string) {
    exists m :: k <= m < |L| && L[m].prefix == code
  }

  /** An employee line starts with a registered '2', a contribution line with a registered '3'. */
  function KindOf(L: seq<LineLayout>, lin: string): Kind {
    if Registered(L, 0, EmployeeCode) && StartsWith(lin, EmployeeCode) then Employee
    else if Registered(L, 0, ContributionCode) && StartsWith(lin, ContributionCode) then Contribution
    else Other
  }

  /** The kind of every text line. */
  function Kinds(L: seq<LineLayout>, text: seq<string>): (ks: seq<Kind>)
    ensures |ks| == |text| && forall j :: 0 <= j < |text| ==> ks[j] == KindOf(L, text[j])
  {
    seq(|text|, j requires 0 <= j < |text| => KindOf(L, text[j]))
  }

  /** The tagged records the line types from position k on read from `lin`, in registration order. */
  function Matched(L: seq<LineLayout>, lin: string, k: nat): seq<Record>
    requires k <= |L|
    decreases |L| - k
  {
    if k == |L| then []
    else
      var r := ReadLine(L[k], lin);
      (if StartsWith(lin, L[k].prefix) && r.Ok? then [r.value[LineCode := Text(L[k].prefix)]] else [])
      + Matched(L, lin, k + 1)
  }

  /** The tagged records of the text lines from i on. */
  function MatchedText(L: seq<LineLayout>, text: seq<string>, i: nat): seq<Record>
    requires i <= |text|
    decreases |text| - i
  {
    if i == |text| then [] else Matched(L, text[i], 0) + MatchedText(L, text, i + 1)
  }

  /** No registered prefix begins another one (which also makes them distinct). */
  predicate PrefixFree(L: seq<LineLayout>) {
    forall a, b :: 0 <= a < |L| && 0 <= b < |L| && a != b ==> !StartsWith(L[b].prefix, L[a].prefix)
  }

  /** Line types whose prefixes do not start the line read nothing from it. */
  lemma {:induction false} MatchedNone(L: seq<LineLayout>, lin: string, k: nat)
    requires k <= |L| && forall m :: k <= m < |L| ==> !StartsWith(lin, L[m].prefix)
    ensures Matched(L, lin, k) == []
    decreases |L| - k
  {
    if k < |L| {
      MatchedNone(L, lin, k + 1);
    }
  }

  /** Over a prefix-free registry, no other prefix starts a line that one prefix starts. */
  lemma {:induction false} OnlyPrefix(L: seq<LineLayout>, lin: string, k: nat)
    requires PrefixFree(L) && k < |L| && StartsWith(lin, L[k].prefix)
    ensures forall m :: 0 <= m < |L| && m != k ==> !StartsWith(lin, L[m].prefix)
  {
    forall m | 0 <= m < |L| && m != k ensures !StartsWith(lin, L[m].prefix) {
      if StartsWith(lin, L[m].prefix) {
        if |L[k].prefix| <= |L[m].prefix| {
          CommonPrefix(lin, L[k].prefix, L[m].prefix);
        } else {
          CommonPrefix(lin, L[m].prefix, L[k].prefix);
        }
      }
    }
  }

  /**
   * Over a prefix-free registry the scan, although it never stops early,
   * reads a text line with at most one line type.
   */
  lemma {:induction false} MatchedOnce(L: seq<LineLayout>, lin: string, k: nat)
    requires PrefixFree(L) && k <= |L|
    ensures |Matched(L, lin, k)| <= 1
    decreases |L| - k
  {
    if k < |L| {
      if StartsWith(lin, L[k].prefix) {
        OnlyPrefix(L, lin, k);
        MatchedNone(L, lin, k + 1);
      } else {
        MatchedOnce(L, lin, k + 1);
      }
    }
  }

  // ---- one text line ---------------------------------------------------------------

  lemma {:induction false} RegisteredStep(L: seq<LineLayout>, k: nat, code: string)
    requires k < |L|
    ensures Registered(L, k, code) <==> L[k].prefix == code || Registered(L, k + 1, code)
  {
    if Registered(L, k, code) && L[k].prefix != code {
      var m :| k <= m < |L| && L[m].prefix == code;
      assert k + 1 <= m;
    }
  }

  lemma {:induction false} RegisteredOnce(L: seq<LineLayout>, k: nat)
    requires DistinctPrefixes(L) && k < |L|
    ensures !Registered(L, k + 1, L[k].prefix)
  {
    forall m | k + 1 <= m < |L| ensures L[m].prefix != L[k].prefix {
      assert k < m;
    }
  }

  /** A line that starts with '2' does not start with '3'. */
  lemma {:induction false} EmployeeNotContribution(lin: string)
    ensures StartsWith(lin, EmployeeCode) ==> !StartsWith(lin, ContributionCode)
  {
    if StartsWith(lin, EmployeeCode) {
      assert lin[0] == lin[..1][0] == '2';
    }
  }

  /**
   * What the line types from position k on do to the groups for text line
   * i: an employee line opens group i, a contribution line joins group cur
   * (which must exist), and any other line leaves the groups alone.
   */
  predicate GroupEffect(L: seq<LineLayout>, lin: string, i: nat, k: nat, cur: nat, st: DocState, r: Step)
  {
    if Registered(L, k, EmployeeCode) && StartsWith(lin, EmployeeCode) then
      r.st.ergnoi == st.ergnoi[i := []] && r.st.totalErgnoi == st.totalErgnoi + 1 && r.cur == i
    else if Registered(L, k, ContributionCode) && StartsWith(lin, ContributionCode) then
      cur in st.ergnoi && r.st.ergnoi == st.ergnoi[cur := st.ergnoi[cur] + [i]]
      && r.st.totalErgnoi == st.totalErgnoi && r.cur == cur
    else
      r.st.ergnoi == st.ergnoi && r.st.totalErgnoi == st.totalErgnoi && r.cur == cur
  }

  /** The grouping done for one text line, when the line goes through. */
  lemma {:induction false} ParseLineGroups(L: seq<LineLayout>, lin: string, i: nat, k: nat, cur: nat, st: DocState)
    requires DistinctPrefixes(L) && k <= |L|
    ensures var r := ParseLine(L, lin, i, k, cur, st);
      r.outcome == Pass ==> GroupEffect(L, lin, i, k, cur, st, r)
    decreases |L| - k
  {
    if k < |L| {
      var code := L[k].prefix;
      RegisteredStep(L, k, EmployeeCode);
      RegisteredStep(L, k, ContributionCode);
      EmployeeNotContribution(lin);
      if !StartsWith(lin, code) {
        ParseLineGroups(L, lin, i, k + 1, cur, st);
      } else {
        var g := Group(code, i, cur, st);
        var rd := ReadLine(L[k], lin);
        if g.outcome == Pass && rd.Ok? {
          var st' := g.st.(lines := g.st.lines + [rd.value[LineCode := Text(code)]]);
          ParseLineGroups(L, lin, i, k + 1, g.cur, st');
          RegisteredOnce(L, k);
        }
      }
    }
  }

  /** The records appended for one text line, when the line goes through. */
  lemma {:induction false} ParseLineRecords(L: seq<LineLayout>, lin: string, i: nat, k: nat, cur: nat, st: DocState)
    requires k <= |L|
    ensures var r := ParseLine(L, lin, i, k, cur, st);
      r.outcome == Pass ==> r.st.lines == st.lines + Matched(L, lin, k)
    decreases |L| - k
  {
    if k < |L| {
      var code := L[k].prefix;
      if !StartsWith(lin, code) {
        ParseLineRecords(L, lin, i, k + 1, cur, st);
      } else {
        var g := Group(code, i, cur, st);
        var rd := ReadLine(L[k], lin);
        if g.outcome == Pass && rd.Ok? {
          var rec := rd.value[LineCode := Text(code)];
          ParseLineRecords(L, lin, i, k + 1, g.cur, g.st.(lines := g.st.lines + [rec]));
          AppendMatched(st.lines, rec, Matched(L, lin, k + 1));
        }
      }
    }
  }

  lemma AppendMatched(lines: seq<Record>, rec: Record, rest: seq<Record>)
    ensures lines + [rec] + rest == lines + ([rec] + rest)
  {
  }

  /** A text line goes through only if every line type whose prefix starts it reads it. */
  lemma {:induction false} ParseLineReads(L: seq<LineLayout>, lin: string, i: nat, k: nat, cur: nat, st: DocState)
    requires k <= |L|
    ensures ParseLine(L, lin, i, k, cur, st).outcome == Pass ==>
      forall m :: k <= m < |L| && StartsWith(lin, L[m].prefix) ==> ReadLine(L[m], lin).Ok?
    decreases |L| - k
  {
    if k < |L| {
      var code := L[k].prefix;
      if !StartsWith(lin, code) {
        ParseLineReads(L, lin, i, k + 1, cur, st);
      } else {
        var g := Group(code, i, cur, st);
        var rd := ReadLine(L[k], lin);
        if g.outcome == Pass && rd.Ok? {
          ParseLineReads(L, lin, i, k + 1, g.cur, g.st.(lines := g.st.lines + [rd.value[LineCode := Text(code)]]));
        }
      }
    }
  }

  // ---- the whole text ----------------------------------------------------------------

  /** The groups after one more text line that goes through. */
  lemma {:induction false} GroupsStep(L: seq<LineLayout>, text: seq<string>, ks: seq<Kind>, i: nat, cur: nat, st: DocState, r: Step)
    requires DistinctPrefixes(L) && i < |text| && ks == Kinds(L, text)
    requires GroupsBefore(ks, i, st.ergnoi, st.totalErgnoi) && OpenGroup(ks, i, cur)
    requires r == ParseLine(L, text[i], i, 0, cur, st) && r.outcome == Pass
    ensures GroupsBefore(ks, i + 1, r.st.ergnoi, r.st.totalErgnoi) && OpenGroup(ks, i + 1, r.cur)
  {
    ParseLineGroups(L, text[i], i, 0, cur, st);
    EmployeeNotContribution(text[i]);
    assert ks[i] == KindOf(L, text[i]);
    match ks[i]
    case Employee => GroupsOpen(ks, i, st.ergnoi, st.totalErgnoi);
    case Contribution => GroupsJoin(ks, i, cur, st.ergnoi, st.totalErgnoi);
    case Other => GroupsKeep(ks, i, st.ergnoi, st.totalErgnoi);
  }

  /** The groups at the end of a parse that goes through. */
  lemma {:induction false} ParseFromGroups(L: seq<LineLayout>, text: seq<string>, ks: seq<Kind>, i: nat, cur: nat, st: DocState)
    requires DistinctPrefixes(L) && i <= |text| && ks == Kinds(L, text)
    requires GroupsBefore(ks, i, st.ergnoi, st.totalErgnoi) && OpenGroup(ks, i, cur)
    ensures var (st', o) := ParseFrom(L, text, i, cur, st);
      o == Pass ==> GroupsBefore(ks, |text|, st'.ergnoi, st'.totalErgnoi)
    decreases |text| - i
  {
    if i < |text| {
      var r := ParseLine(L, text[i], i, 0, cur, st);
      ParseFromStep(L, text, i, cur, st);
      if r.outcome == Pass {
        GroupsStep(L, text, ks, i, cur, st, r);
        ParseFromGroups(L, text, ks, i + 1, r.cur, r.st);
      }
    }
  }

  /** The records at the end of a parse that goes through. */
  lemma {:induction false} ParseFromRecords(L: seq<LineLayout>, text: seq<string>, i: nat, cur: nat, st: DocState)
    requires i <= |text|
    ensures ParseFrom(L, text, i, cur, st).1 == Pass ==>
      ParseFrom(L, text, i, cur, st).0.lines == st.lines + MatchedText(L, text, i)
    decreases |text| - i
  {
    if i < |text| {
      var r := ParseLine(L, text[i], i, 0, cur, st);
      ParseFromStep(L, text, i, cur, st);
      if r.outcome == Pass {
        ParseLineRecords(L, text[i], i, 0, cur, st);
        ParseFromRecords(L, text, i + 1, r.cur, r.st);
        assert st.lines + Matched(L, text[i], 0) + MatchedText(L, text, i + 1) == st.lines + MatchedText(L, text, i);
      }
    }
  }

  /**
   * Document.parse on a fresh document, when it goes through: the groups are
   * keyed by the text line indices of the employee lines and counted in
   * total_ergnoi; each holds, in order, the contribution lines after its
   * employee line and before the next one; every contribution line has an
   * employee line before it; and the records are those read by every
   * matching line type, line after line (none for an unmatched line).
   */
  lemma ParseGrouping(L: seq<LineLayout>, text: seq<string>, lines0: seq<Record>)
    requires DistinctPrefixes(L)
    ensures var (st, o) := ParseText(L, text, DocState(lines0, map[], 0));
      var ks := Kinds(L, text);
      o == Pass ==>
        (forall e: nat :: e in st.ergnoi <==> e < |text| && ks[e] == Employee)
        && st.totalErgnoi == Count(ks, |text|)
        && (forall e :: e in st.ergnoi ==> st.ergnoi[e] == Members(ks, e, |text|))
        && (forall j :: 0 <= j < |text| && ks[j] == Contribution ==> Owner(ks, j).Some?)
        && st.lines == lines0 + MatchedText(L, text, 0)
  {
    ParseFromGroups(L, text, Kinds(L, text), 0, 0, DocState(lines0, map[], 0));
    ParseFromRecords(L, text, 0, 0, DocState(lines0, map[], 0));
  }

  /** A contribution line with no employee line before it makes parse fail (Python raises KeyError). */
  lemma ParseMissingGroup(L: seq<LineLayout>, text: seq<string>, lines0: seq<Record>, j: nat)
    requires DistinctPrefixes(L) && j < |text|
    requires KindOf(L, text[j]) == Contribution && Owner(Kinds(L, text), j).None?
    ensures ParseText(L, text, DocState(lines0, map[], 0)).1 != Pass
  {
    ParseGrouping(L, text, lines0);
  }

  /** The registry of a valid document has distinct prefixes. */
  lemma {:induction false} RegistryPrefixes(lts: seq<LineType>)
    requires Distinct(PrefixesOf(lts))
    ensures DistinctPrefixes(Layouts(lts))
  {
    forall a, b | 0 <= a < b < |lts| ensures Layouts(lts)[a].prefix != Layouts(lts)[b].prefix {
      LayoutsAt(lts, a);
      LayoutsAt(lts, b);
    }
  }

  // ---- parse, then render ---------------------------------------------------------

  /** Every line type has distinct field names, none of them the line_code tag that parse adds. */
  predicate FieldsApart(L: seq<LineLayout>) {
    forall k :: 0 <= k < |L| ==>
      DistinctNames(L[k].columns) && forall c :: 0 <= c < |L[k].columns| ==> L[k].columns[c].name != LineCode
  }

  /** Every text line is one that some line type would render. */
  predicate CanonicalText(L: seq<LineLayout>, text: seq<string>, grup: string -> string) {
    forall j :: 0 <= j < |text| ==> exists k :: 0 <= k < |L| && CanonicalLine(L[k], text[j], grup)
  }

  /** The record parse keeps for a line read with line type k: the fields, tagged with the prefix. */
  function Tagged(L: seq<LineLayout>, k: nat, lin: string): Record
    requires k < |L| && ReadLine(L[k], lin).Ok?
  {
    ReadLine(L[k], lin).value[LineCode := Text(L[k].prefix)]
  }

  /** When only line type k's prefix starts the line and it reads the line, the scan from m <= k keeps exactly its record. */
  lemma {:induction false} MatchedOnly(L: seq<LineLayout>, lin: string, k: nat, m: nat)
    requires m <= k < |L| && StartsWith(lin, L[k].prefix) && ReadLine(L[k], lin).Ok?
    requires forall n :: 0 <= n < |L| && n != k ==> !StartsWith(lin, L[n].prefix)
    ensures Matched(L, lin, m) == [Tagged(L, k, lin)]
    decreases k - m
  {
    if m == k {
      MatchedNone(L, lin, k + 1);
    } else {
      MatchedOnly(L, lin, k, m + 1);
    }
  }

  /** A line that line type k reads, and that no other prefix starts, is read by line type k alone. */
  lemma {:induction false} MatchedLine(L: seq<LineLayout>, lin: string, k: nat)
    requires PrefixFree(L) && k < |L| && StartsWith(lin, L[k].prefix) && ReadLine(L[k], lin).Ok?
    ensures Matched(L, lin, 0) == [Tagged(L, k, lin)]
  {
    OnlyPrefix(L, lin, k);
    MatchedOnly(L, lin, k, 0);
  }

  /** The tagged record of line type k renders with line type k, and the line_code tag plays no part in it. */
  lemma {:induction false} RenderTagged(L: seq<LineLayout>, lin: string, k: nat, grup: string -> string)
    requires PrefixFree(L) && FieldsApart(L) && k < |L| && ReadLine(L[k], lin).Ok?
    ensures RenderRecord(L, Tagged(L, k, lin), grup) == RenderLine(L[k], ReadLine(L[k], lin).value, grup)
  {
    var l, t := L[k], Tagged(L, k, lin);
    assert FindPrefix(L, l.prefix) == Some(k) by {
      var f := FindPrefix(L, l.prefix).value;
      if f != k {
        assert l.prefix[..|L[f].prefix|] == L[f].prefix;
        assert StartsWith(l.prefix, L[f].prefix);
      }
    }
    assert Get(t, LineCode) == Ok(Text(l.prefix));
    RenderColsIgnores(l.columns, ReadLine(l, lin).value, LineCode, Text(l.prefix), grup);
  }

  /**
   * A canonical line of line type k is read by that line type alone, and
   * the tagged record it gives renders back to the line.
   */
  lemma {:induction false} ParseRenderLine(L: seq<LineLayout>, lin: string, k: nat, grup: string -> string)
    requires PrefixFree(L) && FieldsApart(L) && k < |L| && CanonicalLine(L[k], lin, grup)
    ensures ReadLine(L[k], lin).Ok?
    ensures Matched(L, lin, 0) == [Tagged(L, k, lin)]
    ensures RenderRecord(L, Tagged(L, k, lin), grup) == Ok(lin)
  {
    RenderReadLine(L[k], lin, grup);
    MatchedLine(L, lin, k);
    RenderTagged(L, lin, k, grup);
  }

  lemma {:induction false} TextStep(text: seq<string>, i: nat)
    requires i < |text|
    ensures text[i..] == [text[i]] + text[i + 1..]
  {
  }

  /** The records parse keeps for canonical text lines i and later render back to those lines. */
  lemma {:induction false} RenderMatchedText(L: seq<LineLayout>, text: seq<string>, i: nat, grup: string -> string)
    requires PrefixFree(L) && FieldsApart(L) && CanonicalText(L, text, grup) && i <= |text|
    ensures RenderRecords(L, MatchedText(L, text, i), grup) == Ok(text[i..])
    decreases |text| - i
  {
    if i < |text| {
      var k :| 0 <= k < |L| && CanonicalLine(L[k], text[i], grup);
      ParseRenderLine(L, text[i], k, grup);
      RenderMatchedText(L, text, i + 1, grup);
      assert MatchedText(L, text, i) == [Tagged(L, k, text[i])] + MatchedText(L, text, i + 1);
      RenderRecordsCons(L, Tagged(L, k, text[i]), MatchedText(L, text, i + 1), grup);
      TextStep(text, i);
    } else {
      assert text[i..] == [];
    }
  }

  /**
   * Document.render after Document.parse: over a prefix-free registry whose
   * line types keep their field names apart, text made of canonical lines
   * that parses without error renders back to the same text.
   */
  lemma {:induction false} ParseThenRender(L: seq<LineLayout>, text: seq<string>, grup: string -> string)
    requires PrefixFree(L) && FieldsApart(L) && CanonicalText(L, text, grup)
    ensures var (st, o) := ParseText(L, text, DocState([], map[], 0));
      o == Pass ==> RenderDocument(L, st.lines, grup) == Ok(Join(text, "\n"))
  {
    var st0 := DocState([], map[], 0);
    ParseFromRecords(L, text, 0, 0, st0);
    RenderMatchedText(L, text, 0, grup);
    assert [] + MatchedText(L, text, 0) == MatchedText(L, text, 0);
    assert text[0..] == text;
  }
}
