/**
 * apd_builder: the four line types of an APD declaration file (header,
 * employee, contribution and terminator lines) and the document that
 * registers them, with what the rest of the model needs to know about them.
 */
module Catalog {
  import opened Values
  import opened Strings
  import opened Columns
  import opened Lines
  import opened Documents
  import opened TotalsFacts
  import opened ParseFacts

  const HeaderCode: string := "1"
  const TerminatorCode: string := "EOF"

  /** Header columns 1-7: the file, its version and the IKA branch. */
  function HeaderFileColumns(): seq<Col>
  {
    [
      Col("plithos", "ΠΛΗΘΟΣ", ColTextInt, 2),
      Col("aa", "ΑΑ", ColTextInt, 2),
      Col("fname", "ΟΝΟΜΑ ΑΡΧΕΙΟΥ", ColText, 8),
      Col("ekdosi", "ΕΚΔΟΣΗ", ColTextInt, 2),
      Col("dilosityp", "ΤΥΠΟΣ ΔΗΛΩΣΗΣ", ColTextInt, 2),
      Col("ypma", "ΥΠΟΚΑΤΑΣΤΗΜΑ ΙΚΑ", ColTextInt, 3),
      Col("ypname", "ΟΝΟΜΑΣΙΑ ΥΠΟΚ/ΤΟΣ ΙΚΑ", ColText, 50)
    ]
  }

  /** Header columns 8-12: the employer. */
  function HeaderEmployerColumns(): seq<Col>
  {
    [
      Col("epon", "ΕΠΩΝΥΜΙΑ ΕΡΓΟΔΟΤΗ", ColText, 80),
      Col("onoma", "ΟΝΟΜΑ ΕΡΓΟΔΟΤΗ", ColText, 30),
      Col("pateras", "ΟΝΟΜΑ ΠΑΤΡΟΣ ΕΡΓ/ΤΗ", ColText, 30),
      Col("ame", "Α.Μ.Ε.", ColTextInt, 10),
      Col("afm", "Α.Φ.Μ.", ColTextInt, 9)
    ]
  }

  /** Header columns 13-16: the employer's address. */
  function HeaderAddressColumns(): seq<Col>
  {
    [
      Col("odos", "ΟΔΟΣ", ColText, 50),
      Col("arithmos", "ΑΡΙΘΜΟΣ", ColText, 10),
      Col("tk", "Τ.Κ.", ColTextInt, 5),
      Col("poli", "ΠΟΛΗ", ColText, 30)
    ]
  }

  /** Header columns 17-26: the period, the totals and the dates. */
  function HeaderPeriodColumns(): seq<Col>
  {
    [
      Col("apomina", "ΑΠΟ ΜΗΝΑ", ColTextInt, 2),
      Col("apoetos", "ΑΠΟ ΕΤΟΣ", ColTextInt, 4),
      Col("eosmina", "ΈΩΣ ΜΗΝΑ", ColTextInt, 2),
      Col("eosetos", "ΈΩΣ ΕΤΟΣ", ColTextInt, 4),
      Col("totalmeres", "ΣΥΝΟΛΟ ΗΜΕΡΩΝ ΑΣΦΑΛΙΣΗΣ", ColInt, 8),
      Col("apodoxes", "ΣΥΝΟΛΟ ΑΠΟΔΟΧΩΝ", ColPoso, 12),
      Col("eisfores", "ΣΥΝΟΛΟ ΕΙΣΦΟΡΩΝ", ColPoso, 12),
      Col("ypoboli", "ΗΜ/ΝΙΑ ΥΠΟΒΟΛΗΣ", ColDate, 8),
      Col("pafsi", "ΗΜ/ΝΙΑ ΠΑΥΣΗΣ ΕΡΓΑΣΙΩΝ", ColDate, 8),
      Col("filler", "ΚΕΝΑ", ColText, 30)
    ]
  }

  /** The columns of the header line ('1'). */
  function HeaderColumns(): seq<Col>
  {
    HeaderFileColumns() + HeaderEmployerColumns() + HeaderAddressColumns() + HeaderPeriodColumns()
  }

  /** The columns of an employee line ('2'). */
  function EmployeeColumns(): seq<Col>
  {
    [
      Col("ama", "ΑΡ.ΜΗΤΡΩΟΥ ΑΣΦ.", ColTextInt, 9),
      Col("amka", "Α.Μ.Κ.Α.", ColTextInt, 11),
      Col("asf_eponymo", "ΕΠΩΝΥΜΟ", ColText, 50),
      Col("asf_onoma", "ΟΝΟΜΑ", ColText, 30),
      Col("asf_pateras", "ΟΝΟΜΑ ΠΑΤΡΟΣ", ColText, 30),
      Col("asf_mitera", "ΟΝΟΜΑ ΜΗΤΡΟΣ", ColText, 30),
      Col("asf_gennisi", "ΗΜ/ΝΙΑ ΓΕΝΝΗΣΗΣ", ColDate, 8),
      Col("asf_afm", "Α.Φ.Μ.", ColTextInt, 9)
    ]
  }

  /** Contribution columns 1-8: the branch, the activity code and the kind of work. */
  function ContributionWorkColumns(): seq<Col>
  {
    [
      Col("parartima_no", "ΑΡ.ΠΑΡΑΡΤ.", ColTextInt, 4),
      Col("kad", "ΚΑΔ", ColTextInt, 4),
      Col("plires_orario", "ΠΛΗΡΕΣ ΩΡΑΡΙΟ", ColTextInt, 1),
      Col("oles_ergasimes", "ΟΛΕΣ ΕΡΓΑΣΙΜΕΣ", ColTextInt, 1),
      Col("kyriakes", "ΚΥΡΙΑΚΕΣ", ColInt, 1),
      Col("eid", "ΚΩΔ.ΕΙΔΙΚΟΤΗΤΑΣ", ColTextInt, 6),
      Col("eid_per_asfalisis", "ΕΙΔ.ΠΕΡΙΠΤ.ΑΣΦΑΛ.", ColIntSpace, 2),
      Col("kpk", "ΠΑΚΕΤΟ ΚΑΛΥΨΗΣ", ColInt, 4)
    ]
  }

  /** Contribution columns 9-14: the pay period, the kind of pay and the days. */
  function ContributionPeriodColumns(): seq<Col>
  {
    [
      Col("mismina", "ΜΙΣΘ.ΠΕΡ.ΜΗΝΑΣ", ColTextInt, 2),
      Col("misetos", "ΜΙΣΘ.ΠΕΡ.ΕΤΟΣ", ColTextInt, 4),
      Col("apoapasxolisi", "ΑΠΟ ΗΜ/ΝΙΑ ΑΠΑΣΧ.", ColDate, 8),
      Col("eosapasxolisi", "ΈΩΣ ΗΜ/ΝΙΑ ΑΠΑΣΧ.", ColDate, 8),
      Col("apodoxes_type", "ΤΥΠΟΣ ΑΠΟΔΟΧΩΝ", ColTextInt, 2),
      Col("imeres_asfalisis", "ΗΜΕΡΕΣ ΑΣΦΑΛΙΣΗΣ", ColInt, 3)
    ]
  }

  /** Contribution columns 15-23: the amounts. */
  function ContributionAmountColumns(): seq<Col>
  {
    [
      Col("imeromisthio", "ΗΜΕΡΟΜΙΣΘΙΟ", ColPoso, 10),
      Col("apodoxes", "ΑΠΟΔΟΧΕΣ", ColPoso, 10),
      Col("eisf_asfalismenoy", "ΕΙΣΦΟΡΕΣ ΑΣΦΑΛΙΣΜ.", ColPoso, 10),
      Col("eisf_ergodoti", "ΕΙΣΦΟΡΕΣ ΕΡΓΟΔΟΤΗ", ColPoso, 10),
      Col("eisf_total", "ΣΥΝΟΛΙΚΕΣ ΕΙΣΦΟΡΕΣ", ColPoso, 11),
      Col("epid_asfalismenoy_poso", "ΕΠΙΔΟΤ.ΑΣΦΑΛ.(ΠΟΣΟ)", ColPoso, 10),
      Col("epid_ergodoti_pososto", "ΕΠΙΔΟΤ.ΕΡΓΟΔ.(%)", ColPoso, 5),
      Col("epid_ergodoti_poso", "ΕΙΔΟΤ.ΕΡΓΟΔ.(ΠΟΣΟ)", ColPoso, 10),
      Col("katablitees_eisfores", "ΚΑΤΑΒΛ.ΕΙΣΦΟΡΕΣ", ColPoso, 11)
    ]
  }

  /** The columns of a contribution line ('3'). */
  function ContributionColumns(): seq<Col>
  {
    ContributionWorkColumns() + ContributionPeriodColumns() + ContributionAmountColumns()
  }

  const HeaderLine := LineLayout("Header", HeaderCode, HeaderColumns())
  const EmployeeLine := LineLayout("Stoixeia Ergazomenoy", EmployeeCode, EmployeeColumns())
  const ContributionLine := LineLayout("Stoixeia misthodosias", ContributionCode, ContributionColumns())
  const TerminatorLine := LineLayout("Terminator line", TerminatorCode, [])

  /** The registry apd_builder sets up, in registration order. */
  const ApdLayouts: seq<LineLayout> := [HeaderLine, EmployeeLine, ContributionLine, TerminatorLine]

  /**
   * A line type of apd_builder: created empty, then given its columns one
   * add_col call at a time, in the order of the table.
   */
  method BuildLineType(name: string, prefix: string, cols: seq<Col>) returns (lt: LineType)
    ensures fresh(lt) && lt.Valid() && lt.Layout() == LineLayout(name, prefix, cols)
  {
    lt := new LineType(name, prefix);
    for k := 0 to |cols|
      invariant lt.Valid() && lt.name == name && lt.prefix == prefix && lt.columns == cols[..k]
    {
      lt.AddCol(cols[k]);
    }
    assert cols[..|cols|] == cols;
  }

  /** The first half of apd_builder: the four line types, built and not yet registered. */
  method ApdLineTypes() returns (li1: LineType, li2: LineType, li3: LineType, leof: LineType)
    ensures fresh(li1) && fresh(li2) && fresh(li3) && fresh(leof)
    ensures li1.Layout() == HeaderLine && li2.Layout() == EmployeeLine
    ensures li3.Layout() == ContributionLine && leof.Layout() == TerminatorLine
  {
    li1 := BuildLineType(HeaderLine.name, HeaderCode, HeaderColumns());
    li2 := BuildLineType(EmployeeLine.name, EmployeeCode, EmployeeColumns());
    li3 := BuildLineType(ContributionLine.name, ContributionCode, ContributionColumns());
    leof := new LineType(TerminatorLine.name, TerminatorCode);
  }

  lemma {:induction false} Unregistered1(lts: seq<LineType>, lt: LineType)
    requires |lts| == 1 && lts[0].prefix != lt.prefix && lts[0].name != lt.name
    ensures lt.prefix !in PrefixesOf(lts) && lt.name !in NamesOf(lts)
  {
  }

  lemma {:induction false} Unregistered2(lts: seq<LineType>, lt: LineType)
    requires |lts| == 2 && lts[0].prefix != lt.prefix && lts[0].name != lt.name
    requires lts[1].prefix != lt.prefix && lts[1].name != lt.name
    ensures lt.prefix !in PrefixesOf(lts) && lt.name !in NamesOf(lts)
  {
  }

  lemma {:induction false} Unregistered3(lts: seq<LineType>, lt: LineType)
    requires |lts| == 3 && lts[0].prefix != lt.prefix && lts[0].name != lt.name
    requires lts[1].prefix != lt.prefix && lts[1].name != lt.name
    requires lts[2].prefix != lt.prefix && lts[2].name != lt.name
    ensures lt.prefix !in PrefixesOf(lts) && lt.name !in NamesOf(lts)
  {
  }

  /** What the registry and the names of four registered line types are. */
  lemma {:induction false} RegistryOfFour(lts: seq<LineType>)
    requires |lts| == 4
    ensures Layouts(lts) == [lts[0].Layout(), lts[1].Layout(), lts[2].Layout(), lts[3].Layout()]
    ensures NamesOf(lts) == [lts[0].name, lts[1].name, lts[2].name, lts[3].name]
  {
    LayoutsAt(lts, 0);
    LayoutsAt(lts, 1);
    LayoutsAt(lts, 2);
    LayoutsAt(lts, 3);
  }

  /**
   * apd_builder: builds the four line types, then registers them in a new
   * document; every registration goes through.
   */
  method ApdBuilder() returns (doc: Document)
    ensures fresh(doc) && doc.Valid()
    ensures doc.Registry() == ApdLayouts
    ensures doc.LinetypeNames() == ["Header", "Stoixeia Ergazomenoy", "Stoixeia misthodosias", "Terminator line"]
    ensures doc.lines == [] && doc.ergnoi == map[] && doc.totalErgnoi == 0
  {
    var li1, li2, li3, leof := ApdLineTypes();
    doc := new Document();
    var o1 := doc.AddLinetype(li1);
    assert doc.linetypes == [li1];
    Unregistered1(doc.linetypes, li2);
    var o2 := doc.AddLinetype(li2);
    assert doc.linetypes == [li1, li2];
    Unregistered2(doc.linetypes, li3);
    var o3 := doc.AddLinetype(li3);
    assert doc.linetypes == [li1, li2, li3];
    Unregistered3(doc.linetypes, leof);
    var o4 := doc.AddLinetype(leof);
    assert doc.linetypes == [li1, li2, li3, leof];
    RegistryOfFour(doc.linetypes);
  }

  // ---- what the catalog is -------------------------------------------------------

  /** The widths of HeaderFileColumns add up to 69. */
  lemma HeaderFileColumnsWidth()
    ensures ColumnsWidth(HeaderFileColumns()) == 69
  {
  }

  /** The widths of HeaderEmployerColumns add up to 159. */
  lemma HeaderEmployerColumnsWidth()
    ensures ColumnsWidth(HeaderEmployerColumns()) == 159
  {
  }

  /** The widths of HeaderAddressColumns add up to 95. */
  lemma HeaderAddressColumnsWidth()
    ensures ColumnsWidth(HeaderAddressColumns()) == 95
  {
  }

  /** The widths of HeaderPeriodColumns add up to 90. */
  lemma HeaderPeriodColumnsWidth()
    ensures ColumnsWidth(HeaderPeriodColumns()) == 90
  {
  }

  /** The widths of EmployeeColumns add up to 177. */
  lemma EmployeeColumnsWidth()
    ensures ColumnsWidth(EmployeeColumns()) == 177
  {
  }

  /** The widths of ContributionWorkColumns add up to 23. */
  lemma ContributionWorkColumnsWidth()
    ensures ColumnsWidth(ContributionWorkColumns()) == 23
  {
  }

  /** The widths of ContributionPeriodColumns add up to 27. */
  lemma ContributionPeriodColumnsWidth()
    ensures ColumnsWidth(ContributionPeriodColumns()) == 27
  {
  }

  /** The widths of ContributionAmountColumns add up to 87. */
  lemma ContributionAmountColumnsWidth()
    ensures ColumnsWidth(ContributionAmountColumns()) == 87
  {
  }

  /** The header columns are 413 characters wide. */
  lemma HeaderColumnsWidth()
    ensures ColumnsWidth(HeaderColumns()) == 413
  {
    HeaderFileColumnsWidth();
    HeaderEmployerColumnsWidth();
    HeaderAddressColumnsWidth();
    HeaderPeriodColumnsWidth();
    WidthSplit(HeaderFileColumns(), HeaderEmployerColumns());
    WidthSplit(HeaderFileColumns() + HeaderEmployerColumns(), HeaderAddressColumns());
    WidthSplit(HeaderFileColumns() + HeaderEmployerColumns() + HeaderAddressColumns(), HeaderPeriodColumns());
  }

  /** The contribution columns are 137 characters wide. */
  lemma ContributionColumnsWidth()
    ensures ColumnsWidth(ContributionColumns()) == 137
  {
    ContributionWorkColumnsWidth();
    ContributionPeriodColumnsWidth();
    ContributionAmountColumnsWidth();
    WidthSplit(ContributionWorkColumns(), ContributionPeriodColumns());
    WidthSplit(ContributionWorkColumns() + ContributionPeriodColumns(), ContributionAmountColumns());
  }

  /** LineType.size of the four line types: 414, 178, 138 and 3 characters. */
  lemma CatalogWidths()
    ensures Width(HeaderLine) == 414 && Width(EmployeeLine) == 178
    ensures Width(ContributionLine) == 138 && Width(TerminatorLine) == 3
  {
    HeaderColumnsWidth();
    EmployeeColumnsWidth();
    ContributionColumnsWidth();
  }

  // ---- field names ------------------------------------------------------------

  /** The field names of header columns 1-7 are distinct. */
  lemma HeaderFileColumnsNames()
    ensures DistinctNames(HeaderFileColumns())
  {
  }

  /** The field names of header columns 8-12 are distinct. */
  lemma HeaderEmployerColumnsNames()
    ensures DistinctNames(HeaderEmployerColumns())
  {
  }

  /** The field names of header columns 13-16 are distinct. */
  lemma HeaderAddressColumnsNames()
    ensures DistinctNames(HeaderAddressColumns())
  {
  }

  /** The field names of header columns 17-26 are distinct. */
  lemma HeaderPeriodColumnsNames()
    ensures DistinctNames(HeaderPeriodColumns())
  {
  }

  /** The 8 employee fields have distinct names, none of them line_code. */
  lemma EmployeeColumnsNames()
    ensures DistinctNames(EmployeeColumns())
    ensures forall j :: 0 <= j < |EmployeeColumns()| ==> EmployeeColumns()[j].name != LineCode
  {
  }

  /** The field names of contribution columns 1-8 are distinct. */
  lemma ContributionWorkColumnsNames()
    ensures DistinctNames(ContributionWorkColumns())
  {
  }

  /** The field names of contribution columns 9-14 are distinct. */
  lemma ContributionPeriodColumnsNames()
    ensures DistinctNames(ContributionPeriodColumns())
  {
  }

  /** The field names of contribution columns 15-23 are distinct. */
  lemma ContributionAmountColumnsNames()
    ensures DistinctNames(ContributionAmountColumns())
  {
  }

  /** The header file and employer columns share no field name. */
  lemma HeaderFileEmployerApart()
    ensures NamesApart(HeaderFileColumns(), HeaderEmployerColumns())
  {
  }

  /** The header file and address columns share no field name. */
  lemma HeaderFileAddressApart()
    ensures NamesApart(HeaderFileColumns(), HeaderAddressColumns())
  {
  }

  /** The header employer and address columns share no field name. */
  lemma HeaderEmployerAddressApart()
    ensures NamesApart(HeaderEmployerColumns(), HeaderAddressColumns())
  {
  }

  /** The header file and period columns share no field name. */
  lemma HeaderFilePeriodApart()
    ensures NamesApart(HeaderFileColumns(), HeaderPeriodColumns())
  {
  }

  /** The header employer and period columns share no field name. */
  lemma HeaderEmployerPeriodApart()
    ensures NamesApart(HeaderEmployerColumns(), HeaderPeriodColumns())
  {
  }

  /** The header address and period columns share no field name. */
  lemma HeaderAddressPeriodApart()
    ensures NamesApart(HeaderAddressColumns(), HeaderPeriodColumns())
  {
  }

  /** The contribution work and period columns share no field name. */
  lemma ContributionWorkPeriodApart()
    ensures NamesApart(ContributionWorkColumns(), ContributionPeriodColumns())
  {
  }

  /** The contribution work and amount columns share no field name. */
  lemma ContributionWorkAmountApart()
    ensures NamesApart(ContributionWorkColumns(), ContributionAmountColumns())
  {
  }

  /** The contribution period and amount columns share no field name. */
  lemma ContributionPeriodAmountApart()
    ensures NamesApart(ContributionPeriodColumns(), ContributionAmountColumns())
  {
  }

  /** The 26 header fields have distinct names, none of them line_code. */
  lemma HeaderColumnsNames()
    ensures DistinctNames(HeaderColumns())
    ensures forall j :: 0 <= j < |HeaderColumns()| ==> HeaderColumns()[j].name != LineCode
  {
    var f, e, a, p := HeaderFileColumns(), HeaderEmployerColumns(), HeaderAddressColumns(), HeaderPeriodColumns();
    HeaderFileColumnsNames();
    HeaderEmployerColumnsNames();
    HeaderAddressColumnsNames();
    HeaderPeriodColumnsNames();
    HeaderFileEmployerApart();
    HeaderFileAddressApart();
    HeaderEmployerAddressApart();
    HeaderFilePeriodApart();
    HeaderEmployerPeriodApart();
    HeaderAddressPeriodApart();
    DistinctJoin(f, e);
    ApartJoin(f, e, a);
    DistinctJoin(f + e, a);
    ApartJoin(f, e, p);
    ApartJoin(f + e, a, p);
    DistinctJoin(f + e + a, p);
  }

  /** The 23 contribution fields have distinct names, none of them line_code. */
  lemma ContributionColumnsNames()
    ensures DistinctNames(ContributionColumns())
    ensures forall j :: 0 <= j < |ContributionColumns()| ==> ContributionColumns()[j].name != LineCode
  {
    var w, p, a := ContributionWorkColumns(), ContributionPeriodColumns(), ContributionAmountColumns();
    ContributionWorkColumnsNames();
    ContributionPeriodColumnsNames();
    ContributionAmountColumnsNames();
    ContributionWorkPeriodApart();
    ContributionWorkAmountApart();
    ContributionPeriodAmountApart();
    DistinctJoin(w, p);
    ApartJoin(w, p, a);
    DistinctJoin(w + p, a);
  }

  /** The terminator line renders as 'EOF' whatever the record, and reads back only from 'EOF', as no field. */
  lemma TerminatorLineCodec(data: Record, grup: string -> string, t: string)
    ensures RenderLine(TerminatorLine, data, grup) == Ok(TerminatorCode)
    ensures ReadLine(TerminatorLine, t).Ok? <==> t == TerminatorCode
    ensures ReadLine(TerminatorLine, t).Ok? ==> ReadLine(TerminatorLine, t).value == map[]
  {
    assert TerminatorCode + [] == TerminatorCode;
  }

  /** The line codes of apd_builder's registry, in registration order. */
  const ApdCodes: seq<string> := [HeaderCode, EmployeeCode, ContributionCode, TerminatorCode]

  /** No line code of the registry begins another one. */
  lemma CodesPrefixFree()
    ensures forall a, b :: 0 <= a < 4 && 0 <= b < 4 && a != b ==> !StartsWith(ApdCodes[b], ApdCodes[a])
  {
    forall a, b | 0 <= a < 4 && 0 <= b < 4 && a != b ensures !StartsWith(ApdCodes[b], ApdCodes[a]) {
      if a < 3 {
        assert ApdCodes[a][0] != ApdCodes[b][0];
      } else {
        assert |ApdCodes[b]| < |ApdCodes[a]|;
      }
    }
  }

  /**
   * No prefix of apd_builder's registry begins another one, so the prefixes
   * are distinct and parse, whose scan over the line types has no break,
   * reads every text line with at most one line type.
   */
  lemma CatalogPrefixFree(lin: string)
    ensures PrefixFree(ApdLayouts) && DistinctPrefixes(ApdLayouts)
    ensures |Matched(ApdLayouts, lin, 0)| <= 1
  {
    assert forall k :: 0 <= k < 4 ==> ApdLayouts[k].prefix == ApdCodes[k];
    CodesPrefixFree();
    MatchedOnce(ApdLayouts, lin, 0);
  }

  /** In every line type of apd_builder the field names are distinct, and none is line_code. */
  lemma CatalogFieldsApart()
    ensures FieldsApart(ApdLayouts)
  {
    HeaderColumnsNames();
    EmployeeColumnsNames();
    ContributionColumnsNames();
  }

  /**
   * Document.parse, then Document.render, under apd_builder's registry: a
   * text whose every line is one its line type would render, and which
   * parses without error, renders back to the same text.
   */
  lemma ApdParseThenRender(text: seq<string>, grup: string -> string)
    requires CanonicalText(ApdLayouts, text, grup)
    ensures var (st, o) := ParseText(ApdLayouts, text, DocState([], map[], 0));
      o == Pass ==> RenderDocument(ApdLayouts, st.lines, grup) == Ok(Join(text, "\n"))
  {
    CatalogPrefixFree("");
    CatalogFieldsApart();
    ParseThenRender(ApdLayouts, text, grup);
  }

  /**
   * Document.render under apd_builder's registry: the text starts with the
   * first record's line_code (a header record gives '1'), and when the last
   * record is a terminator line the text ends with 'EOF'.
   */
  lemma RenderEnds(lines: seq<Record>, grup: string -> string)
    requires RenderDocument(ApdLayouts, lines, grup).Ok? && |lines| >= 1
    ensures LineCode in lines[0] && lines[0][LineCode].Text?
    ensures StartsWith(RenderDocument(ApdLayouts, lines, grup).value, lines[0][LineCode].s)
    ensures var d := RenderDocument(ApdLayouts, lines, grup).value; var last := lines[|lines| - 1];
      LineCode in last && last[LineCode] == Text(TerminatorCode) ==> |d| >= 3 && d[|d| - 3..] == TerminatorCode
  {
    RenderDocumentEnds(ApdLayouts, lines, grup);
    var last := lines[|lines| - 1];
    if LineCode in last && last[LineCode] == Text(TerminatorCode) {
      assert FindPrefix(ApdLayouts, TerminatorCode) == Some(3);
      TerminatorLineCodec(last, grup, "");
    }
  }
}
