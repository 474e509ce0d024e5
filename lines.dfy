/**
 * Line types of the fixed-width file: a prefix followed by columns of fixed
 * widths. A line type renders a record (field name to value) into one text
 * line and reads a text line back into a record.
 */
module Lines {
  import opened Values
  import opened Strings
  import opened Columns

  /** One column of a line: field name, label, codec and width. */
  datatype Col = Col(name: string, lbl: string, typ: ColumnType, size: nat)

  /** What a line type is at a given moment: its name, prefix and columns in order. */
  datatype LineLayout = LineLayout(name: string, prefix: string, columns: seq<Col>)

  /** The sum of the column widths. */
  function ColumnsWidth(cols: seq<Col>): nat
  {
    if cols == [] then 0 else cols[0].size + ColumnsWidth(cols[1..])
  }

  /** LineType.size: the column widths plus the prefix length. */
  function Width(l: LineLayout): nat
  {
    |l.prefix| + ColumnsWidth(l.columns)
  }

  /** The widths of consecutive column runs add up. */
  lemma {:induction false} WidthSplit(a: seq<Col>, b: seq<Col>)
    ensures ColumnsWidth(a + b) == ColumnsWidth(a) + ColumnsWidth(b)
  {
    if a == [] {
      assert a + b == b;
    } else {
      assert (a + b)[0] == a[0];
      assert (a + b)[1..] == a[1..] + b;
      WidthSplit(a[1..], b);
    }
  }

  /** Where column j starts and ends inside the column area. */
  lemma {:induction false} ColumnBounds(cols: seq<Col>, j: nat)
    requires j < |cols|
    ensures ColumnsWidth(cols[..j + 1]) == ColumnsWidth(cols[..j]) + cols[j].size
    ensures ColumnsWidth(cols[..j]) + cols[j].size <= ColumnsWidth(cols)
  {
    assert cols[..j + 1] == cols[..j] + [cols[j]];
    WidthSplit(cols[..j], [cols[j]]);
    assert cols == cols[..j + 1] + cols[j + 1..];
    WidthSplit(cols[..j + 1], cols[j + 1..]);
  }

  /** The slice of the column area that column j occupies. */
  function Segment(cols: seq<Col>, body: string, j: nat): (s: string)
    requires |body| == ColumnsWidth(cols) && j < |cols|
    ensures |s| == cols[j].size
  {
    ColumnBounds(cols, j);
    body[ColumnsWidth(cols[..j])..ColumnsWidth(cols[..j]) + cols[j].size]
  }

  /** Column j's segment of the area starting at `off` of a line, in the line's own offsets. */
  lemma {:induction false} SegmentAt(cols: seq<Col>, t: string, off: nat, j: nat, apo: nat)
    requires off <= |t| && |t| - off == ColumnsWidth(cols) && j < |cols|
    requires apo == off + ColumnsWidth(cols[..j])
    ensures ColumnsWidth(cols[..j + 1]) == ColumnsWidth(cols[..j]) + cols[j].size
    ensures apo + cols[j].size <= |t|
    ensures t[apo..apo + cols[j].size] == Segment(cols, t[off..], j)
  {
    ColumnBounds(cols, j);
  }

  /** Past the first column, segments are those of the remaining columns in the remaining area. */
  lemma {:induction false} SegmentTail(cols: seq<Col>, body: string, j: nat)
    requires |body| == ColumnsWidth(cols) && 1 <= j < |cols|
    ensures cols[0].size <= |body| && |body[cols[0].size..]| == ColumnsWidth(cols[1..])
    ensures Segment(cols, body, j) == Segment(cols[1..], body[cols[0].size..], j - 1)
  {
    var c, rest := cols[0], cols[1..];
    assert [c][1..] == [];
    assert ColumnsWidth([c]) == c.size;
    assert cols[..j] == [c] + rest[..j - 1];
    WidthSplit([c], rest[..j - 1]);
    var o := ColumnsWidth(rest[..j - 1]);
    assert ColumnsWidth(cols[..j]) == c.size + o;
    assert rest[j - 1] == cols[j];
    ColumnBounds(rest, j - 1);
    var q := body[c.size..];
    assert Segment(cols, body, j) == body[c.size + o..c.size + o + cols[j].size];
    assert Segment(rest, q, j - 1) == q[o..o + cols[j].size];
  }

  /** The field names of columns k and later. */
  function NamesFrom(cols: seq<Col>, k: nat): set<string>
  {
    set j | k <= j < |cols| :: cols[j].name
  }

  /** No two columns share a field name. */
  predicate DistinctNames(cols: seq<Col>)
  {
    forall i, j :: 0 <= i < j < |cols| ==> cols[i].name != cols[j].name
  }

  /** No field name of the columns `a` is also a field name of the columns `b`. */
  predicate NamesApart(a: seq<Col>, b: seq<Col>)
  {
    forall i, j :: 0 <= i < |a| && 0 <= j < |b| ==> a[i].name != b[j].name
  }

  /** Two runs of columns, each with distinct names and none in common, have distinct names together. */
  lemma {:induction false} DistinctJoin(a: seq<Col>, b: seq<Col>)
    requires DistinctNames(a) && DistinctNames(b) && NamesApart(a, b)
    ensures DistinctNames(a + b)
  {
    var c := a + b;
    forall i, j | 0 <= i < j < |c| ensures c[i].name != c[j].name {
      if j < |a| {
        assert c[i] == a[i] && c[j] == a[j];
      } else if i < |a| {
        assert c[i] == a[i] && c[j] == b[j - |a|];
      } else {
        assert c[i] == b[i - |a|] && c[j] == b[j - |a|];
      }
    }
  }

  /** A run of columns whose names are apart from those of `a` and of `b` is apart from `a + b`. */
  lemma {:induction false} ApartJoin(a: seq<Col>, b: seq<Col>, c: seq<Col>)
    requires NamesApart(a, c) && NamesApart(b, c)
    ensures NamesApart(a + b, c)
  {
    forall i, j | 0 <= i < |a + b| && 0 <= j < |c| ensures (a + b)[i].name != c[j].name {
      if i < |a| {
        assert (a + b)[i] == a[i];
      } else {
        assert (a + b)[i] == b[i - |a|];
      }
    }
  }

  /** A successful result prefixed by `p`; a failure passes through. */
  function Then(p: string, r: Result<string>): Result<string>
  {
    match r
    case Ok(s) => Ok(p + s)
    case Err(e) => Err(e)
  }

  /**
   * The column slices of a record in column order; a missing field or a
   * codec failure stops at the first column that has one.
   */
  function RenderCols(cols: seq<Col>, data: Record, grup: string -> string): Result<string>
  {
    if cols == [] then Ok([])
    else if cols[0].name !in data then Err(MissingKey)
    else
      match Render(cols[0].typ, data[cols[0].name], cols[0].size, grup)
      case Err(e) => Err(e)
      case Ok(s) => Then(s, RenderCols(cols[1..], data, grup))
  }

  lemma {:induction false} ThenThen(a: string, b: string, r: Result<string>)
    ensures Then(a, Then(b, r)) == Then(a + b, r)
  {
    if r.Ok? {
      assert a + (b + r.value) == (a + b) + r.value;
    }
  }

  /** Rendering from column k on: column k's field, then the columns after it. */
  lemma {:induction false} RenderColsStep(cols: seq<Col>, k: nat, data: Record, grup: string -> string)
    requires k < |cols|
    ensures cols[k].name !in data ==> RenderCols(cols[k..], data, grup) == Err(MissingKey)
    ensures cols[k].name in data ==>
      var piece := Render(cols[k].typ, data[cols[k].name], cols[k].size, grup);
      RenderCols(cols[k..], data, grup) ==
        if piece.Err? then Err(piece.error) else Then(piece.value, RenderCols(cols[k + 1..], data, grup))
  {
    assert cols[k..][0] == cols[k] && cols[k..][1..] == cols[k + 1..];
  }

  /** A field that no column names plays no part in rendering. */
  lemma {:induction false} RenderColsIgnores(cols: seq<Col>, data: Record, key: string, v: Value, grup: string -> string)
    requires forall j :: 0 <= j < |cols| ==> cols[j].name != key
    ensures RenderCols(cols, data[key := v], grup) == RenderCols(cols, data, grup)
  {
    if cols != [] {
      RenderColsIgnores(cols[1..], data, key, v, grup);
    }
  }

  /** LineType.render: the prefix followed by every column's slice. */
  function RenderLine(l: LineLayout, data: Record, grup: string -> string): Result<string>
  {
    Then(l.prefix, RenderCols(l.columns, data, grup))
  }

  /** Reads columns k and later of the column area into `acc`, one field per column. */
  function ReadFrom(cols: seq<Col>, body: string, k: nat, acc: Record): Result<Record>
    requires k <= |cols| && |body| == ColumnsWidth(cols)
    decreases |cols| - k
  {
    if k == |cols| then Ok(acc)
    else
      match Reverse(cols[k].typ, Segment(cols, body, k))
      case Err(e) => Err(e)
      case Ok(v) => ReadFrom(cols, body, k + 1, acc[cols[k].name := v])
  }

  /** Reading from column k on: column k's slice, then the columns after it. */
  lemma {:induction false} ReadFromStep(cols: seq<Col>, body: string, k: nat, acc: Record, seg: string)
    requires k < |cols| && |body| == ColumnsWidth(cols)
    requires seg == Segment(cols, body, k)
    ensures var v := Reverse(cols[k].typ, seg);
      (v.Err? ==> ReadFrom(cols, body, k, acc) == Err(v.error))
      && (v.Ok? ==> ReadFrom(cols, body, k, acc) == ReadFrom(cols, body, k + 1, acc[cols[k].name := v.value]))
  {
  }

  /**
   * LineType.read: the line must start with the prefix and have exactly the
   * line size; each column's slice is then read by its codec.
   */
  function ReadLine(l: LineLayout, t: string): Result<Record>
  {
    if !StartsWith(t, l.prefix) then Err(PrefixMismatch)
    else if |t| != Width(l) then Err(LengthMismatch)
    else ReadFrom(l.columns, t[|l.prefix|..], 0, map[])
  }

  /** The column-name index: for each name, the last column added under it. */
  function ByName(cols: seq<Col>): map<string, Col>
  {
    if cols == [] then map[] else ByName(cols[..|cols| - 1])[cols[|cols| - 1].name := cols[|cols| - 1]]
  }

  /** A mutable line type: name and prefix are fixed, columns are appended one at a time. */
  class LineType {
    const name: string
    const prefix: string
    var columns: seq<Col>
    var colbyname: map<string, Col>

    /** colbyname indexes the columns by name, the later column winning. */
    ghost predicate Valid()
      reads this
    {
      colbyname == ByName(columns)
    }

    constructor(name: string, prefix: string)
      ensures this.name == name && this.prefix == prefix
      ensures columns == [] && colbyname == map[]
      ensures Valid()
    {
      this.name := name;
      this.prefix := prefix;
      columns := [];
      colbyname := map[];
    }

    function Layout(): LineLayout
      reads this
    {
      LineLayout(name, prefix, columns)
    }

    /** LineType.size. */
    function Size(): nat
      reads this
    {
      Width(Layout())
    }

    /** LineType.add_col: appends the column and indexes it by name. */
    method AddCol(column: Col)
      requires Valid()
      modifies this
      ensures columns == old(columns) + [column]
      ensures colbyname == old(colbyname)[column.name := column]
      ensures Valid()
    {
      columns := columns + [column];
      colbyname := colbyname[column.name := column];
      assert columns[..|columns| - 1] == old(columns);
    }

    /** LineType.render, as a loop over the columns. */
    method Render(data: Record, grup: string -> string) returns (r: Result<string>)
      ensures r == RenderLine(Layout(), data, grup)
    {
      var stx := prefix;
      var k := 0;
      while k < |columns|
        invariant 0 <= k <= |columns|
        invariant RenderLine(Layout(), data, grup) == Then(stx, RenderCols(columns[k..], data, grup))
      {
        var column := columns[k];
        RenderColsStep(columns, k, data, grup);
        if column.name !in data {
          return Err(MissingKey);
        }
        var piece := Columns.Render(column.typ, data[column.name], column.size, grup);
        if piece.Err? {
          return Err(piece.error);
        }
        ThenThen(stx, piece.value, RenderCols(columns[k + 1..], data, grup));
        stx := stx + piece.value;
        k := k + 1;
      }
      assert columns[k..] == [] && stx + [] == stx;
      return Ok(stx);
    }

    /** LineType.read, with the running start and end offsets of the source. */
    method Read(textline: string) returns (r: Result<Record>)
      ensures r == ReadLine(Layout(), textline)
    {
      if !StartsWith(textline, prefix) {
        return Err(PrefixMismatch);
      }
      if |textline| != Size() {
        return Err(LengthMismatch);
      }
      r := ReadColumns(textline);
    }

    /** The column loop of LineType.read: each slice, between the running offsets, read by its codec. */
    method ReadColumns(textline: string) returns (r: Result<Record>)
      requires |prefix| <= |textline| && |textline| - |prefix| == ColumnsWidth(columns)
      ensures r == ReadFrom(columns, textline[|prefix|..], 0, map[])
    {
      ghost var body := textline[|prefix|..];
      ghost var spec := ReadFrom(columns, body, 0, map[]);
      var arr: Record := map[];
      var apo := |prefix|;
      var eos := |prefix|;
      for k := 0 to |columns|
        invariant apo == |prefix| + ColumnsWidth(columns[..k])
        invariant spec == ReadFrom(columns, body, k, arr)
      {
        var column := columns[k];
        SegmentAt(columns, textline, |prefix|, k, apo);
        eos := apo + column.size;
        ReadFromStep(columns, body, k, arr, textline[apo..eos]);
        var v := Reverse(column.typ, textline[apo..eos]);
        if v.Err? {
          return Err(v.error);
        }
        arr := arr[column.name := v.value];
        apo := eos;
      }
      return Ok(arr);
    }
  }

  // ---- properties ------------------------------------------------------------

  /** The index holds exactly the column names. */
  lemma {:induction false} ByNameKeys(cols: seq<Col>)
    ensures ByName(cols).Keys == NamesFrom(cols, 0)
  {
    if cols != [] {
      var init := cols[..|cols| - 1];
      ByNameKeys(init);
      var last := cols[|cols| - 1];
      forall n | n in NamesFrom(cols, 0) ensures n in NamesFrom(init, 0) + {last.name} {
        var j :| 0 <= j < |cols| && cols[j].name == n;
        if j < |cols| - 1 {
          assert init[j] == cols[j];
        }
      }
      forall n | n in NamesFrom(init, 0) ensures n in NamesFrom(cols, 0) {
        var j :| 0 <= j < |init| && init[j].name == n;
        assert cols[j] == init[j];
      }
    }
  }

  /** A name's entry in the index is the last column added under that name. */
  lemma {:induction false} ByNameLast(cols: seq<Col>, j: nat)
    requires j < |cols| && cols[j].name !in NamesFrom(cols, j + 1)
    ensures cols[j].name in ByName(cols) && ByName(cols)[cols[j].name] == cols[j]
  {
    var init := cols[..|cols| - 1];
    if j < |cols| - 1 {
      var after := j + 1;
      var last := cols[|cols| - 1];
      assert last.name in NamesFrom(cols, after);
      assert init[j] == cols[j];
      forall n | n in NamesFrom(init, after) ensures n in NamesFrom(cols, after) {
        var i :| after <= i < |init| && init[i].name == n;
        assert cols[i] == init[i];
      }
      ByNameLast(init, j);
    }
  }

  /** A successful render starts with the prefix. */
  lemma {:induction false} RenderLinePrefix(l: LineLayout, data: Record, grup: string -> string)
    requires RenderLine(l, data, grup).Ok?
    ensures StartsWith(RenderLine(l, data, grup).value, l.prefix)
  {
    var s := RenderCols(l.columns, data, grup).value;
    assert (l.prefix + s)[..|l.prefix|] == l.prefix;
  }

  /**
   * Rendering fails with MissingKey when the first column that cannot be
   * rendered is one whose field is absent: columns k to j - 1 have their
   * fields and render, and column j's field is missing.
   */
  lemma {:induction false} RenderColsMissing(cols: seq<Col>, k: nat, j: nat, data: Record, grup: string -> string)
    requires k <= j < |cols| && cols[j].name !in data
    requires forall i :: k <= i < j ==>
      cols[i].name in data && Render(cols[i].typ, data[cols[i].name], cols[i].size, grup).Ok?
    ensures RenderCols(cols[k..], data, grup) == Err(MissingKey)
    decreases j - k
  {
    RenderColsStep(cols, k, data, grup);
    if k < j {
      RenderColsMissing(cols, k + 1, j, data, grup);
    }
  }

  /** A record holding a field for every column never fails with MissingKey. */
  lemma {:induction false} RenderColsPresent(cols: seq<Col>, data: Record, grup: string -> string)
    requires forall j :: 0 <= j < |cols| ==> cols[j].name in data
    ensures RenderCols(cols, data, grup) != Err(MissingKey)
  {
    if cols != [] {
      RenderCodecs(cols[0].typ, data[cols[0].name], cols[0].size, grup);
      RenderColsPresent(cols[1..], data, grup);
    }
  }

  /** A field of a canonical value for every column. */
  predicate CanonicalRecord(cols: seq<Col>, data: Record, grup: string -> string)
  {
    forall j :: 0 <= j < |cols| ==>
      cols[j].name in data && CanonicalValue(cols[j].typ, data[cols[j].name], cols[j].size, grup)
  }

  /**
   * A record with a canonical value for every column renders into exactly
   * the columns' total width, each column's value sitting in its own slice.
   */
  lemma {:induction false} RenderColsSegments(cols: seq<Col>, data: Record, grup: string -> string)
    requires CanonicalRecord(cols, data, grup)
    ensures RenderCols(cols, data, grup).Ok?
    ensures |RenderCols(cols, data, grup).value| == ColumnsWidth(cols)
    ensures forall j :: 0 <= j < |cols| ==>
      Render(cols[j].typ, data[cols[j].name], cols[j].size, grup) == Ok(Segment(cols, RenderCols(cols, data, grup).value, j))
  {
    if cols != [] {
      var c := cols[0];
      var rest := cols[1..];
      assert CanonicalRecord(rest, data, grup) by {
        forall j | 0 <= j < |rest| ensures rest[j].name in data && CanonicalValue(rest[j].typ, data[rest[j].name], rest[j].size, grup) {
          assert rest[j] == cols[j + 1];
        }
      }
      RenderColsSegments(rest, data, grup);
      ReverseRender(c.typ, data[c.name], c.size, grup);
      var p := Render(c.typ, data[c.name], c.size, grup).value;
      var q := RenderCols(rest, data, grup).value;
      var s := p + q;
      assert RenderCols(cols, data, grup) == Ok(s);
      forall j | 0 <= j < |cols|
        ensures Render(cols[j].typ, data[cols[j].name], cols[j].size, grup) == Ok(Segment(cols, s, j))
      {
        if j == 0 {
          assert cols[..0] == [];
        } else {
          SegmentTail(cols, s, j);
          assert rest[j - 1] == cols[j];
        }
      }
    }
  }

  /** Reading a column area never fails where every slice reads, and then yields each column's value. */
  lemma {:induction false} ReadFromFields(cols: seq<Col>, body: string, k: nat, acc: Record)
    requires k <= |cols| && |body| == ColumnsWidth(cols) && DistinctNames(cols)
    requires forall j :: k <= j < |cols| ==> Reverse(cols[j].typ, Segment(cols, body, j)).Ok?
    ensures ReadFrom(cols, body, k, acc).Ok?
    ensures ReadFrom(cols, body, k, acc).value.Keys == acc.Keys + NamesFrom(cols, k)
    ensures forall n :: n in acc && n !in NamesFrom(cols, k) ==> ReadFrom(cols, body, k, acc).value[n] == acc[n]
    ensures forall j :: k <= j < |cols| ==>
      ReadFrom(cols, body, k, acc).value[cols[j].name] == Reverse(cols[j].typ, Segment(cols, body, j)).value
    decreases |cols| - k
  {
    if k < |cols| {
      var v := Reverse(cols[k].typ, Segment(cols, body, k)).value;
      var acc' := acc[cols[k].name := v];
      ReadFromFields(cols, body, k + 1, acc');
      assert NamesFrom(cols, k) == {cols[k].name} + NamesFrom(cols, k + 1);
      assert cols[k].name !in NamesFrom(cols, k + 1);
    } else {
      assert NamesFrom(cols, k) == {};
    }
  }

  /** Reading stops with the error of the first slice that does not read. */
  lemma {:induction false} ReadFromFails(cols: seq<Col>, body: string, k: nat, acc: Record, j: nat)
    requires k <= j < |cols| && |body| == ColumnsWidth(cols)
    requires Reverse(cols[j].typ, Segment(cols, body, j)).Err?
    requires forall i :: k <= i < j ==> Reverse(cols[i].typ, Segment(cols, body, i)).Ok?
    ensures ReadFrom(cols, body, k, acc) == Err(Reverse(cols[j].typ, Segment(cols, body, j)).error)
    decreases j - k
  {
    if k < j {
      var v := Reverse(cols[k].typ, Segment(cols, body, k)).value;
      ReadFromFails(cols, body, k + 1, acc[cols[k].name := v], j);
    }
  }

  /**
   * A line reads successfully exactly when it starts with the prefix, has
   * the line size and every column slice reads under its codec.
   */
  lemma {:induction false} ReadLineOk(l: LineLayout, t: string)
    ensures ReadLine(l, t).Ok? <==>
      StartsWith(t, l.prefix) && |t| == Width(l)
      && forall j :: 0 <= j < |l.columns| ==> Reverse(l.columns[j].typ, Segment(l.columns, t[|l.prefix|..], j)).Ok?
  {
    if StartsWith(t, l.prefix) && |t| == Width(l) {
      var cols, body := l.columns, t[|l.prefix|..];
      if forall j :: 0 <= j < |cols| ==> Reverse(cols[j].typ, Segment(cols, body, j)).Ok? {
        ReadFromOk(cols, body, 0, map[]);
      } else {
        var j :| 0 <= j < |cols| && Reverse(cols[j].typ, Segment(cols, body, j)).Err?;
        ReadFromSomeFails(cols, body, 0, map[], j);
      }
    }
  }

  /** Reading succeeds when every slice reads (with or without distinct names). */
  lemma {:induction false} ReadFromOk(cols: seq<Col>, body: string, k: nat, acc: Record)
    requires k <= |cols| && |body| == ColumnsWidth(cols)
    requires forall j :: k <= j < |cols| ==> Reverse(cols[j].typ, Segment(cols, body, j)).Ok?
    ensures ReadFrom(cols, body, k, acc).Ok?
    decreases |cols| - k
  {
    if k < |cols| {
      var v := Reverse(cols[k].typ, Segment(cols, body, k)).value;
      ReadFromOk(cols, body, k + 1, acc[cols[k].name := v]);
    }
  }

  /** Any slice from column k on that does not read makes reading from k fail. */
  lemma {:induction false} ReadFromSomeFails(cols: seq<Col>, body: string, k: nat, acc: Record, j: nat)
    requires k <= j < |cols| && |body| == ColumnsWidth(cols)
    requires Reverse(cols[j].typ, Segment(cols, body, j)).Err?
    ensures ReadFrom(cols, body, k, acc).Err?
    decreases j - k
  {
    var v := Reverse(cols[k].typ, Segment(cols, body, k));
    if v.Ok? {
      ReadFromSomeFails(cols, body, k + 1, acc[cols[k].name := v.value], j);
    }
  }

  /**
   * Reading a rendered line gives back, for every column, the field it was
   * rendered from: read(render(data)) agrees with data on the column names.
   */
  lemma {:induction false} ReadRenderLine(l: LineLayout, data: Record, grup: string -> string)
    requires DistinctNames(l.columns) && CanonicalRecord(l.columns, data, grup)
    ensures RenderLine(l, data, grup).Ok?
    ensures |RenderLine(l, data, grup).value| == Width(l)
    ensures ReadLine(l, RenderLine(l, data, grup).value).Ok?
    ensures ReadLine(l, RenderLine(l, data, grup).value).value.Keys == NamesFrom(l.columns, 0)
    ensures forall j :: 0 <= j < |l.columns| ==>
      ReadLine(l, RenderLine(l, data, grup).value).value[l.columns[j].name] == data[l.columns[j].name]
  {
    var cols := l.columns;
    RenderColsSegments(cols, data, grup);
    var body := RenderCols(cols, data, grup).value;
    var t := l.prefix + body;
    assert RenderLine(l, data, grup) == Ok(t);
    assert t[..|l.prefix|] == l.prefix && t[|l.prefix|..] == body;
    forall j | 0 <= j < |cols| ensures Reverse(cols[j].typ, Segment(cols, body, j)) == Ok(data[cols[j].name]) {
      ReverseRender(cols[j].typ, data[cols[j].name], cols[j].size, grup);
    }
    ReadFromFields(cols, body, 0, map[]);
  }

  /** Every column slice of a line is one its codec would have written. */
  predicate CanonicalLine(l: LineLayout, t: string, grup: string -> string)
  {
    StartsWith(t, l.prefix) && |t| == Width(l)
    && forall j :: 0 <= j < |l.columns| ==>
      CanonicalSlice(l.columns[j].typ, Segment(l.columns, t[|l.prefix|..], j), grup)
  }

  /** The slices of a column area, each rendered from its own field, make up the area. */
  lemma {:induction false} RenderColsFromSegments(cols: seq<Col>, data: Record, body: string, grup: string -> string)
    requires |body| == ColumnsWidth(cols)
    requires forall j :: 0 <= j < |cols| ==>
      cols[j].name in data && Render(cols[j].typ, data[cols[j].name], cols[j].size, grup) == Ok(Segment(cols, body, j))
    ensures RenderCols(cols, data, grup) == Ok(body)
  {
    if cols != [] {
      var c, rest := cols[0], cols[1..];
      assert cols == [c] + rest;
      WidthSplit([c], rest);
      var q := body[c.size..];
      assert cols[..0] == [];
      assert Segment(cols, body, 0) == body[..c.size];
      forall j | 0 <= j < |rest|
        ensures rest[j].name in data && Render(rest[j].typ, data[rest[j].name], rest[j].size, grup) == Ok(Segment(rest, q, j))
      {
        assert rest[j] == cols[j + 1];
        SegmentTail(cols, body, j + 1);
      }
      RenderColsFromSegments(rest, data, q, grup);
      assert body == body[..c.size] + q;
    }
  }

  /** Every slice of a canonical column area reads, and each field renders back to its slice. */
  lemma {:induction false} ReadCanonicalArea(cols: seq<Col>, body: string, grup: string -> string)
    requires DistinctNames(cols) && |body| == ColumnsWidth(cols)
    requires forall j :: 0 <= j < |cols| ==> CanonicalSlice(cols[j].typ, Segment(cols, body, j), grup)
    ensures ReadFrom(cols, body, 0, map[]).Ok?
    ensures forall j :: 0 <= j < |cols| ==>
      var m := ReadFrom(cols, body, 0, map[]).value;
      cols[j].name in m && Render(cols[j].typ, m[cols[j].name], cols[j].size, grup) == Ok(Segment(cols, body, j))
  {
    forall j | 0 <= j < |cols| ensures Reverse(cols[j].typ, Segment(cols, body, j)).Ok? {
      RenderReverse(cols[j].typ, Segment(cols, body, j), grup);
    }
    ReadFromFields(cols, body, 0, map[]);
    var m := ReadFrom(cols, body, 0, map[]).value;
    forall j | 0 <= j < |cols|
      ensures cols[j].name in m && Render(cols[j].typ, m[cols[j].name], cols[j].size, grup) == Ok(Segment(cols, body, j))
    {
      assert cols[j].name in NamesFrom(cols, 0);
      RenderReverse(cols[j].typ, Segment(cols, body, j), grup);
    }
  }

  /** A canonical column area reads, and what it reads renders back to the area. */
  lemma {:induction false} RenderCanonicalArea(cols: seq<Col>, body: string, grup: string -> string)
    requires DistinctNames(cols) && |body| == ColumnsWidth(cols)
    requires forall j :: 0 <= j < |cols| ==> CanonicalSlice(cols[j].typ, Segment(cols, body, j), grup)
    ensures ReadFrom(cols, body, 0, map[]).Ok?
    ensures RenderCols(cols, ReadFrom(cols, body, 0, map[]).value, grup) == Ok(body)
  {
    ReadCanonicalArea(cols, body, grup);
    RenderColsFromSegments(cols, ReadFrom(cols, body, 0, map[]).value, body, grup);
  }

  /**
   * Rendering what was read from a canonical line gives the line back:
   * render(read(t)) == t.
   */
  lemma {:induction false} RenderReadLine(l: LineLayout, t: string, grup: string -> string)
    requires DistinctNames(l.columns) && CanonicalLine(l, t, grup)
    ensures ReadLine(l, t).Ok?
    ensures RenderLine(l, ReadLine(l, t).value, grup) == Ok(t)
  {
    var body := t[|l.prefix|..];
    RenderCanonicalArea(l.columns, body, grup);
    ReadLineArea(l, t);
    RenderLineArea(l, ReadLine(l, t).value, body, grup);
    assert t == l.prefix + body;
  }

  /** A record whose columns render to a column area renders to the prefix followed by that area. */
  lemma {:induction false} RenderLineArea(l: LineLayout, data: Record, body: string, grup: string -> string)
    requires RenderCols(l.columns, data, grup) == Ok(body)
    ensures RenderLine(l, data, grup) == Ok(l.prefix + body)
  {
  }

  /** A line with the prefix and the size is read from its column area. */
  lemma {:induction false} ReadLineArea(l: LineLayout, t: string)
    requires StartsWith(t, l.prefix) && |t| == Width(l)
    ensures ReadLine(l, t) == ReadFrom(l.columns, t[|l.prefix|..], 0, map[])
  {
  }
}
