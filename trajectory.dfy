/** Model of the trajectory driver's data handling: the line-indexed XYZ
    frame reader, element detection over the frames, and the per-frame step
    that appends one cell to every time-series column.

    Lines come pre-tokenised: each carries its stripped text and its
    whitespace-separated fields. Turning text into numbers is left to the
    parameters `parseInt` and `parseFloat`, which return `None` where the
    conversion would raise. */
module Trajectory {
  import opened Seqs
  import opened MathUtils
  import opened Wrappers

  datatype Line = Line(stripped: string, tokens: seq<string>)

  datatype Frame = Frame(elements: seq<string>, positions: seq<Vec3>)

  // ---------------------------------------------------------------------------
  // XYZ reading

  /** An atom line: the element symbol and three coordinates when it has at
      least four fields; `None` inside when it is too short and dropped; an
      outer `None` when a coordinate does not parse. */
  function AtomLine(line: Line, parseFloat: string -> Option<real>): Option<Option<(string, Vec3)>>
  {
    var parts := line.tokens;
    if |parts| < 4 then Some(None)
    else
      var x, y, z := parseFloat(parts[1]), parseFloat(parts[2]), parseFloat(parts[3]);
      if x.Some? && y.Some? && z.Some? then Some(Some((parts[0], Vec3(x.value, y.value, z.value))))
      else None
  }

  /** The frame read from a block of atom lines, or `None` if a coordinate fails to parse. */
  function ParseAtoms(block: seq<Line>, parseFloat: string -> Option<real>): (r: Option<Frame>)
    ensures r.Some? ==> |r.value.elements| == |r.value.positions| <= |block|
  {
    if block == [] then Some(Frame([], []))
    else
      var previous := ParseAtoms(block[..|block| - 1], parseFloat);
      var current := AtomLine(block[|block| - 1], parseFloat);
      if previous.None? || current.None? then None
      else if current.value.None? then previous
      else
        var (e, p) := current.value.value;
        Some(Frame(previous.value.elements + [e], previous.value.positions + [p]))
  }

  /** A line with fewer than four fields adds nothing to its frame. */
  lemma ShortLineDropped(block: seq<Line>, line: Line, parseFloat: string -> Option<real>)
    requires |line.tokens| < 4
    ensures ParseAtoms(block + [line], parseFloat) == ParseAtoms(block, parseFloat)
  {
    assert (block + [line])[..|block|] == block;
  }

  /** The block of `n` atom lines after a header at `i` and its comment line. */
  function AtomBlock(lines: seq<Line>, i: nat, n: int): seq<Line>
    requires i + n + 1 < |lines|
  {
    if n <= 0 then [] else lines[i + 2..i + 2 + n]
  }

  /** What the reader does at line `i`: skip a line that is not an integer;
      stop at a header whose frame would run past the last line; otherwise
      read the atom block after the header and the comment and continue
      `n + 2` lines after the header. */
  datatype Step = Skip(next: int) | Stop | Read(block: seq<Line>, next: int)

  function ReaderStep(lines: seq<Line>, i: nat, parseInt: string -> Option<int>): (r: Step)
    requires i < |lines|
    ensures r.Skip? <==> parseInt(lines[i].stripped).None?
    ensures r.Skip? ==> r.next == i + 1
    ensures r.Read? ==> r.next <= |lines|
  {
    var header := parseInt(lines[i].stripped);
    if header.None? then Skip(i + 1)
    else
      var n := header.value;
      if i + n + 1 >= |lines| then Stop
      else Read(AtomBlock(lines, i, n), i + 2 + n)
  }

  /** The reader's walk from line `i` never comes back: every frame it reads
      moves the index forward. Only the headers the walk visits matter; an
      integer line it skips over as a comment or an atom line may hold anything. */
  predicate Advances(lines: seq<Line>, i: nat, parseInt: string -> Option<int>)
    decreases |lines| - i
  {
    if i >= |lines| then true
    else
      match ReaderStep(lines, i, parseInt)
      case Skip(next) => Advances(lines, next, parseInt)
      case Stop => true
      case Read(_, next) => i < next && Advances(lines, next, parseInt)
  }

  /** The frames read from line `i` on. */
  function ParseFrom(lines: seq<Line>, i: nat, parseInt: string -> Option<int>,
                     parseFloat: string -> Option<real>): (r: Option<seq<Frame>>)
    requires Advances(lines, i, parseInt)
    ensures r.Some? ==> forall f :: f in r.value ==> |f.elements| == |f.positions|
    decreases |lines| - i
  {
    if i >= |lines| then Some([])
    else
      match ReaderStep(lines, i, parseInt)
      case Skip(next) => ParseFrom(lines, next, parseInt, parseFloat)
      case Stop => Some([])
      case Read(block, next) =>
        var frame := ParseAtoms(block, parseFloat);
        var rest := ParseFrom(lines, next, parseInt, parseFloat);
        if frame.None? || rest.None? then None
        else Some([frame.value] + rest.value)
  }

  /** A header of -2 reads an empty frame and sends the reader back to the
      same header, so the reader would loop there forever: no walk through
      such a header advances. */
  lemma MinusTwoStandsStill(lines: seq<Line>, i: nat, parseInt: string -> Option<int>)
    requires i < |lines| && parseInt(lines[i].stripped) == Some(-2)
    ensures ReaderStep(lines, i, parseInt) == Read([], i)
    ensures !Advances(lines, i, parseInt)
  {
  }

  /** Every line that parses as an integer parses to at least -1. */
  predicate HeadersAdvance(lines: seq<Line>, parseInt: string -> Option<int>)
  {
    forall i :: 0 <= i < |lines| && parseInt(lines[i].stripped).Some? ==> parseInt(lines[i].stripped).value >= -1
  }

  /** When no integer line anywhere is below -1, every walk advances. */
  lemma {:induction false} HeadersAdvanceSuffices(lines: seq<Line>, i: nat, parseInt: string -> Option<int>)
    requires HeadersAdvance(lines, parseInt)
    ensures Advances(lines, i, parseInt)
    decreases |lines| - i
  {
    if i < |lines| {
      match ReaderStep(lines, i, parseInt)
      case Skip(next) => HeadersAdvanceSuffices(lines, next, parseInt);
      case Stop =>
      case Read(_, next) => HeadersAdvanceSuffices(lines, next, parseInt);
    }
  }

  /** A file whose comment line is "-3" is still read: the walk never visits the comment. */
  lemma CommentMayBeAnyInteger(parseInt: string -> Option<int>, parseFloat: string -> Option<real>)
    requires parseInt("1") == Some(1) && parseInt("-3") == Some(-3) && parseInt("Pt 0 0 0").None?
    requires parseFloat("0") == Some(0.0)
    ensures var lines := [Line("1", ["1"]), Line("-3", ["-3"]), Line("Pt 0 0 0", ["Pt", "0", "0", "0"])];
            && !HeadersAdvance(lines, parseInt)
            && Advances(lines, 0, parseInt)
            && ParseFrom(lines, 0, parseInt, parseFloat) == Some([Frame(["Pt"], [Vec3(0.0, 0.0, 0.0)])])
  {
    var atom := Line("Pt 0 0 0", ["Pt", "0", "0", "0"]);
    var lines := [Line("1", ["1"]), Line("-3", ["-3"]), atom];
    assert lines[1].stripped == "-3";
    assert !HeadersAdvance(lines, parseInt);
    assert lines[2..3] == [atom] && [atom][..0] == [];
    assert AtomLine(atom, parseFloat) == Some(Some(("Pt", Vec3(0.0, 0.0, 0.0))));
    assert ParseAtoms([], parseFloat) == Some(Frame([], []));
    var e: seq<string>, p: seq<Vec3> := [], [];
    assert e + ["Pt"] == ["Pt"] && p + [Vec3(0.0, 0.0, 0.0)] == [Vec3(0.0, 0.0, 0.0)];
    assert ParseAtoms([atom], parseFloat) == Some(Frame(["Pt"], [Vec3(0.0, 0.0, 0.0)]));
    assert ReaderStep(lines, 0, parseInt) == Read([atom], 3);
    assert ParseFrom(lines, 3, parseInt, parseFloat) == Some([]);
    var frame := Frame(["Pt"], [Vec3(0.0, 0.0, 0.0)]);
    assert [frame] + [] == [frame];
    assert ParseFrom(lines, 0, parseInt, parseFloat) == Some([frame] + []);
  }

  /** A line that is not an integer is skipped by moving on exactly one line. */
  lemma NonHeaderSkipped(lines: seq<Line>, i: nat, parseInt: string -> Option<int>, parseFloat: string -> Option<real>)
    requires i < |lines| && parseInt(lines[i].stripped).None?
    requires Advances(lines, i, parseInt)
    ensures Advances(lines, i + 1, parseInt)
    ensures ParseFrom(lines, i, parseInt, parseFloat) == ParseFrom(lines, i + 1, parseInt, parseFloat)
  {
  }

  /** A header whose frame would run past the last line ends reading, with no partial frame. */
  lemma TruncatedFrameDropped(lines: seq<Line>, i: nat, n: int, parseInt: string -> Option<int>, parseFloat: string -> Option<real>)
    requires i < |lines| && parseInt(lines[i].stripped) == Some(n)
    requires i + n + 1 >= |lines|
    requires Advances(lines, i, parseInt)
    ensures ParseFrom(lines, i, parseInt, parseFloat) == Some([])
  {
  }

  /** A complete frame is read from the n lines after the comment, and reading
      resumes n + 2 lines after its header. */
  lemma FrameConsumed(lines: seq<Line>, i: nat, n: int, parseInt: string -> Option<int>, parseFloat: string -> Option<real>)
    requires i < |lines| && parseInt(lines[i].stripped) == Some(n)
    requires i + n + 1 < |lines|
    requires Advances(lines, i, parseInt)
    requires ParseFrom(lines, i, parseInt, parseFloat).Some?
    ensures n >= -1 && Advances(lines, i + 2 + n, parseInt)
    ensures ParseAtoms(AtomBlock(lines, i, n), parseFloat).Some?
    ensures ParseFrom(lines, i + 2 + n, parseInt, parseFloat).Some?
    ensures ParseFrom(lines, i, parseInt, parseFloat).value
              == [ParseAtoms(AtomBlock(lines, i, n), parseFloat).value]
                 + ParseFrom(lines, i + 2 + n, parseInt, parseFloat).value
  {
    assert ReaderStep(lines, i, parseInt) == Read(AtomBlock(lines, i, n), i + 2 + n);
    var frame := ParseAtoms(AtomBlock(lines, i, n), parseFloat);
    var rest := ParseFrom(lines, i + 2 + n, parseInt, parseFloat);
    assert ParseFrom(lines, i, parseInt, parseFloat)
        == if frame.None? || rest.None? then None else Some([frame.value] + rest.value);
  }

  /** A header of 0 or -1 that is followed by enough lines yields an empty frame;
      with -1 reading resumes on the very next line. */
  lemma NonPositiveHeaderEmptyFrame(lines: seq<Line>, i: nat, n: int, parseInt: string -> Option<int>, parseFloat: string -> Option<real>)
    requires i < |lines| && parseInt(lines[i].stripped) == Some(n) && n <= 0
    requires i + n + 1 < |lines|
    requires Advances(lines, i, parseInt)
    requires ParseFrom(lines, i, parseInt, parseFloat).Some?
    ensures n >= -1 && Advances(lines, i + 2 + n, parseInt)
    ensures ParseFrom(lines, i + 2 + n, parseInt, parseFloat).Some?
    ensures ParseFrom(lines, i, parseInt, parseFloat).value
              == [Frame([], [])] + ParseFrom(lines, i + 2 + n, parseInt, parseFloat).value
  {
    FrameConsumed(lines, i, n, parseInt, parseFloat);
    assert AtomBlock(lines, i, n) == [];
  }

  function Prepend(frames: seq<Frame>, rest: Option<seq<Frame>>): Option<seq<Frame>>
  {
    if rest.None? then None else Some(frames + rest.value)
  }

  lemma PrependNothing(rest: Option<seq<Frame>>)
    ensures Prepend([], rest) == rest
  {
    if rest.Some? {
      assert [] + rest.value == rest.value;
    }
  }

  lemma PrependFrame(acc: seq<Frame>, f: Frame, rest: Option<seq<Frame>>)
    ensures Prepend(acc, if rest.None? then None else Some([f] + rest.value)) == Prepend(acc + [f], rest)
  {
    if rest.Some? {
      assert acc + ([f] + rest.value) == (acc + [f]) + rest.value;
    }
  }

  /** A coordinate that fails to parse in the first k lines fails the whole block. */
  lemma {:induction false} ParseFailurePropagates(block: seq<Line>, k: nat, parseFloat: string -> Option<real>)
    requires k <= |block| && ParseAtoms(block[..k], parseFloat).None?
    ensures ParseAtoms(block, parseFloat).None?
    decreases |block| - k
  {
    if k < |block| {
      assert block[..k + 1][..k] == block[..k];
      ParseFailurePropagates(block, k + 1, parseFloat);
    } else {
      assert block[..k] == block;
    }
  }

  /** Reads the atom lines of one frame, keeping the lines with at least four fields. */
  method ReadAtoms(block: seq<Line>, parseFloat: string -> Option<real>) returns (frame: Option<Frame>)
    ensures frame == ParseAtoms(block, parseFloat)
  {
    var elements: seq<string> := [];
    var positions: seq<Vec3> := [];
    for j := 0 to |block|
      invariant ParseAtoms(block[..j], parseFloat) == Some(Frame(elements, positions))
    {
      var parts := block[j].tokens;
      assert block[..j + 1][..j] == block[..j];
      if |parts| >= 4 {
        var x := parseFloat(parts[1]);
        var y := parseFloat(parts[2]);
        var z := parseFloat(parts[3]);
        if x.None? || y.None? || z.None? {
          ParseFailurePropagates(block, j + 1, parseFloat);
          return None;
        }
        elements := elements + [parts[0]];
        positions := positions + [Vec3(x.value, y.value, z.value)];
      }
    }
    assert block[..|block|] == block;
    frame := Some(Frame(elements, positions));
  }

  /** The reader: walks the line index, skipping non-integer lines, stopping at
      a truncated frame, reading the atom block after each header and comment. */
  method ReadXyz(lines: seq<Line>, parseInt: string -> Option<int>, parseFloat: string -> Option<real>)
    returns (frames: Option<seq<Frame>>)
    requires Advances(lines, 0, parseInt)
    ensures frames == ParseFrom(lines, 0, parseInt, parseFloat)
  {
    var acc: seq<Frame> := [];
    var i: nat := 0;
    PrependNothing(ParseFrom(lines, 0, parseInt, parseFloat));
    while i < |lines|
      invariant Advances(lines, i, parseInt)
      invariant ParseFrom(lines, 0, parseInt, parseFloat) == Prepend(acc, ParseFrom(lines, i, parseInt, parseFloat))
      decreases |lines| - i
    {
      match ReaderStep(lines, i, parseInt)
      case Skip(next) =>
        i := next;
      case Stop =>
        break;
      case Read(block, next) =>
        var frame := ReadAtoms(block, parseFloat);
        if frame.None? {
          return None;
        }
        PrependFrame(acc, frame.value, ParseFrom(lines, next, parseInt, parseFloat));
        acc := acc + [frame.value];
        i := next;
    }
    assert ParseFrom(lines, i, parseInt, parseFloat) == Some([]);
    assert acc + [] == acc;
    frames := Some(acc);
  }

  // ---------------------------------------------------------------------------
  // Element detection

  function SymbolSet(elements: seq<string>): (r: set<string>)
    ensures forall e :: e in r <==> e in elements
  {
    set i | 0 <= i < |elements| :: elements[i]
  }

  /** Every element symbol occurring in some frame. */
  function AllElements(frames: seq<Frame>): set<string>
  {
    if frames == [] then {}
    else AllElements(frames[..|frames| - 1]) + SymbolSet(frames[|frames| - 1].elements)
  }

  lemma {:induction false} AllElementsMembership(frames: seq<Frame>, e: string)
    ensures e in AllElements(frames) <==> exists k :: 0 <= k < |frames| && e in frames[k].elements
    decreases |frames|
  {
    if frames != [] {
      var n := |frames| - 1;
      AllElementsMembership(frames[..n], e);
      if e in frames[n].elements {
        assert e in AllElements(frames);
      }
      if exists k :: 0 <= k < |frames| && e in frames[k].elements {
        var k :| 0 <= k < |frames| && e in frames[k].elements;
        if k < n {
          assert frames[..n][k] == frames[k];
        }
      }
    }
  }

  /** The number of occurrences of `e`. */
  function Occurrences(elements: seq<string>, e: string): nat
  {
    Count(elements, x => x == e)
  }

  /** The targets present anywhere in the trajectory, in target order, and the
      count of each in the first frame (no counts when there are no frames). */
  method DetectElements(frames: seq<Frame>, targets: seq<string>)
    returns (detected: seq<string>, counts: map<string, nat>)
    ensures forall e :: e in detected <==> e in targets && exists k :: 0 <= k < |frames| && e in frames[k].elements
    ensures detected == Filter(targets, e => e in AllElements(frames))
    ensures frames == [] ==> counts == map[]
    ensures frames != [] ==> counts.Keys == set e | e in detected
    ensures frames != [] ==> forall e :: e in counts ==> counts[e] == Occurrences(frames[0].elements, e)
  {
    var all: set<string> := {};
    for k := 0 to |frames|
      invariant all == AllElements(frames[..k])
    {
      assert frames[..k + 1][..k] == frames[..k];
      all := all + SymbolSet(frames[k].elements);
    }
    assert frames[..|frames|] == frames;
    detected := Filter(targets, e => e in all);
    forall e
      ensures e in detected <==> e in targets && exists k :: 0 <= k < |frames| && e in frames[k].elements
    {
      AllElementsMembership(frames, e);
    }
    counts := map[];
    if |frames| > 0 {
      var first := frames[0];
      for k := 0 to |detected|
        invariant counts.Keys == set e | e in detected[..k]
        invariant forall e :: e in counts ==> counts[e] == Occurrences(first.elements, e)
      {
        assert detected[..k + 1] == detected[..k] + [detected[k]];
        counts := counts[detected[k] := Occurrences(first.elements, detected[k])];
      }
      assert detected[..|detected|] == detected;
    }
  }

  // ---------------------------------------------------------------------------
  // Time-series columns

  /** One cell of a time-series column: a number, a structure label, or NaN for a missing value. */
  datatype Cell = Num(value: real) | Text(text: string) | Nan

  /** Adds a column name unless it is already there (a dictionary key). */
  function AddName(names: seq<string>, name: string): (r: seq<string>)
    ensures |names| <= |r| && r[..|names|] == names
    ensures name in r && forall n :: n in names ==> n in r
    ensures forall n :: n in r ==> n in names || n == name
  {
    if name in names then names else names + [name]
  }

  function AddAll(names: seq<string>, more: seq<string>): (r: seq<string>)
    ensures |names| <= |r| && r[..|names|] == names
    ensures forall n :: n in names ==> n in r
    ensures forall n :: n in more ==> n in r
    ensures forall n :: n in r ==> n in names || n in more
    decreases |more|
  {
    if more == [] then names else AddAll(AddName(names, more[0]), more[1..])
  }

  /** The columns of one target element: five always, one more for Pt and Sn,
      four more with GCN enabled, every one of them named after the element. */
  function ElementColumns(elem: string, gcnEnable: bool): (r: seq<string>)
    ensures |r| == 5 + (if elem == "Pt" || elem == "Sn" then 1 else 0) + (if gcnEnable then 4 else 0)
    ensures forall c :: c in r ==> |elem| < |c| && c[..|elem|] == elem
  {
    [elem + "_cn_total", elem + "_cn_" + elem + "_" + elem]
    + (if elem == "Pt" then ["Pt_cn_Pt_Sn"] else if elem == "Sn" then ["Sn_cn_Sn_Pt"] else [])
    + (if gcnEnable then [elem + "_gcn_loc", elem + "_w_gcn_loc", elem + "_sn_w_gcn_loc", elem + "_shell_gcn_loc"] else [])
    + [elem + "_q6", elem + "_q4", elem + "_structure"]
  }

  /** The column names in insertion order: frame and time first, then the
      columns `columns` gives each target, a name already present being kept
      where it first appeared. */
  function ColumnsFor(targets: seq<string>, columns: string -> seq<string>): (r: seq<string>)
    ensures |r| >= 2 && r[0] == "frame" && r[1] == "time_ps"
    decreases |targets|
  {
    if targets == [] then ["frame", "time_ps"]
    else AddAll(ColumnsFor(targets[..|targets| - 1], columns), columns(targets[|targets| - 1]))
  }

  /** The time series' column names for the given targets. */
  function ColumnNames(targets: seq<string>, gcnEnable: bool): (r: seq<string>)
    ensures |r| >= 2 && r[0] == "frame" && r[1] == "time_ps"
  {
    ColumnsFor(targets, e => ElementColumns(e, gcnEnable))
  }

  lemma {:induction false} ColumnsForCover(targets: seq<string>, columns: string -> seq<string>, k: nat, c: string)
    requires k < |targets| && c in columns(targets[k])
    ensures c in ColumnsFor(targets, columns)
    decreases |targets|
  {
    var m := |targets| - 1;
    var prefix := targets[..m];
    var names, more := ColumnsFor(prefix, columns), columns(targets[m]);
    assert ColumnsFor(targets, columns) == AddAll(names, more);
    if k < m {
      assert prefix[k] == targets[k];
      ColumnsForCover(prefix, columns, k, c);
      assert c in names;
    } else {
      assert c in more;
    }
  }

  lemma {:induction false} ColumnsForOnly(targets: seq<string>, columns: string -> seq<string>, c: string)
    requires c in ColumnsFor(targets, columns)
    ensures c == "frame" || c == "time_ps" || exists k :: 0 <= k < |targets| && c in columns(targets[k])
    decreases |targets|
  {
    if targets != [] {
      var m := |targets| - 1;
      var prefix := targets[..m];
      if c in ColumnsFor(prefix, columns) {
        ColumnsForOnly(prefix, columns, c);
        if exists k :: 0 <= k < m && c in columns(prefix[k]) {
          var k :| 0 <= k < m && c in columns(prefix[k]);
          assert prefix[k] == targets[k];
        }
      }
    }
  }

  predicate Distinct(names: seq<string>)
  {
    forall i, j :: 0 <= i < j < |names| ==> names[i] != names[j]
  }

  lemma AddNameDistinct(names: seq<string>, name: string)
    requires Distinct(names)
    ensures Distinct(AddName(names, name))
  {
  }

  lemma {:induction false} AddAllDistinct(names: seq<string>, more: seq<string>)
    requires Distinct(names)
    ensures Distinct(AddAll(names, more))
    decreases |more|
  {
    if more != [] {
      AddNameDistinct(names, more[0]);
      AddAllDistinct(AddName(names, more[0]), more[1..]);
    }
  }

  lemma {:induction false} ColumnsForDistinct(targets: seq<string>, columns: string -> seq<string>)
    ensures Distinct(ColumnsFor(targets, columns))
    decreases |targets|
  {
    if targets != [] {
      ColumnsForDistinct(targets[..|targets| - 1], columns);
      AddAllDistinct(ColumnsFor(targets[..|targets| - 1], columns), columns(targets[|targets| - 1]));
    }
  }

  /** Every column of every target element is a column of the time series. */
  lemma ColumnNamesCover(targets: seq<string>, gcnEnable: bool)
    ensures forall k, c :: 0 <= k < |targets| && c in ElementColumns(targets[k], gcnEnable) ==> c in ColumnNames(targets, gcnEnable)
  {
    forall k, c | 0 <= k < |targets| && c in ElementColumns(targets[k], gcnEnable)
      ensures c in ColumnNames(targets, gcnEnable)
    {
      ColumnsForCover(targets, e => ElementColumns(e, gcnEnable), k, c);
    }
  }

  /** The time series has no column besides the frame number, the time and the targets' columns. */
  lemma ColumnNamesOnly(targets: seq<string>, gcnEnable: bool, c: string)
    requires c in ColumnNames(targets, gcnEnable)
    ensures c == "frame" || c == "time_ps" || exists k :: 0 <= k < |targets| && c in ElementColumns(targets[k], gcnEnable)
  {
    ColumnsForOnly(targets, e => ElementColumns(e, gcnEnable), c);
  }

  /** Column names are distinct, as the keys of a dictionary are. */
  lemma ColumnNamesDistinct(targets: seq<string>, gcnEnable: bool)
    ensures Distinct(ColumnNames(targets, gcnEnable))
  {
    ColumnsForDistinct(targets, e => ElementColumns(e, gcnEnable));
  }

  /** The frame number and simulation time that stamp every row. */
  function FrameStamp(frameIdx: nat, sampleInterval: int, dtPs: real): (r: map<string, Cell>)
    ensures r.Keys == {"frame", "time_ps"}
    ensures r["frame"] == Num((frameIdx * sampleInterval) as real)
    ensures r["frame"].Num? && r["time_ps"] == Num(r["frame"].value * dtPs)
  {
    var frame := (frameIdx * sampleInterval) as real;
    assert "frame" != "time_ps" by {
      assert "frame"[0] != "time_ps"[0];
    }
    var r := map["frame" := Num(frame), "time_ps" := Num(frame * dtPs)];
    assert r["frame"] == Num(frame) && r["time_ps"] == Num(frame * dtPs);
    r
  }

  /** The cell a column receives for a frame: its value if the frame has one, NaN otherwise. */
  function CellFor(data: map<string, Cell>, name: string): Cell
  {
    if name in data then data[name] else Nan
  }

  /** The unified time series: one column per name, all as long as the number
      of frames appended so far. */
  class TimeSeries {
    var names: seq<string>
    var columns: map<string, seq<Cell>>
    var rows: nat

    ghost predicate Valid()
      reads this
    {
      && Distinct(names)
      && (forall n :: n in names <==> n in columns)
      && (forall n :: n in columns ==> |columns[n]| == rows)
    }

    constructor (targets: seq<string>, gcnEnable: bool)
      ensures Valid()
      ensures names == ColumnNames(targets, gcnEnable) && rows == 0
    {
      ColumnNamesDistinct(targets, gcnEnable);
      names := ColumnNames(targets, gcnEnable);
      columns := map n | n in ColumnNames(targets, gcnEnable) :: [];
      rows := 0;
    }

    /** Appends one cell to every column: the frame's value, or NaN where it has none.
        The frame number and time are always present in `data`. */
    method AppendFrame(data: map<string, Cell>)
      requires Valid()
      requires "frame" in data && "time_ps" in data
      modifies this
      ensures Valid()
      ensures names == old(names) && rows == old(rows) + 1
      ensures columns.Keys == old(columns.Keys)
      ensures forall n :: n in columns ==> columns[n] == old(columns[n]) + [CellFor(data, n)]
    {
      ghost var before := columns;
      for k := 0 to |names|
        invariant names == old(names) && rows == old(rows)
        invariant Distinct(names)
        invariant columns.Keys == before.Keys
        invariant forall n :: n in columns ==>
          columns[n] == before[n] + (if n in names[..k] then [CellFor(data, n)] else [])
      {
        var key := names[k];
        assert names[..k + 1] == names[..k] + [key];
        assert key !in names[..k];
        if key in data {
          columns := columns[key := columns[key] + [data[key]]];
        } else {
          columns := columns[key := columns[key] + [Nan]];
        }
      }
      assert names[..|names|] == names;
      rows := rows + 1;
    }
  }
}
