/** The virtual document the editor shows to a language server: all code cells, one below the other
    (frontend/packages/notebook/src/integrations/NotebookLspAdapter.ts). */
module LspDocument {
  import opened Common
  import opened NotebookHistory

  // ---------------------------------------------------------------------------------------------
  // Lines.

  /** A character before the first line. */
  function ConsLines(c: char, lines: seq<string>): (r: seq<string>)
    requires lines != []
    ensures r != []
  {
    if c == '\n' then [""] + lines else [[c] + lines[0]] + lines[1..]
  }

  /** `split('\n')`. */
  function Lines(s: string): (r: seq<string>)
    ensures r != []
  {
    if s == "" then [""] else ConsLines(s[0], Lines(s[1..]))
  }

  /** `join('\n')`. */
  function Join(parts: seq<string>): string {
    if parts == [] then "" else if |parts| == 1 then parts[0] else parts[0] + "\n" + Join(parts[1..])
  }

  lemma LinesCons(c: char, s: string)
    ensures Lines([c] + s) == ConsLines(c, Lines(s))
  {
    assert ([c] + s)[1..] == s;
  }

  lemma ConsConcat(c: char, a: seq<string>, b: seq<string>)
    requires a != []
    ensures ConsLines(c, a + b) == ConsLines(c, a) + b
  {
  }

  lemma {:induction false} LinesConcat(a: string, b: string)
    ensures Lines(a + "\n" + b) == Lines(a) + Lines(b)
    decreases |a|
  {
    if a == "" {
      LinesCons('\n', b);
      assert a + "\n" + b == ['\n'] + b;
    } else {
      LinesConcat(a[1..], b);
      LinesConsConcat(a[0], a[1..], b);
      assert a == [a[0]] + a[1..];
    }
  }

  lemma LinesConsConcat(c: char, rest: string, b: string)
    requires Lines(rest + "\n" + b) == Lines(rest) + Lines(b)
    ensures Lines([c] + rest + "\n" + b) == Lines([c] + rest) + Lines(b)
  {
    assert [c] + rest + "\n" + b == [c] + (rest + "\n" + b);
    LinesCons(c, rest);
    LinesCons(c, rest + "\n" + b);
    ConsConcat(c, Lines(rest), Lines(b));
  }

  lemma {:induction false} JoinAppend(parts: seq<string>, p: string)
    requires parts != []
    ensures Join(parts + [p]) == Join(parts) + "\n" + p
    decreases |parts|
  {
    var all := parts + [p];
    assert all[0] == parts[0] && all[1..] == parts[1..] + [p];
    if |parts| == 1 {
      assert all[1..] == [p];
    } else {
      JoinAppend(parts[1..], p);
    }
  }

  predicate NoNewline(s: string) {
    forall i :: 0 <= i < |s| ==> s[i] != '\n'
  }

  lemma {:induction false} OneLine(s: string)
    ensures |Lines(s)| == 1 <==> NoNewline(s)
    ensures NoNewline(s) ==> Lines(s) == [s]
    decreases |s|
  {
    if s != "" {
      OneLine(s[1..]);
      assert s == [s[0]] + s[1..];
      if NoNewline(s[1..]) && s[0] != '\n' {
        assert NoNewline(s);
      }
    }
  }

  // ---------------------------------------------------------------------------------------------
  // The document.

  /** Only code cells that are not circuits are shown. */
  predicate Shown(cell: Cell) {
    cell.cellType == "code" && !cell.circuit
  }

  function ShownUpTo(cells: seq<Cell>, i: nat): seq<Cell>
    requires i <= |cells|
  {
    if i == 0 then []
    else if Shown(cells[i - 1]) then ShownUpTo(cells, i - 1) + [cells[i - 1]]
    else ShownUpTo(cells, i - 1)
  }

  function CodeCells(cells: seq<Cell>): seq<Cell> {
    ShownUpTo(cells, |cells|)
  }

  function Marker(cell: Cell): string {
    "# %% [" + cell.id + "]"
  }

  function Parts(cells: seq<Cell>): seq<string>
    decreases |cells|
  {
    if cells == [] then []
    else Parts(cells[..|cells| - 1]) + [Marker(cells[|cells| - 1])] + [cells[|cells| - 1].source]
  }

  datatype CellRange = CellRange(cellId: string, startLine: nat, endLine: nat)

  /** The lines counted so far: one for the marker and those of the source. */
  function Counted(cells: seq<Cell>): nat
    decreases |cells|
  {
    if cells == [] then 0 else Counted(cells[..|cells| - 1]) + |Lines(cells[|cells| - 1].source)| + 1
  }

  function Ranges(cells: seq<Cell>): (r: seq<CellRange>)
    ensures |r| == |cells|
    decreases |cells|
  {
    if cells == [] then []
    else
      var front, last := cells[..|cells| - 1], cells[|cells| - 1];
      Ranges(front) + [CellRange(last.id, Counted(front) + 1, Counted(front) + |Lines(last.source)|)]
  }

  function Text(cells: seq<Cell>): string {
    Join(Parts(cells))
  }

  // ---------------------------------------------------------------------------------------------
  // The code's own form.

  datatype Position = Position(line: int, character: int)

  datatype Diagnostic = Diagnostic(start: Position, end: Position)

  datatype CellDiagnostic = CellDiagnostic(cellId: string, start: Position, end: Position)

  function FindById(ranges: seq<CellRange>, id: string): (i: nat)
    ensures i <= |ranges| && (i < |ranges| ==> ranges[i].cellId == id)
    ensures forall j :: 0 <= j < i ==> ranges[j].cellId != id
  {
    if ranges == [] || ranges[0].cellId == id then 0 else 1 + FindById(ranges[1..], id)
  }

  predicate Contains(r: CellRange, line: int) {
    r.startLine <= line <= r.endLine
  }

  function FindByLine(ranges: seq<CellRange>, line: int): (i: nat)
    ensures i <= |ranges| && (i < |ranges| ==> Contains(ranges[i], line))
    ensures forall j :: 0 <= j < i ==> !Contains(ranges[j], line)
  {
    if ranges == [] || Contains(ranges[0], line) then 0 else 1 + FindByLine(ranges[1..], line)
  }

  /** None is the error for a cell that is not in the document. */
  function ToVirtualPosition(ranges: seq<CellRange>, id: string, p: Position): Option<Position> {
    var i := FindById(ranges, id);
    if i == |ranges| then None else Some(Position(ranges[i].startLine + p.line, p.character))
  }

  /** None for a diagnostic that starts outside every cell. */
  function FromVirtualDiagnostic(ranges: seq<CellRange>, d: Diagnostic): Option<CellDiagnostic> {
    var i := FindByLine(ranges, d.start.line);
    if i == |ranges| then None
    else
      var r := ranges[i];
      var end := d.end.line - r.startLine;
      Some(CellDiagnostic(r.cellId, Position(d.start.line - r.startLine, d.start.character),
                          Position(if end < 0 then 0 else end, d.end.character)))
  }

  lemma ShownMore(before: seq<Cell>, cell: Cell)
    ensures Parts(before + [cell]) == Parts(before) + [Marker(cell)] + [cell.source]
    ensures Counted(before + [cell]) == Counted(before) + |Lines(cell.source)| + 1
    ensures Ranges(before + [cell]) ==
            Ranges(before) + [CellRange(cell.id, Counted(before) + 1, Counted(before) + |Lines(cell.source)|)]
  {
    assert (before + [cell])[..|before|] == before;
  }

  class NotebookLspAdapter {
    const decimal: nat -> string
    var ranges: seq<CellRange>

    constructor (decimal: nat -> string)
      ensures ranges == [] && this.decimal == decimal
    {
      this.decimal := decimal;
      ranges := [];
    }

    method VirtualDocument(model: Notebook) returns (text: string)
      modifies this
      ensures var shown := CodeCells(ParseNotebook(ToJSON(model), decimal).cells);
              text == Text(shown) && ranges == Ranges(shown)
    {
      text := LayOut(ParseNotebook(ToJSON(model), decimal).cells);
    }

    /** The loop over the cells of the snapshot. */
    method LayOut(cells: seq<Cell>) returns (text: string)
      modifies this
      ensures text == Text(CodeCells(cells)) && ranges == Ranges(CodeCells(cells))
    {
      var parts := [];
      ranges := [];
      var line := 0;
      ghost var shown: seq<Cell> := [];
      var i := 0;
      while i < |cells|
        invariant 0 <= i <= |cells| && shown == ShownUpTo(cells, i)
        invariant parts == Parts(shown) && ranges == Ranges(shown) && line == Counted(shown)
      {
        var cell := cells[i];
        i := i + 1;
        if cell.cellType != "code" || cell.circuit {
          continue;
        }
        ShownMore(shown, cell);
        shown := shown + [cell];
        parts := parts + [Marker(cell)] + [cell.source];
        var length := |Lines(cell.source)|;
        ranges := ranges + [CellRange(cell.id, line + 1, line + length)];
        line := line + length + 1;
      }
      return Join(parts);
    }
  }

  // ---------------------------------------------------------------------------------------------
  // The lines of the document.

  /** The document's lines, cell by cell. */
  function AllLines(cells: seq<Cell>): seq<string>
    decreases |cells|
  {
    if cells == [] then []
    else AllLines(cells[..|cells| - 1]) + Lines(Marker(cells[|cells| - 1])) + Lines(cells[|cells| - 1].source)
  }

  lemma TextMore(front: seq<Cell>, last: Cell)
    requires front != []
    ensures Text(front + [last]) == Text(front) + "\n" + Marker(last) + "\n" + last.source
  {
    ShownMore(front, last);
    JoinAppend(Parts(front), Marker(last));
    JoinAppend(Parts(front) + [Marker(last)], last.source);
  }

  lemma TextOne(last: Cell)
    ensures Text([last]) == Marker(last) + "\n" + last.source
  {
    assert [last][..0] == [];
    assert Join([Marker(last), last.source]) == Marker(last) + "\n" + Join([last.source]);
    assert Parts([last]) == [Marker(last), last.source] && [Marker(last), last.source][1..] == [last.source];
  }

  lemma LinesMore(front: seq<Cell>, last: Cell)
    ensures AllLines(front + [last]) == AllLines(front) + Lines(Marker(last)) + Lines(last.source)
  {
    assert (front + [last])[..|front|] == front;
  }

  lemma LinesOfOne(last: Cell)
    ensures Lines(Text([last])) == AllLines([last])
  {
    TextOne(last);
    LinesConcat(Marker(last), last.source);
    LinesMore([], last);
    assert [] + [last] == [last];
    assert AllLines([last]) == Lines(Marker(last)) + Lines(last.source);
  }

  lemma LinesStep(front: seq<Cell>, last: Cell)
    requires front != [] && Lines(Text(front)) == AllLines(front)
    ensures Lines(Text(front + [last])) == AllLines(front + [last])
  {
    TextMore(front, last);
    LinesConcat(Text(front) + "\n" + Marker(last), last.source);
    LinesConcat(Text(front), Marker(last));
    LinesMore(front, last);
  }

  /** The lines of the joined text are those of its parts, cell by cell. */
  lemma {:induction false} TextLines(cells: seq<Cell>)
    requires cells != []
    ensures Lines(Text(cells)) == AllLines(cells)
    decreases |cells|
  {
    var front, last := cells[..|cells| - 1], cells[|cells| - 1];
    assert cells == front + [last];
    if front == [] {
      assert cells == [last];
      LinesOfOne(last);
    } else {
      TextLines(front);
      LinesStep(front, last);
    }
  }

  predicate PlainIds(cells: seq<Cell>) {
    forall i :: 0 <= i < |cells| ==> NoNewline(cells[i].id)
  }

  lemma MarkerLines(cell: Cell)
    ensures |Lines(Marker(cell))| == 1 <==> NoNewline(cell.id)
    ensures NoNewline(cell.id) ==> Lines(Marker(cell)) == [Marker(cell)]
  {
    var m := Marker(cell);
    OneLine(m);
    assert forall i :: 0 <= i < |cell.id| ==> m[i + 6] == cell.id[i];
    if NoNewline(cell.id) {
      forall i | 0 <= i < |m|
        ensures m[i] != '\n'
      {
        if 6 <= i < |m| - 1 {
          assert m[i] == cell.id[i - 6];
        }
      }
    }
  }

  lemma PlainMore(front: seq<Cell>, last: Cell)
    ensures PlainIds(front + [last]) <==> PlainIds(front) && NoNewline(last.id)
  {
    var all := front + [last];
    assert all[|front|] == last;
    if PlainIds(all) {
      forall i | 0 <= i < |front|
        ensures NoNewline(front[i].id)
      {
        assert all[i] == front[i];
      }
    }
  }

  lemma CountedStep(front: seq<Cell>, last: Cell)
    ensures Counted(front + [last]) == Counted(front) + |Lines(last.source)| + 1
    ensures |AllLines(front + [last])| == |AllLines(front)| + |Lines(Marker(last))| + |Lines(last.source)|
  {
    ShownMore(front, last);
    LinesMore(front, last);
  }

  /** The adapter counts every line of the document exactly when no cell id contains a newline. */
  lemma {:induction false} CountedExactly(cells: seq<Cell>)
    ensures |AllLines(cells)| >= Counted(cells)
    ensures |AllLines(cells)| == Counted(cells) <==> PlainIds(cells)
    decreases |cells|
  {
    if cells != [] {
      var front, last := cells[..|cells| - 1], cells[|cells| - 1];
      CountedExactly(front);
      MarkerLines(last);
      CountedStep(front, last);
      PlainMore(front, last);
      assert cells == front + [last];
    }
  }

  lemma {:induction false} RangesFront(cells: seq<Cell>, k: nat)
    requires k <= |cells|
    ensures Ranges(cells)[..k] == Ranges(cells[..k])
    decreases |cells|
  {
    if k == |cells| {
      assert cells[..k] == cells;
    } else {
      var n := |cells| - 1;
      RangesFront(cells[..n], k);
      assert cells[..n][..k] == cells[..k];
    }
  }

  lemma {:induction false} LinesFront(cells: seq<Cell>, k: nat)
    requires k <= |cells|
    ensures AllLines(cells[..k]) <= AllLines(cells) && Counted(cells[..k]) <= Counted(cells)
    decreases |cells|
  {
    if k == |cells| {
      assert cells[..k] == cells;
    } else {
      var n := |cells| - 1;
      LinesFront(cells[..n], k);
      assert cells[..n][..k] == cells[..k];
    }
  }

  /** The range of cell `i`: after the lines counted for the cells before it, and its own marker. */
  lemma {:induction false} RangeAt(cells: seq<Cell>, i: nat)
    requires i < |cells|
    ensures Ranges(cells)[i] == CellRange(cells[i].id, Counted(cells[..i]) + 1,
                                          Counted(cells[..i]) + |Lines(cells[i].source)|)
    decreases |cells|
  {
    var n := |cells| - 1;
    if i < n {
      RangeAt(cells[..n], i);
      assert cells[..n][..i] == cells[..i];
    }
  }

  lemma CountedAt(cells: seq<Cell>, i: nat)
    requires i < |cells|
    ensures Counted(cells[..i + 1]) == Counted(cells[..i]) + |Lines(cells[i].source)| + 1
  {
    assert cells[..i + 1] == cells[..i] + [cells[i]];
    ShownMore(cells[..i], cells[i]);
  }

  lemma LinesOfLast(front: seq<Cell>, cell: Cell)
    requires PlainIds(front + [cell])
    ensures |AllLines(front)| == Counted(front)
    ensures AllLines(front + [cell]) == AllLines(front) + [Marker(cell)] + Lines(cell.source)
  {
    PlainMore(front, cell);
    CountedExactly(front);
    LinesMore(front, cell);
    MarkerLines(cell);
  }

  lemma PrefixLines(cells: seq<Cell>, i: nat)
    requires i < |cells| && PlainIds(cells)
    ensures |AllLines(cells[..i])| == Counted(cells[..i])
    ensures AllLines(cells[..i]) + [Marker(cells[i])] + Lines(cells[i].source) <= AllLines(cells)
  {
    LinesFront(cells, i + 1);
    assert cells[..i + 1] == cells[..i] + [cells[i]];
    LinesOfLast(cells[..i], cells[i]);
  }

  /** Line `startLine + k` of the document is line `k` of the cell's source, and the line before the range
      is the cell's marker. */
  lemma LinesOfCell(cells: seq<Cell>, i: nat, k: nat)
    requires i < |cells| && PlainIds(cells) && k < |Lines(cells[i].source)|
    ensures var r := Ranges(cells)[i];
            var lines := Lines(Text(cells));
            && 1 <= r.startLine <= r.endLine < |lines| && r.endLine - r.startLine + 1 == |Lines(cells[i].source)|
            && lines[r.startLine + k] == Lines(cells[i].source)[k]
            && lines[r.startLine - 1] == Marker(cells[i])
  {
    TextLines(cells);
    RangeAt(cells, i);
    PrefixLines(cells, i);
    ReadPart(AllLines(cells[..i]), Marker(cells[i]), Lines(cells[i].source), AllLines(cells), k);
  }

  lemma ReadPart(before: seq<string>, marker: string, source: seq<string>, all: seq<string>, k: nat)
    requires before + [marker] + source <= all && k < |source|
    ensures |before| + |source| < |all| && all[|before|] == marker && all[|before| + 1 + k] == source[k]
  {
    var part := before + [marker] + source;
    assert part[|before|] == marker && part[|before| + 1 + k] == source[k];
  }

  /** The ranges go up, with exactly one line, the next marker, between one and the next. */
  lemma RangesAdjacent(cells: seq<Cell>, i: nat)
    requires i < |cells|
    ensures var rs := Ranges(cells);
            && rs[i].startLine <= rs[i].endLine
            && (i == 0 ==> rs[i].startLine == 1)
            && (i + 1 < |rs| ==> rs[i + 1].startLine == rs[i].endLine + 2)
            && (i + 1 == |rs| ==> rs[i].endLine + 1 == Counted(cells))
  {
    RangeAt(cells, i);
    CountedAt(cells, i);
    if i + 1 < |cells| {
      RangeAt(cells, i + 1);
    } else {
      assert cells[..i + 1] == cells;
    }
  }

  lemma {:induction false} RangesIncrease(cells: seq<Cell>, i: nat, j: nat)
    requires i < j < |cells|
    ensures Ranges(cells)[i].endLine + 1 < Ranges(cells)[j].startLine
    decreases j
  {
    RangesAdjacent(cells, j - 1);
    if i < j - 1 {
      RangesIncrease(cells, i, j - 1);
    }
  }

  /** Every counted line is a marker's or lies in exactly one range. */
  lemma {:induction false} LinesCovered(cells: seq<Cell>, line: nat)
    requires line < Counted(cells)
    ensures exists i :: 0 <= i < |cells| && (Contains(Ranges(cells)[i], line) || line == Ranges(cells)[i].startLine - 1)
    decreases |cells|
  {
    var n := |cells| - 1;
    var front := cells[..n];
    RangeAt(cells, n);
    if line < Counted(front) {
      LinesCovered(front, line);
      RangesFront(cells, n);
      var i :| 0 <= i < n && (Contains(Ranges(front)[i], line) || line == Ranges(front)[i].startLine - 1);
      assert Ranges(cells)[i] == Ranges(cells)[..n][i];
    } else {
      assert Contains(Ranges(cells)[n], line) || line == Ranges(cells)[n].startLine - 1;
    }
  }

  lemma FoundByLine(cells: seq<Cell>, i: nat, line: int)
    requires i < |cells| && Contains(Ranges(cells)[i], line)
    ensures FindByLine(Ranges(cells), line) == i
  {
    var f := FindByLine(Ranges(cells), line);
    if f < i {
      RangesIncrease(cells, f, i);
    }
  }

  /** A line is reported for a cell exactly when it is no marker line and is within the document. */
  lemma ReportedExactly(cells: seq<Cell>, d: Diagnostic)
    requires PlainIds(cells) && cells != []
    ensures FromVirtualDiagnostic(Ranges(cells), d).Some? <==>
            && 0 <= d.start.line < |Lines(Text(cells))|
            && forall i :: 0 <= i < |cells| ==> d.start.line != Ranges(cells)[i].startLine - 1
  {
    TextLines(cells);
    CountedExactly(cells);
    var line := d.start.line;
    var f := FindByLine(Ranges(cells), line);
    if f < |cells| {
      InDocument(cells, f);
      forall i | 0 <= i < |cells|
        ensures line != Ranges(cells)[i].startLine - 1
      {
        RangesAdjacent(cells, i);
        if i < f {
          RangesIncrease(cells, i, f);
        } else if f < i {
          RangesIncrease(cells, f, i);
        }
      }
    } else if 0 <= line < Counted(cells) {
      LinesCovered(cells, line);
    }
  }

  lemma InDocument(cells: seq<Cell>, i: nat)
    requires i < |cells|
    ensures Ranges(cells)[i].endLine < Counted(cells)
  {
    RangeAt(cells, i);
    CountedAt(cells, i);
    LinesFront(cells, i + 1);
  }

  lemma ToIs(rs: seq<CellRange>, i: nat, id: string, p: Position)
    requires i < |rs| && FindById(rs, id) == i
    ensures ToVirtualPosition(rs, id, p) == Some(Position(rs[i].startLine + p.line, p.character))
  {
  }

  lemma FromIs(rs: seq<CellRange>, i: nat, d: Diagnostic)
    requires i < |rs| && FindByLine(rs, d.start.line) == i && d.end.line >= rs[i].startLine
    ensures FromVirtualDiagnostic(rs, d) ==
            Some(CellDiagnostic(rs[i].cellId, Position(d.start.line - rs[i].startLine, d.start.character),
                                Position(d.end.line - rs[i].startLine, d.end.character)))
  {
  }

  /** Mapping a diagnostic back undoes toVirtualPosition, for a position in any line of the cell and an
      end in any line from its first on. Of several cells with one id it is the first that is meant. */
  lemma MappedBack(cells: seq<Cell>, id: string, start: Position, end: Position)
    requires FindById(Ranges(cells), id) < |cells|
    requires 0 <= start.line < |Lines(cells[FindById(Ranges(cells), id)].source)| && end.line >= 0
    ensures var rs := Ranges(cells);
            var from, to := ToVirtualPosition(rs, id, start), ToVirtualPosition(rs, id, end);
            && from.Some? && to.Some?
            && FromVirtualDiagnostic(rs, Diagnostic(from.value, to.value)) == Some(CellDiagnostic(id, start, end))
  {
    var i := FindById(Ranges(cells), id);
    RangeAt(cells, i);
    var rs := Ranges(cells);
    FoundByLine(cells, i, rs[i].startLine + start.line);
    ToIs(rs, i, id, start);
    ToIs(rs, i, id, end);
    FromIs(rs, i, Diagnostic(Position(rs[i].startLine + start.line, start.character),
                             Position(rs[i].startLine + end.line, end.character)));
  }

  /** Conversely every diagnostic that is reported lies in a line of a cell with the reported id, and is
      the one at that position of the document. */
  lemma ReportedInCell(cells: seq<Cell>, d: Diagnostic)
    requires FromVirtualDiagnostic(Ranges(cells), d).Some?
    ensures var c := FromVirtualDiagnostic(Ranges(cells), d).value;
            exists i :: 0 <= i < |cells| && cells[i].id == c.cellId && 0 <= c.start.line < |Lines(cells[i].source)|
                        && d.start == Position(Ranges(cells)[i].startLine + c.start.line, c.start.character)
  {
    RangeAt(cells, FindByLine(Ranges(cells), d.start.line));
  }

  /** A newline in an id shifts what follows: the first line taken for the source is the rest of the
      marker. */
  lemma NewlineShifts(cell: Cell, body: string, source: string)
    requires cell.id == body + "\n" && NoNewline(body) && cell.source == source
    ensures |Lines(Text([cell]))| == Counted([cell]) + 1 > 2 && Ranges([cell])[0].startLine == 1
    ensures Lines(Text([cell]))[1] == "]"
  {
    TextLines([cell]);
    assert [cell][..0] == [];
    var head := "# %% [" + body;
    assert Marker(cell) == head + "\n" + "]";
    LinesConcat(head, "]");
    OneLine(head);
    OneLine("]");
  }

  // ---------------------------------------------------------------------------------------------
  // Which cells are shown.

  lemma {:induction false} ShownPrefix(a: seq<Cell>, b: seq<Cell>, i: nat)
    requires i <= |a|
    ensures ShownUpTo(a + b, i) == ShownUpTo(a, i)
  {
    if i > 0 {
      ShownPrefix(a, b, i - 1);
      assert (a + b)[i - 1] == a[i - 1];
    }
  }

  lemma {:induction false} ShownRest(a: seq<Cell>, b: seq<Cell>, i: nat)
    requires i <= |b|
    ensures ShownUpTo(a + b, |a| + i) == CodeCells(a) + ShownUpTo(b, i)
    decreases i
  {
    if i == 0 {
      ShownPrefix(a, b, |a|);
    } else {
      ShownRest(a, b, i - 1);
      assert (a + b)[|a| + i - 1] == b[i - 1];
    }
  }

  /** The cells shown are those of the notebook that are code cells and no circuits, all of them and in order. */
  lemma ShownExactly(a: seq<Cell>, b: seq<Cell>, cell: Cell)
    ensures CodeCells(a + b) == CodeCells(a) + CodeCells(b) && CodeCells([]) == []
    ensures CodeCells([cell]) == if cell.cellType == "code" && !cell.circuit then [cell] else []
  {
    ShownRest(a, b, |b|);
    assert ShownUpTo([cell], 1) == if Shown(cell) then ShownUpTo([cell], 0) + [cell] else ShownUpTo([cell], 0);
  }

  /** A cell is shown as a marker line with its id, and its source below. */
  lemma TextSpelt(cells: seq<Cell>, cell: Cell)
    ensures Text([cell]) == "# %% [" + cell.id + "]\n" + cell.source
    ensures cells != [] ==> Text(cells + [cell]) == Text(cells) + "\n# %% [" + cell.id + "]\n" + cell.source
  {
    TextOne(cell);
    assert "]" + "\n" == "]\n" && "\n" + "# %% [" == "\n# %% [";
    Spelt("# %% [" + cell.id, cell.source);
    if cells != [] {
      TextMore(cells, cell);
      assert Text(cells) + "\n" + Marker(cell) == Text(cells) + "\n# %% [" + cell.id + "]";
      Spelt(Text(cells) + "\n# %% [" + cell.id, cell.source);
    }
  }

  lemma Spelt(a: string, b: string)
    ensures a + "]" + "\n" + b == a + "]\n" + b
  {
  }
}
