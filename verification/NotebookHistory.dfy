/** The notebook model of the editor with its undo and redo stacks
    (frontend/packages/notebook/src/adapters/docregistry/model.ts), over the document parser
    (frontend/packages/nbformat/src/index.ts). */
module NotebookHistory {
  import opened Common
  import opened Json
  import opened Outputs

  // ---------------------------------------------------------------------------------------------
  // Documents as they are stored, and notebooks as they are edited.

  datatype DocCell = DocCell(
    id: Option<string>, cellType: string, source: Text, metadata: Json,
    executionCount: Option<Json>, outputs: Option<Json>, attachments: Option<Record>)

  datatype Document = Document(nbformat: int, minor: int, metadata: Json, cells: seq<DocCell>)

  /** `circuit` is the lumenType of the source; `wiring` is its circuit data. */
  datatype Cell = Cell(
    id: string, cellType: string, source: string, metadata: Record,
    executionCount: Option<Json>, outputs: Option<Json>, attachments: Option<Record>,
    circuit: bool, wiring: Option<Record>)

  datatype Notebook = Notebook(nbformat: int, minor: int, metadata: Record, cells: seq<Cell>)

  /** The cell's metadata marks it as a circuit. */
  predicate MarkedCircuit(metadata: Record) {
    Field(AsRecord(Field(metadata, "lumen")), "cell_type") == Some(Str("circuit"))
  }

  /** The circuit of the metadata is a record, as in a stored cell. */
  predicate CircuitStored(metadata: Record) {
    IsObject(Field(AsRecord(Field(metadata, "lumen")), "circuit"))
  }

  /** String() of a cell's position; it is never empty where it is used. */
  function DefaultId(index: nat, decimal: nat -> string): string {
    "cell-" + decimal(index)
  }

  function ParseCell(cell: DocCell, index: nat, decimal: nat -> string): Cell {
    var metadata := AsRecord(Some(cell.metadata));
    var circuit := MarkedCircuit(metadata);
    Cell(if cell.id.Some? && cell.id.value != "" then cell.id.value else DefaultId(index, decimal),
         cell.cellType, TextOf(cell.source), metadata, cell.executionCount, cell.outputs, cell.attachments,
         circuit, if circuit then Some(AsRecord(Field(AsRecord(Field(metadata, "lumen")), "circuit"))) else None)
  }

  function ParseNotebook(d: Document, decimal: nat -> string): Notebook {
    Notebook(if d.nbformat == 0 then 4 else d.nbformat, d.minor, AsRecord(Some(d.metadata)),
             seq(|d.cells|, i requires 0 <= i < |d.cells| => ParseCell(d.cells[i], i, decimal)))
  }

  const DEFAULT_WIRING: Record := map["wires" := Int(2), "gates" := Arr([])]

  /** The metadata of a circuit cell when it is stored. */
  function StoredMetadata(cell: Cell): Record {
    if cell.circuit then
      var lumen := AsRecord(Field(cell.metadata, "lumen"));
      var wiring := if cell.wiring.Some? then cell.wiring.value else DEFAULT_WIRING;
      cell.metadata["lumen" := Obj(lumen["cell_type" := Str("circuit")]["circuit" := Obj(wiring)])]
    else cell.metadata
  }

  /** `value ?? default`. */
  function Or(value: Option<Json>, default: Json): Json {
    match value
    case None => default
    case Some(Null) => default
    case Some(v) => v
  }

  function CellJSON(cell: Cell): DocCell {
    DocCell(Some(cell.id), if cell.circuit then "code" else cell.cellType,
            Whole(cell.source), Obj(StoredMetadata(cell)),
            if cell.cellType == "code" then Some(Or(cell.executionCount, Null)) else None,
            if cell.cellType == "code" then Some(Or(cell.outputs, Arr([]))) else None,
            cell.attachments)
  }

  function ToJSON(n: Notebook): Document {
    Document(n.nbformat, n.minor, Obj(n.metadata),
             seq(|n.cells|, i requires 0 <= i < |n.cells| => CellJSON(n.cells[i])))
  }

  // ---------------------------------------------------------------------------------------------
  // When storing and parsing loses nothing.

  /** A cell that only the metadata marks as a circuit must already look like a stored one. */
  predicate CellWellFormed(cell: Cell) {
    && cell.id != ""
    && (cell.circuit ==> cell.cellType == "code")
    && (!cell.circuit && MarkedCircuit(cell.metadata) ==>
          cell.cellType == "code" && CircuitStored(cell.metadata))
  }

  predicate WellFormed(n: Notebook) {
    n.nbformat != 0 && forall i :: 0 <= i < |n.cells| ==> CellWellFormed(n.cells[i])
  }

  /** Parsing the document and storing it again gives it back. */
  predicate Stable(d: Document, decimal: nat -> string) {
    ToJSON(ParseNotebook(d, decimal)) == d
  }

  /** Storing a circuit and parsing it back recovers its data. */
  lemma StoredCircuit(cell: Cell)
    requires cell.circuit
    ensures var m := StoredMetadata(cell);
            && MarkedCircuit(m)
            && Field(AsRecord(Field(m, "lumen")), "circuit") ==
                 Some(Obj(if cell.wiring.Some? then cell.wiring.value else DEFAULT_WIRING))
  {
  }

  lemma StoredMetadataAgain(cell: Cell, again: Cell)
    requires again.metadata == StoredMetadata(cell) && cell.circuit && again.circuit
    requires again.wiring == Some(if cell.wiring.Some? then cell.wiring.value else DEFAULT_WIRING)
    ensures StoredMetadata(again) == again.metadata
  {
    StoredCircuit(cell);
    var lumen := AsRecord(Field(again.metadata, "lumen"));
    UpdateSame(lumen, "cell_type", Str("circuit"));
    UpdateSame(lumen, "circuit", Obj(again.wiring.value));
    UpdateSame(again.metadata, "lumen", Obj(lumen));
  }

  /** The metadata of a cell that is only marked survives exactly when the marked circuit is a record. */
  lemma MarkedMetadata(cell: Cell, again: Cell)
    requires !cell.circuit && MarkedCircuit(cell.metadata) && again.metadata == cell.metadata && again.circuit
    requires again.wiring == Some(AsRecord(Field(AsRecord(Field(cell.metadata, "lumen")), "circuit")))
    ensures StoredMetadata(again) == again.metadata <==> CircuitStored(cell.metadata)
  {
    var lumen := AsRecord(Field(cell.metadata, "lumen"));
    UpdateSame(lumen, "cell_type", Str("circuit"));
    if Field(lumen, "circuit") == Some(Obj(again.wiring.value)) {
      UpdateSame(lumen, "circuit", Obj(again.wiring.value));
      UpdateSame(cell.metadata, "lumen", Obj(lumen));
    } else {
      assert Field(AsRecord(Field(StoredMetadata(again), "lumen")), "circuit") == Some(Obj(again.wiring.value));
    }
  }

  /** A cell survives storing, parsing and storing again exactly when it is well formed. */
  lemma CellRoundTrip(cell: Cell, index: nat, decimal: nat -> string)
    ensures CellJSON(ParseCell(CellJSON(cell), index, decimal)) == CellJSON(cell) <==> CellWellFormed(cell)
  {
    var again := ParseCell(CellJSON(cell), index, decimal);
    if cell.circuit {
      StoredCircuit(cell);
      StoredMetadataAgain(cell, again);
    } else if MarkedCircuit(cell.metadata) {
      MarkedMetadata(cell, again);
    }
  }

  /** A notebook's document is stable exactly when the notebook is well formed. */
  lemma RoundTrip(n: Notebook, decimal: nat -> string)
    ensures Stable(ToJSON(n), decimal) <==> WellFormed(n)
  {
    var d := ToJSON(n);
    var again := ToJSON(ParseNotebook(d, decimal));
    forall i | 0 <= i < |n.cells|
      ensures again.cells[i] == d.cells[i] <==> CellWellFormed(n.cells[i])
    {
      CellRoundTrip(n.cells[i], i, decimal);
    }
    if WellFormed(n) {
      assert again.cells == d.cells;
    }
  }

  /** A parsed document is a well-formed notebook exactly when every cell marked as a circuit is a code
      cell. */
  lemma ParsedWellFormed(d: Document, decimal: nat -> string)
    ensures WellFormed(ParseNotebook(d, decimal)) <==>
            forall i :: 0 <= i < |d.cells| && MarkedCircuit(AsRecord(Some(d.cells[i].metadata))) ==>
                d.cells[i].cellType == "code"
  {
    var n := ParseNotebook(d, decimal);
    forall i | 0 <= i < |d.cells|
      ensures CellWellFormed(n.cells[i]) <==>
              (MarkedCircuit(AsRecord(Some(d.cells[i].metadata))) ==> d.cells[i].cellType == "code")
    {
      assert n.cells[i] == ParseCell(d.cells[i], i, decimal);
    }
  }

  // ---------------------------------------------------------------------------------------------
  // Edits.

  /** What can be done to one cell. */
  datatype Change =
    | Remove
    | MoveTo(to: int)
    | NewSource(source: string)
    | NewOutputs(outputs: Json)
    | NewCount(count: Json)
    | NewType(kind: string)

  datatype Edit =
    | InsertCell(index: int, kind: string, source: string, id: string)
    | InsertCellValue(index: int, cell: Cell, id: string)
    | SetMetadata(metadata: Record)
    | EditCell(target: string, change: Change)

  const NEW_WIRING: Record := map["version" := Int(1), "wires" := Int(2), "gates" := Arr([])]

  /** createCell. */
  function CreateCell(kind: string, source: string, id: string): Cell {
    var runs := kind == "code" || kind == "circuit";
    Cell(id, if kind == "circuit" then "code" else kind, source,
         if kind == "circuit" then map["lumen" := Obj(map["cell_type" := Str("circuit")])] else map[],
         if runs then Some(Null) else None, if runs then Some(Arr([])) else None, None,
         kind == "circuit", if kind == "circuit" then Some(NEW_WIRING) else None)
  }

  function IndexOf(cells: seq<Cell>, id: string): (i: nat)
    ensures i <= |cells| && (i < |cells| ==> cells[i].id == id)
    ensures forall j :: 0 <= j < i ==> cells[j].id != id
  {
    if cells == [] || cells[0].id == id then 0 else 1 + IndexOf(cells[1..], id)
  }

  /** The list's insert: a negative index counts from the end, and the index is clamped. */
  function ClampIndex(index: int, n: nat): nat {
    if index < 0 then (if index + n < 0 then 0 else index + n) else if index > n then n else index
  }

  function InsertAt(cells: seq<Cell>, i: nat, cell: Cell): seq<Cell>
    requires i <= |cells|
  {
    cells[..i] + [cell] + cells[i..]
  }

  function RemoveAt(cells: seq<Cell>, i: nat): seq<Cell>
    requires i < |cells|
  {
    cells[..i] + cells[i + 1..]
  }

  /** None for a change that changes nothing: the target out of range or the field already equal. */
  function Changed(cells: seq<Cell>, i: nat, change: Change): Option<seq<Cell>>
    requires i < |cells|
  {
    var cell := cells[i];
    match change
    case Remove => Some(RemoveAt(cells, i))
    case MoveTo(to) => if 0 <= to < |cells| then Some(InsertAt(RemoveAt(cells, i), to, cell)) else None
    case NewSource(source) => if cell.source == source then None else Some(cells[i := cell.(source := source)])
    case NewOutputs(outputs) => Some(cells[i := cell.(outputs := Some(outputs))])
    case NewCount(count) =>
      if cell.executionCount == Some(count) then None else Some(cells[i := cell.(executionCount := Some(count))])
    case NewType(kind) => Some(cells[i := CreateCell(kind, cell.source, cell.id).(metadata := cell.metadata)])
  }

  /** The notebook after an edit; None when nothing is recorded, because nothing changes or the cell is
      unknown. */
  function Apply(n: Notebook, e: Edit): Option<Notebook> {
    match e
    case InsertCell(index, kind, source, id) =>
      Some(n.(cells := InsertAt(n.cells, ClampIndex(index, |n.cells|), CreateCell(kind, source, id))))
    case InsertCellValue(index, cell, id) =>
      Some(n.(cells := InsertAt(n.cells, ClampIndex(index, |n.cells|), cell.(id := id))))
    case SetMetadata(metadata) => Some(n.(metadata := metadata))
    case EditCell(target, change) =>
      var i := IndexOf(n.cells, target);
      if i == |n.cells| then None
      else
        match Changed(n.cells, i, change)
        case None => None
        case Some(cells) => Some(n.(cells := cells))
  }

  // ---------------------------------------------------------------------------------------------
  // The history.

  const LIMIT := 100

  datatype Session = Session(notebook: Notebook, undo: seq<Document>, redo: seq<Document>)

  function Capped(stack: seq<Document>): seq<Document> {
    if |stack| > LIMIT then stack[1..] else stack
  }

  function Edited(s: Session, e: Edit): Session {
    match Apply(s.notebook, e)
    case None => s
    case Some(n) => Session(n, Capped(s.undo + [ToJSON(s.notebook)]), [])
  }

  function Undone(s: Session, decimal: nat -> string): Session {
    if s.undo == [] then s
    else
      var n := |s.undo| - 1;
      Session(ParseNotebook(s.undo[n], decimal), s.undo[..n], s.redo + [ToJSON(s.notebook)])
  }

  function Redone(s: Session, decimal: nat -> string): Session {
    if s.redo == [] then s
    else
      var n := |s.redo| - 1;
      Session(ParseNotebook(s.redo[n], decimal), s.undo + [ToJSON(s.notebook)], s.redo[..n])
  }

  /** The constructor and fromJSON. */
  function Loaded(d: Document, decimal: nat -> string): Session {
    Session(ParseNotebook(d, decimal), [], [])
  }

  // ---------------------------------------------------------------------------------------------
  // The code's own form.

  class NotebookModel {
    const decimal: nat -> string
    var nbformat: int
    var nbformatMinor: int
    var metadata: Record
    var cells: seq<Cell>
    var undoStack: seq<Document>
    var redoStack: seq<Document>

    function AsNotebook(): Notebook
      reads this
    {
      Notebook(nbformat, nbformatMinor, metadata, cells)
    }

    function Contents(): Session
      reads this
    {
      Session(AsNotebook(), undoStack, redoStack)
    }

    constructor (value: Document, decimal: nat -> string)
      ensures Contents() == Loaded(value, decimal) && this.decimal == decimal
    {
      this.decimal := decimal;
      var document := ParseNotebook(value, decimal);
      nbformat, nbformatMinor, metadata, cells := document.nbformat, document.minor, document.metadata, document.cells;
      undoStack, redoStack := [], [];
    }

    method RecordHistory()
      modifies this`undoStack, this`redoStack
      ensures undoStack == Capped(old(undoStack) + [ToJSON(old(AsNotebook()))]) && redoStack == []
    {
      undoStack := undoStack + [ToJSON(AsNotebook())];
      if |undoStack| > LIMIT {
        undoStack := undoStack[1..];
      }
      redoStack := [];
    }

    method Insert(index: int, kind: string, source: string, id: string) returns (cell: Cell)
      modifies this
      ensures cell == CreateCell(kind, source, id)
      ensures Contents() == Edited(old(Contents()), InsertCell(index, kind, source, id))
    {
      RecordHistory();
      cell := CreateCell(kind, source, id);
      cells := InsertAt(cells, ClampIndex(index, |cells|), cell);
    }

    method InsertValue(index: int, cell: Cell, id: string)
      modifies this
      ensures Contents() == Edited(old(Contents()), InsertCellValue(index, cell, id))
    {
      RecordHistory();
      cells := InsertAt(cells, ClampIndex(index, |cells|), cell.(id := id));
    }

    method Delete(id: string) returns (ok: bool)
      modifies this
      ensures ok <==> Apply(old(AsNotebook()), EditCell(id, Remove)).Some?
      ensures Contents() == Edited(old(Contents()), EditCell(id, Remove))
    {
      var index := IndexOf(cells, id);
      if index == |cells| {
        return false;
      }
      RecordHistory();
      cells := RemoveAt(cells, index);
      return true;
    }

    method Move(id: string, to: int) returns (ok: bool)
      modifies this
      ensures ok <==> Apply(old(AsNotebook()), EditCell(id, MoveTo(to))).Some?
      ensures Contents() == Edited(old(Contents()), EditCell(id, MoveTo(to)))
    {
      var from := IndexOf(cells, id);
      if from == |cells| || to < 0 || to >= |cells| {
        return false;
      }
      RecordHistory();
      cells := InsertAt(RemoveAt(cells, from), to, cells[from]);
      return true;
    }

    /** `ok` is false when updateCell throws because there is no such cell. */
    method SetSource(id: string, source: string) returns (ok: bool)
      modifies this
      ensures ok <==> IndexOf(old(cells), id) < |old(cells)|
      ensures Contents() == Edited(old(Contents()), EditCell(id, NewSource(source)))
    {
      var index := IndexOf(cells, id);
      if index == |cells| {
        return false;
      }
      if cells[index].source != source {
        RecordHistory();
        cells := cells[index := cells[index].(source := source)];
      }
      return true;
    }

    method SetOutputs(id: string, outputs: Json) returns (ok: bool)
      modifies this
      ensures ok <==> IndexOf(old(cells), id) < |old(cells)|
      ensures Contents() == Edited(old(Contents()), EditCell(id, NewOutputs(outputs)))
    {
      var index := IndexOf(cells, id);
      if index == |cells| {
        return false;
      }
      RecordHistory();
      cells := cells[index := cells[index].(outputs := Some(outputs))];
      return true;
    }

    method SetExecutionCount(id: string, count: Json) returns (ok: bool)
      modifies this
      ensures ok <==> IndexOf(old(cells), id) < |old(cells)|
      ensures Contents() == Edited(old(Contents()), EditCell(id, NewCount(count)))
    {
      var index := IndexOf(cells, id);
      if index == |cells| {
        return false;
      }
      if cells[index].executionCount != Some(count) {
        RecordHistory();
        cells := cells[index := cells[index].(executionCount := Some(count))];
      }
      return true;
    }

    method ReplaceMetadata(value: Record)
      modifies this
      ensures Contents() == Edited(old(Contents()), SetMetadata(value))
    {
      RecordHistory();
      metadata := value;
    }

    method ChangeType(id: string, kind: string)
      modifies this
      ensures Contents() == Edited(old(Contents()), EditCell(id, NewType(kind)))
    {
      var index := IndexOf(cells, id);
      if index == |cells| {
        return;
      }
      var cell := cells[index];
      RecordHistory();
      var next := CreateCell(kind, cell.source, cell.id);
      cells := cells[index := next.(metadata := cell.metadata)];
    }

    method ApplyDocument(document: Notebook)
      modifies this`nbformat, this`nbformatMinor, this`metadata, this`cells
      ensures AsNotebook() == document
    {
      nbformat := document.nbformat;
      nbformatMinor := document.minor;
      metadata := document.metadata;
      cells := document.cells;
    }

    method FromJSON(value: Document)
      modifies this
      ensures Contents() == Loaded(value, decimal)
    {
      ApplyDocument(ParseNotebook(value, decimal));
      undoStack := [];
      redoStack := [];
    }

    method Undo() returns (ok: bool)
      modifies this
      ensures ok <==> old(undoStack) != []
      ensures Contents() == Undone(old(Contents()), decimal)
    {
      if |undoStack| == 0 {
        return false;
      }
      var previous := undoStack[|undoStack| - 1];
      undoStack := undoStack[..|undoStack| - 1];
      redoStack := redoStack + [ToJSON(AsNotebook())];
      ApplyDocument(ParseNotebook(previous, decimal));
      return true;
    }

    method Redo() returns (ok: bool)
      modifies this
      ensures ok <==> old(redoStack) != []
      ensures Contents() == Redone(old(Contents()), decimal)
    {
      if |redoStack| == 0 {
        return false;
      }
      var next := redoStack[|redoStack| - 1];
      redoStack := redoStack[..|redoStack| - 1];
      undoStack := undoStack + [ToJSON(AsNotebook())];
      ApplyDocument(ParseNotebook(next, decimal));
      return true;
    }
  }

  // ---------------------------------------------------------------------------------------------
  // The zipper of documents.

  datatype Zipper = Zipper(before: seq<Document>, current: Document, after: seq<Document>)

  function Abs(s: Session): Zipper {
    Zipper(s.undo, ToJSON(s.notebook), s.redo)
  }

  datatype Move = Put(document: Document) | Back | Forth | Stay | Open(document: Document)

  function Go(z: Zipper, m: Move): Zipper {
    match m
    case Stay => z
    case Open(d) => Zipper([], d, [])
    case Put(d) => Zipper(Capped(z.before + [z.current]), d, [])
    case Back =>
      if z.before == [] then z
      else Zipper(z.before[..|z.before| - 1], z.before[|z.before| - 1], z.after + [z.current])
    case Forth =>
      if z.after == [] then z
      else Zipper(z.before + [z.current], z.after[|z.after| - 1], z.after[..|z.after| - 1])
  }

  predicate AllStable(s: Session, decimal: nat -> string) {
    && WellFormed(s.notebook)
    && (forall i :: 0 <= i < |s.undo| ==> Stable(s.undo[i], decimal))
    && (forall i :: 0 <= i < |s.redo| ==> Stable(s.redo[i], decimal))
  }

  datatype Command = Do(edit: Edit) | UndoCommand | RedoCommand | Load(document: Document)

  function Step(s: Session, c: Command, decimal: nat -> string): Session {
    match c
    case Do(e) => Edited(s, e)
    case UndoCommand => Undone(s, decimal)
    case RedoCommand => Redone(s, decimal)
    case Load(d) => Loaded(d, decimal)
  }

  /** The move of the zipper that a command stands for. */
  function MoveOf(s: Session, c: Command, decimal: nat -> string): Move {
    match c
    case Do(e) => if Apply(s.notebook, e).None? then Stay else Put(ToJSON(Apply(s.notebook, e).value))
    case UndoCommand => Back
    case RedoCommand => Forth
    case Load(d) => Open(ToJSON(ParseNotebook(d, decimal)))
  }

  lemma ParsedStable(d: Document, decimal: nat -> string)
    requires Stable(d, decimal)
    ensures WellFormed(ParseNotebook(d, decimal))
  {
    RoundTrip(ParseNotebook(d, decimal), decimal);
  }

  /** As long as what it stores is stable, the editor is a zipper of documents. */
  lemma StepRefines(s: Session, c: Command, decimal: nat -> string)
    requires AllStable(s, decimal)
    ensures Abs(Step(s, c, decimal)) == Go(Abs(s), MoveOf(s, c, decimal))
    ensures WellFormed(Step(s, c, decimal).notebook) ==> AllStable(Step(s, c, decimal), decimal)
    ensures c.UndoCommand? || c.RedoCommand? ==> AllStable(Step(s, c, decimal), decimal)
  {
    RoundTrip(s.notebook, decimal);
    if c.UndoCommand? && s.undo != [] {
      ParsedStable(s.undo[|s.undo| - 1], decimal);
    }
    if c.RedoCommand? && s.redo != [] {
      ParsedStable(s.redo[|s.redo| - 1], decimal);
    }
  }

  /** The guard of each edit: what it may insert or change without breaking the round trip. */
  predicate Safe(n: Notebook, e: Edit) {
    match e
    case InsertCell(_, _, _, id) => id != ""
    case InsertCellValue(_, cell, id) => CellWellFormed(cell.(id := id))
    case EditCell(target, NewType(kind)) =>
      var i := IndexOf(n.cells, target);
      i < |n.cells| && kind != "circuit" && MarkedCircuit(n.cells[i].metadata) ==>
        kind == "code" && CircuitStored(n.cells[i].metadata)
    case _ => true
  }

  predicate AllCells(cells: seq<Cell>) {
    forall i :: 0 <= i < |cells| ==> CellWellFormed(cells[i])
  }

  lemma InsertedCells(cells: seq<Cell>, i: nat, cell: Cell)
    requires i <= |cells| && AllCells(cells)
    ensures AllCells(InsertAt(cells, i, cell)) <==> CellWellFormed(cell)
  {
    assert InsertAt(cells, i, cell)[i] == cell;
  }

  lemma ReplacedCells(cells: seq<Cell>, i: nat, cell: Cell)
    requires i < |cells| && AllCells(cells)
    ensures AllCells(cells[i := cell]) <==> CellWellFormed(cell)
  {
    assert cells[i := cell][i] == cell;
  }

  lemma CreatedCell(kind: string, source: string, id: string)
    ensures CellWellFormed(CreateCell(kind, source, id)) <==> id != ""
  {
  }

  lemma RetypedCell(cell: Cell, kind: string)
    requires cell.id != ""
    ensures CellWellFormed(CreateCell(kind, cell.source, cell.id).(metadata := cell.metadata)) <==>
            (kind != "circuit" && MarkedCircuit(cell.metadata) ==> kind == "code" && CircuitStored(cell.metadata))
  {
  }

  lemma ChangedCells(cells: seq<Cell>, i: nat, change: Change)
    requires i < |cells| && AllCells(cells) && !change.NewType? && Changed(cells, i, change).Some?
    ensures AllCells(Changed(cells, i, change).value)
  {
    match change
    case Remove =>
    case MoveTo(to) => InsertedCells(RemoveAt(cells, i), to, cells[i]);
    case NewSource(source) => ReplacedCells(cells, i, cells[i].(source := source));
    case NewOutputs(outputs) => ReplacedCells(cells, i, cells[i].(outputs := Some(outputs)));
    case NewCount(count) => ReplacedCells(cells, i, cells[i].(executionCount := Some(count)));
  }

  /** A recorded edit keeps a well-formed notebook well formed exactly when it meets its guard. */
  lemma EditKeepsExactly(n: Notebook, e: Edit)
    requires WellFormed(n) && Apply(n, e).Some?
    ensures WellFormed(Apply(n, e).value) <==> Safe(n, e)
  {
    assert AllCells(n.cells);
    match e
    case InsertCell(index, kind, source, id) =>
      CreatedCell(kind, source, id);
      InsertedCells(n.cells, ClampIndex(index, |n.cells|), CreateCell(kind, source, id));
    case InsertCellValue(index, cell, id) =>
      InsertedCells(n.cells, ClampIndex(index, |n.cells|), cell.(id := id));
    case SetMetadata(_) =>
    case EditCell(target, change) =>
      var i := IndexOf(n.cells, target);
      if change.NewType? {
        RetypedCell(n.cells[i], change.kind);
        ReplacedCells(n.cells, i,
                      CreateCell(change.kind, n.cells[i].source, n.cells[i].id).(metadata := n.cells[i].metadata));
      } else {
        ChangedCells(n.cells, i, change);
      }
  }

  // ---------------------------------------------------------------------------------------------
  // Whole sessions.

  function RunCommands(s: Session, commands: seq<Command>, decimal: nat -> string): Session
    decreases |commands|
  {
    if commands == [] then s
    else Step(RunCommands(s, commands[..|commands| - 1], decimal), commands[|commands| - 1], decimal)
  }

  predicate SafeCommand(s: Session, c: Command, decimal: nat -> string) {
    match c
    case Do(e) => Safe(s.notebook, e)
    case Load(d) => WellFormed(ParseNotebook(d, decimal))
    case _ => true
  }

  predicate SafeRun(s: Session, commands: seq<Command>, decimal: nat -> string) {
    forall k :: 0 <= k < |commands| ==> SafeCommand(RunCommands(s, commands[..k], decimal), commands[k], decimal)
  }

  /** Where the zipper is after the moves of all the commands. */
  function ZipperRun(s: Session, commands: seq<Command>, decimal: nat -> string): Zipper
    decreases |commands|
  {
    if commands == [] then Abs(s)
    else
      var front, last := commands[..|commands| - 1], commands[|commands| - 1];
      Go(ZipperRun(s, front, decimal), MoveOf(RunCommands(s, front, decimal), last, decimal))
  }

  /** Any session of guarded commands is a run of the zipper, and stays well formed. */
  lemma {:induction false} SessionRefinesZipper(s: Session, commands: seq<Command>, decimal: nat -> string)
    requires AllStable(s, decimal) && SafeRun(s, commands, decimal)
    ensures AllStable(RunCommands(s, commands, decimal), decimal)
    ensures Abs(RunCommands(s, commands, decimal)) == ZipperRun(s, commands, decimal)
    decreases |commands|
  {
    if commands != [] {
      var front, last := commands[..|commands| - 1], commands[|commands| - 1];
      forall k | 0 <= k < |front|
        ensures SafeCommand(RunCommands(s, front[..k], decimal), front[k], decimal)
      {
        assert front[..k] == commands[..k];
      }
      SessionRefinesZipper(s, front, decimal);
      var t := RunCommands(s, front, decimal);
      assert SafeCommand(t, last, decimal);
      if last.Do? && Apply(t.notebook, last.edit).Some? {
        EditKeepsExactly(t.notebook, last.edit);
      }
      StepRefines(t, last, decimal);
    }
  }

  /** Undo right after a recorded edit restores the stored form exactly when the notebook before the edit
      was well formed. */
  lemma UndoRestoresExactly(s: Session, e: Edit, decimal: nat -> string)
    requires Apply(s.notebook, e).Some?
    ensures ToJSON(Undone(Edited(s, e), decimal).notebook) == ToJSON(s.notebook) <==> WellFormed(s.notebook)
  {
    RoundTrip(s.notebook, decimal);
  }

  function Times(s: Session, c: Command, n: nat, decimal: nat -> string): Session {
    if n == 0 then s else Step(Times(s, c, n - 1, decimal), c, decimal)
  }

  lemma {:induction false} TimesFront(s: Session, c: Command, n: nat, decimal: nat -> string)
    ensures Times(Step(s, c, decimal), c, n, decimal) == Times(s, c, n + 1, decimal)
  {
    if n > 0 {
      TimesFront(s, c, n - 1, decimal);
    }
  }

  lemma SameAbs(s: Session, t: Session, c: Command, decimal: nat -> string)
    requires AllStable(s, decimal) && AllStable(t, decimal) && Abs(s) == Abs(t) && (c.UndoCommand? || c.RedoCommand?)
    ensures Abs(Step(s, c, decimal)) == Abs(Step(t, c, decimal))
  {
    StepRefines(s, c, decimal);
    StepRefines(t, c, decimal);
  }

  lemma {:induction false} TimesSameAbs(s: Session, t: Session, c: Command, n: nat, decimal: nat -> string)
    requires AllStable(s, decimal) && AllStable(t, decimal) && Abs(s) == Abs(t) && (c.UndoCommand? || c.RedoCommand?)
    ensures AllStable(Times(s, c, n, decimal), decimal) && AllStable(Times(t, c, n, decimal), decimal)
    ensures Abs(Times(s, c, n, decimal)) == Abs(Times(t, c, n, decimal))
  {
    if n > 0 {
      TimesSameAbs(s, t, c, n - 1, decimal);
      StepRefines(Times(s, c, n - 1, decimal), c, decimal);
      StepRefines(Times(t, c, n - 1, decimal), c, decimal);
    }
  }

  /** One more redo, from a session that shows what the undo left. */
  lemma RedoStep(s: Session, v: Session, decimal: nat -> string)
    requires AllStable(s, decimal) && AllStable(v, decimal) && s.undo != [] && Abs(v) == Abs(Undone(s, decimal))
    ensures Abs(Redone(v, decimal)) == Abs(s)
  {
    StepRefines(s, UndoCommand, decimal);
    SameAbs(v, Undone(s, decimal), RedoCommand, decimal);
    RedoUndoes(s, decimal);
  }

  /** n undos and then n redos give back the notebook's stored form and both stacks. */
  lemma {:induction false} UndosThenRedos(s: Session, n: nat, decimal: nat -> string)
    requires AllStable(s, decimal) && n <= |s.undo|
    ensures Abs(Times(Times(s, UndoCommand, n, decimal), RedoCommand, n, decimal)) == Abs(s)
    ensures AllStable(Times(s, UndoCommand, n, decimal), decimal)
    decreases n
  {
    TimesSameAbs(s, s, UndoCommand, n, decimal);
    if n > 0 {
      StepRefines(s, UndoCommand, decimal);
      UndosThenRedos(Step(s, UndoCommand, decimal), n - 1, decimal);
      TimesFront(s, UndoCommand, n - 1, decimal);
      RedosStep(s, Times(s, UndoCommand, n, decimal), n, decimal);
    }
  }

  /** The last of n redos, when the others have come back to where the first undo led. */
  lemma RedosStep(s: Session, u: Session, n: nat, decimal: nat -> string)
    requires AllStable(s, decimal) && AllStable(u, decimal) && s.undo != [] && n > 0
    requires Abs(Times(u, RedoCommand, n - 1, decimal)) == Abs(Undone(s, decimal))
    ensures Abs(Times(u, RedoCommand, n, decimal)) == Abs(s)
  {
    TimesSameAbs(u, u, RedoCommand, n - 1, decimal);
    RedoStep(s, Times(u, RedoCommand, n - 1, decimal), decimal);
  }

  lemma RedoUndoes(s: Session, decimal: nat -> string)
    requires AllStable(s, decimal) && s.undo != []
    ensures Abs(Redone(Undone(s, decimal), decimal)) == Abs(s)
  {
    StepRefines(s, UndoCommand, decimal);
    StepRefines(Undone(s, decimal), RedoCommand, decimal);
    RoundTrip(s.notebook, decimal);
  }

  /** The two stacks together never hold more than 100 documents, whatever the notebook. */
  lemma {:induction false} HistoryBounded(d: Document, commands: seq<Command>, decimal: nat -> string)
    ensures var s := RunCommands(Loaded(d, decimal), commands, decimal); |s.undo| + |s.redo| <= LIMIT
    decreases |commands|
  {
    if commands != [] {
      HistoryBounded(d, commands[..|commands| - 1], decimal);
    }
  }

  lemma CircuitRetyped(s: Session, kind: string, source: string, id: string)
    requires s.notebook.cells == [CreateCell("circuit", source, id)] && WellFormed(s.notebook) && kind != "circuit"
    ensures var t := Edited(s, EditCell(id, NewType(kind)));
            && !WellFormed(t.notebook)
            && t.notebook.cells ==
               [CreateCell(kind, source, id).(metadata := CreateCell("circuit", source, id).metadata)]
  {
    assert IndexOf(s.notebook.cells, id) == 0;
    assert MarkedCircuit(s.notebook.cells[0].metadata);
    EditKeepsExactly(s.notebook, EditCell(id, NewType(kind)));
  }

  /** The edit that breaks the round trip: a circuit cell turned into anything else keeps the mark in its
      metadata, so undoing the next edit does not give the same document back. */
  lemma CircuitChangedAway(s: Session, kind: string, source: string, id: string, other: string, decimal: nat -> string)
    requires s.notebook.cells == [CreateCell("circuit", source, id)] && WellFormed(s.notebook)
    requires kind != "circuit" && other != source
    ensures var t := Edited(s, EditCell(id, NewType(kind)));
            ToJSON(Undone(Edited(t, EditCell(id, NewSource(other))), decimal).notebook) != ToJSON(t.notebook)
  {
    var t := Edited(s, EditCell(id, NewType(kind)));
    CircuitRetyped(s, kind, source, id);
    assert IndexOf(t.notebook.cells, id) == 0;
    UndoRestoresExactly(t, EditCell(id, NewSource(other)), decimal);
  }
}
