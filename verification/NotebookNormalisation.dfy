/** The normaliser of notebook files (frontend/src/lib/notebookModel.ts): a parser that accepts any JSON
    value, and the printer of what it parsed. */
module NotebookNormalisation {
  import opened Common
  import opened Json
  import opened Outputs

  /** String() of a value that is not a string. */
  type Printer = Json -> string

  /** Generated values: cell ids by position, and the notebook's id and time. */
  datatype Generated = Generated(uuid: nat -> string, notebookUuid: string, now: string, decimal: nat -> string)

  datatype CellType = Markdown | RawText | Circuit | Code

  datatype Status = Idle | Running | Success | Failure

  datatype Cell = Cell(
    id: string, cellType: CellType, metadata: Record, source: string, heading: Option<string>, status: Status,
    isNew: bool, executionCount: Json, outputs: seq<Output>, circuit: Record, attachments: Option<Record>)

  datatype Notebook = Notebook(
    id: string, revision: Json, title: string, createdAt: string, updatedAt: string, minor: Json,
    metadata: Record, cells: seq<Cell>)

  // ---------------------------------------------------------------------------------------------
  // Small readers.

  function StringOf(value: Json, str: Printer): string {
    if value.Str? then value.s else str(value)
  }

  predicate IsString(value: Option<Json>) {
    value.Some? && value.value.Str?
  }

  predicate IsNumber(value: Json) {
    value.Int? || value.Float?
  }

  /** `a ?? b` on fields. */
  function OrElse(a: Option<Json>, b: Option<Json>): Option<Json> {
    if a.Some? && a.value != Null then a else b
  }

  function NumberOrNull(value: Option<Json>): Json {
    if value.Some? && IsNumber(value.value) then value.value else Null
  }

  function Concat(items: seq<Json>, str: Printer): string {
    if items == [] then "" else StringOf(items[0], str) + Concat(items[1..], str)
  }

  function SourceToString(value: Option<Json>, str: Printer): string {
    match value
    case Some(Arr(items)) => Concat(items, str)
    case Some(Str(s)) => s
    case _ => ""
  }

  /** The first of two fields that is a string. */
  function FirstString(a: Option<Json>, b: Option<Json>): Option<string> {
    if IsString(a) then Some(a.value.s) else if IsString(b) then Some(b.value.s) else None
  }

  function StringOr(a: Option<Json>, b: Option<Json>, default: string): string {
    var s := FirstString(a, b);
    if s.Some? then s.value else default
  }

  function ValidCellType(value: Option<Json>): CellType {
    if value == Some(Str("markdown")) then Markdown
    else if value == Some(Str("raw")) then RawText
    else if value == Some(Str("circuit")) then Circuit
    else Code
  }

  function ValidStatus(value: Option<Json>): Status {
    if value == Some(Str("running")) then Running
    else if value == Some(Str("success")) then Success
    else if value == Some(Str("error")) then Failure
    else Idle
  }

  function Gate(id: string, kind: string, wire: int, column: int): Record {
    map["id" := Str(id), "type" := Str(kind), "wire" := Int(wire), "column" := Int(column)]
  }

  function DefaultCircuit(): Record {
    map["version" := Int(1), "wires" := Int(2),
        "gates" := Arr([Obj(Gate("h-0", "h", 0, 0)), Obj(Gate("cx-0", "x", 1, 1)["controls" := Arr([Int(0)])]),
                        Obj(Gate("m-0", "measure", 1, 2))])]
  }

  // ---------------------------------------------------------------------------------------------
  // Outputs.

  function DefaultString(value: Option<Json>, default: string, str: Printer): string {
    var v := OrElse(value, None);
    if v.Some? then StringOf(v.value, str) else default
  }

  function Traceback(value: Option<Json>, str: Printer): seq<string> {
    match value
    case Some(Arr(items)) => seq(|items|, i requires 0 <= i < |items| => StringOf(items[i], str))
    case None => []
    case Some(Null) => []
    case Some(v) => [StringOf(v, str)]
  }

  /** One item of an outputs list; None for one that is skipped. */
  function OutputOf(item: Json, str: Printer): Option<Output> {
    if !item.Obj? then None
    else
      var f := item.fields;
      var kind := Field(f, "output_type");
      if kind == Some(Str("stream")) then
        Some(Stream(if Field(f, "name") == Some(Str("stderr")) then "stderr" else "stdout",
                    Whole(SourceToString(Field(f, "text"), str))))
      else if kind == Some(Str("error")) then
        Some(Error(DefaultString(Field(f, "ename"), "Error", str), DefaultString(Field(f, "evalue"), "", str),
                   Traceback(Field(f, "traceback"), str)))
      else if kind == Some(Str("display_data")) then Some(DisplayOf(f, DisplayData, None))
      else if kind == Some(Str("execute_result")) then
        Some(DisplayOf(f, ExecuteResult, Some(NumberOrNull(Field(f, "execution_count")))))
      else if kind == Some(Str("update_display_data")) then Some(DisplayOf(f, UpdateDisplay, None))
      else None
  }

  function DisplayOf(f: Record, kind: DisplayKind, count: Option<Json>): Output {
    Display(kind, AsRecord(Field(f, "data")), Some(AsRecord(Field(f, "metadata"))), count,
            if IsObject(Field(f, "transient")) then Some(AsRecord(Field(f, "transient"))) else None)
  }

  function OutputsOf(items: seq<Json>, str: Printer): seq<Output>
    decreases |items|
  {
    if items == [] then []
    else
      var front, o := OutputsOf(items[..|items| - 1], str), OutputOf(items[|items| - 1], str);
      if o.Some? then front + [o.value] else front
  }

  function OutputsField(value: Option<Json>, str: Printer): seq<Output> {
    match value
    case Some(Arr(items)) => OutputsOf(items, str)
    case _ => []
  }

  function TextJSON(text: Text): Json {
    match text
    case Whole(s) => Str(s)
    case Parts(parts) => Arr(Strings(parts))
  }

  function Strings(parts: seq<string>): seq<Json> {
    seq(|parts|, i requires 0 <= i < |parts| => Str(parts[i]))
  }

  /** serializeOutput: updates become plain displays, and `transient` is not stored. */
  function SerializeOutput(o: Output): Json {
    match o
    case Stream(name, text) => Obj(map["output_type" := Str("stream"), "name" := Str(name), "text" := TextJSON(text)])
    case Error(ename, evalue, traceback) =>
      Obj(map["output_type" := Str("error"), "ename" := Str(ename), "evalue" := Str(evalue),
              "traceback" := Arr(Strings(traceback))])
    case Display(kind, data, metadata, count, _) =>
      var meta := Obj(if metadata.Some? then metadata.value else map[]);
      if kind == ExecuteResult then
        Obj(map["output_type" := Str("execute_result"), "data" := Obj(data), "metadata" := meta,
                "execution_count" := if count.Some? then count.value else Null])
      else Obj(map["output_type" := Str("display_data"), "data" := Obj(data), "metadata" := meta])
  }

  // ---------------------------------------------------------------------------------------------
  // Cells.

  /** `{ output: "..." }` of the first version becomes a stream, if there is no other output. */
  function WithLegacy(outputs: seq<Output>, legacy: Option<Json>): seq<Output> {
    if IsString(legacy) && outputs == [] then [Stream("stdout", Whole(legacy.value.s))] else outputs
  }

  predicate Runs(t: CellType) {
    t == Code || t == Circuit
  }

  function CircuitOf(lumen: Option<Json>, cell: Option<Json>): Record {
    if IsObject(lumen) then lumen.value.fields else if IsObject(cell) then cell.value.fields else DefaultCircuit()
  }

  function IdOf(value: Option<Json>, index: nat, g: Generated): (id: string)
    ensures id != ""
  {
    if !IsString(value) then "cell-" + g.uuid(index)
    else if value.value.s == "" then "cell-" + g.decimal(index) + "-" + g.uuid(index)
    else value.value.s
  }

  function CellTypeOf(f: Record, lumen: Record): CellType {
    if Field(lumen, "cell_type") == Some(Str("circuit")) then Circuit
    else ValidCellType(OrElse(Field(f, "cell_type"), Field(f, "type")))
  }

  function IsNewOf(f: Record, lumen: Record): bool {
    match Field(f, "isNew")
    case Some(Bool(b)) => b
    case _ => Field(lumen, "is_new") == Some(Bool(true))
  }

  function CellOf(value: Json, index: nat, g: Generated, str: Printer): Cell {
    var f := AsRecord(Some(value));
    var metadata := AsRecord(Field(f, "metadata"));
    var lumen := AsRecord(Field(metadata, "lumen"));
    var t := CellTypeOf(f, lumen);
    Cell(IdOf(Field(f, "id"), index, g), t, metadata, SourceToString(Field(f, "source"), str),
         FirstString(Field(f, "label"), Field(lumen, "label")),
         ValidStatus(OrElse(Field(f, "status"), Field(lumen, "status"))),
         IsNewOf(f, lumen),
         if Runs(t) then NumberOrNull(OrElse(Field(f, "execution_count"), Field(f, "executionCount"))) else Null,
         if Runs(t) then WithLegacy(OutputsField(Field(f, "outputs"), str), Field(f, "output")) else [],
         if t == Circuit then CircuitOf(Field(lumen, "circuit"), Field(f, "circuit")) else map[],
         if !Runs(t) && IsObject(Field(f, "attachments")) then Some(AsRecord(Field(f, "attachments"))) else None)
  }

  function TypeName(t: CellType): string {
    match t
    case Markdown => "markdown"
    case RawText => "raw"
    case _ => "code"
  }

  /** The `lumen` entry of a stored cell's metadata. */
  function LumenOf(cell: Cell): Record {
    var found := AsRecord(Field(cell.metadata, "lumen"));
    var labelled := if cell.heading.Some? && cell.heading.value != "" then found["label" := Str(cell.heading.value)]
                    else found;
    var marked := if cell.isNew then labelled["is_new" := Bool(true)] else labelled;
    if cell.cellType == Circuit then marked["cell_type" := Str("circuit")]["circuit" := Obj(cell.circuit)] else marked
  }

  function SerializeOutputs(outputs: seq<Output>): seq<Json> {
    seq(|outputs|, i requires 0 <= i < |outputs| => SerializeOutput(outputs[i]))
  }

  function CellJSON(cell: Cell): Json {
    var base: Record := map["id" := Str(cell.id), "cell_type" := Str(TypeName(cell.cellType)),
                            "metadata" := Obj(cell.metadata["lumen" := Obj(LumenOf(cell))]),
                            "source" := Str(cell.source)];
    if Runs(cell.cellType) then
      Obj(base["execution_count" := cell.executionCount]["outputs" := Arr(SerializeOutputs(cell.outputs))])
    else if cell.attachments.Some? then Obj(base["attachments" := Obj(cell.attachments.value)])
    else Obj(base)
  }

  // ---------------------------------------------------------------------------------------------
  // Notebooks.

  /** createCell('code', true). */
  function EmptyCell(g: Generated): Cell {
    Cell("cell-" + g.uuid(0), Code, map[], "", None, Idle, true, Null, [], map[], None)
  }

  function CellsOf(value: Option<Json>, g: Generated, str: Printer): (cells: seq<Cell>)
    ensures cells != []
  {
    match value
    case Some(Arr(items)) =>
      if items == [] then [EmptyCell(g)]
      else seq(|items|, i requires 0 <= i < |items| => CellOf(items[i], i, g, str))
    case _ => [EmptyCell(g)]
  }

  const UNTITLED := "未命名 Notebook"

  function NotebookOf(value: Json, g: Generated, str: Printer): Notebook {
    var f := AsRecord(Some(value));
    var all := AsRecord(Field(f, "metadata"));
    var lumen := AsRecord(Field(all, "lumen"));
    Notebook(StringOr(Field(f, "id"), Field(lumen, "id"), "notebook-" + g.notebookUuid),
             match Field(f, "revision") { case Some(n) => if IsNumber(n) then n else Int(0) case None => Int(0) },
             StringOr(Field(f, "title"), Field(lumen, "title"), UNTITLED),
             StringOr(Field(f, "createdAt"), Field(lumen, "created_at"), g.now),
             StringOr(Field(f, "updatedAt"), Field(lumen, "updated_at"), g.now),
             match Field(f, "nbformat_minor") { case Some(n) => if IsNumber(n) then n else Int(5) case None => Int(5) },
             all - {"lumen"}, CellsOf(Field(f, "cells"), g, str))
  }

  /** Math.max(5, n). */
  function AtLeastFive(n: Json): Json {
    match n
    case Int(i) => if i < 5 then Int(5) else n
    case Float(r) => if r < 5.0 then Int(5) else n
    case _ => n
  }

  function NotebookLumen(n: Notebook): Record {
    map["id" := Str(n.id), "title" := Str(n.title), "created_at" := Str(n.createdAt), "updated_at" := Str(n.updatedAt)]
  }

  function CellsJSON(cells: seq<Cell>): seq<Json> {
    seq(|cells|, i requires 0 <= i < |cells| => CellJSON(cells[i]))
  }

  function NotebookJSON(n: Notebook): Json {
    Obj(map["nbformat" := Int(4), "nbformat_minor" := AtLeastFive(n.minor),
            "metadata" := Obj(n.metadata["lumen" := Obj(NotebookLumen(n))]), "cells" := Arr(CellsJSON(n.cells))])
  }

  /** Parse and print. */
  function Normalise(value: Json, g: Generated, str: Printer): Json {
    NotebookJSON(NotebookOf(value, g, str))
  }

  // ---------------------------------------------------------------------------------------------
  // The code's own form.

  /** The body of the loop over the outputs: a display is built field by field. */
  method NormalizeOutput(item: Json, str: Printer) returns (o: Option<Output>)
    ensures o == OutputOf(item, str)
  {
    if !item.Obj? {
      return None;
    }
    var f := item.fields;
    var kind := Field(f, "output_type");
    if kind == Some(Str("stream")) {
      var name := if Field(f, "name") == Some(Str("stderr")) then "stderr" else "stdout";
      return Some(Stream(name, Whole(SourceToString(Field(f, "text"), str))));
    }
    if kind == Some(Str("error")) {
      var ename := DefaultString(Field(f, "ename"), "Error", str);
      var evalue := DefaultString(Field(f, "evalue"), "", str);
      return Some(Error(ename, evalue, Traceback(Field(f, "traceback"), str)));
    }
    if kind !in {Some(Str("display_data")), Some(Str("execute_result")), Some(Str("update_display_data"))} {
      return None;
    }
    var output := Display(DisplayData, map[], Some(map[]), None, None);
    if IsObject(Field(f, "data")) {
      output := output.(data := Field(f, "data").value.fields);
    }
    if IsObject(Field(f, "metadata")) {
      output := output.(metadata := Some(Field(f, "metadata").value.fields));
    }
    if kind == Some(Str("update_display_data")) {
      output := output.(kind := UpdateDisplay);
    } else if kind == Some(Str("execute_result")) {
      output := output.(kind := ExecuteResult);
      output := output.(executionCount := Some(NumberOrNull(Field(f, "execution_count"))));
    }
    if IsObject(Field(f, "transient")) {
      output := output.(transient := Some(Field(f, "transient").value.fields));
    }
    return Some(output);
  }

  method NormalizeOutputs(value: Option<Json>, str: Printer) returns (outputs: seq<Output>)
    ensures outputs == OutputsField(value, str)
  {
    if !(value.Some? && value.value.Arr?) {
      return [];
    }
    var items := value.value.items;
    outputs := [];
    var i := 0;
    while i < |items|
      invariant 0 <= i <= |items| && outputs == OutputsOf(items[..i], str)
    {
      var item := items[i];
      assert items[..i + 1][..i] == items[..i] && items[..i + 1][i] == item;
      i := i + 1;
      var o := NormalizeOutput(item, str);
      if o.None? {
        continue;
      }
      outputs := outputs + [o.value];
    }
    assert items[..|items|] == items;
  }

  /** The outputs of a cell, with the single text output of the first version. */
  method CellOutputs(cell: Record, str: Printer) returns (outputs: seq<Output>)
    ensures outputs == WithLegacy(OutputsField(Field(cell, "outputs"), str), Field(cell, "output"))
  {
    outputs := NormalizeOutputs(Field(cell, "outputs"), str);
    var legacy := Field(cell, "output");
    if IsString(legacy) && |outputs| == 0 {
      outputs := outputs + [Stream("stdout", Whole(legacy.value.s))];
    }
  }

  method NormalizeCell(value: Json, index: nat, g: Generated, str: Printer) returns (normalized: Cell)
    ensures normalized == CellOf(value, index, g, str)
  {
    var cell := AsRecord(Some(value));
    var metadata := AsRecord(Field(cell, "metadata"));
    var lumen := AsRecord(Field(metadata, "lumen"));
    var cellType := CellTypeOf(cell, lumen);
    var outputs := CellOutputs(cell, str);
    var id := Field(cell, "id");
    normalized := Cell(if IsString(id) then id.value.s else "cell-" + g.uuid(index), cellType, metadata,
                       SourceToString(Field(cell, "source"), str),
                       FirstString(Field(cell, "label"), Field(lumen, "label")),
                       ValidStatus(OrElse(Field(cell, "status"), Field(lumen, "status"))),
                       IsNewOf(cell, lumen), Null, [], map[], None);
    if Runs(cellType) {
      var count := OrElse(Field(cell, "execution_count"), Field(cell, "executionCount"));
      normalized := normalized.(executionCount := NumberOrNull(count));
      normalized := normalized.(outputs := outputs);
    }
    if cellType == Circuit {
      normalized := normalized.(circuit := CircuitOf(Field(lumen, "circuit"), Field(cell, "circuit")));
    }
    var attachments := Field(cell, "attachments");
    if !Runs(cellType) && IsObject(attachments) {
      normalized := normalized.(attachments := Some(attachments.value.fields));
    }
    if normalized.id == "" {
      normalized := normalized.(id := "cell-" + g.decimal(index) + "-" + g.uuid(index));
    }
  }

  // ---------------------------------------------------------------------------------------------
  // The normal form, spelt out.

  predicate NormalOutput(j: Json) {
    && j.Obj?
    && var f := j.fields;
    && "output_type" in f
    && var kind := f["output_type"];
    if kind == Str("stream") then
      f.Keys == {"output_type", "name", "text"} && f["name"] in {Str("stdout"), Str("stderr")} && f["text"].Str?
    else if kind == Str("error") then
      && f.Keys == {"output_type", "ename", "evalue", "traceback"} && f["ename"].Str? && f["evalue"].Str?
      && f["traceback"].Arr? && forall i :: 0 <= i < |f["traceback"].items| ==> f["traceback"].items[i].Str?
    else if kind == Str("display_data") then
      f.Keys == {"output_type", "data", "metadata"} && f["data"].Obj? && f["metadata"].Obj?
    else
      && kind == Str("execute_result") && f.Keys == {"output_type", "data", "metadata", "execution_count"}
      && f["data"].Obj? && f["metadata"].Obj? && (IsNumber(f["execution_count"]) || f["execution_count"] == Null)
  }

  predicate NormalOutputs(items: seq<Json>) {
    forall i :: 0 <= i < |items| ==> NormalOutput(items[i])
  }

  predicate NormalMetadata(m: Record, code: bool) {
    && "lumen" in m && m["lumen"].Obj?
    && var lumen := m["lumen"].fields;
    Field(lumen, "cell_type") == Some(Str("circuit")) ==> code && IsObject(Field(lumen, "circuit"))
  }

  const BASE := {"id", "cell_type", "metadata", "source"}

  predicate NormalCell(j: Json) {
    && j.Obj?
    && var f := j.fields;
    && BASE <= f.Keys && f["id"].Str? && f["id"].s != "" && f["source"].Str? && f["metadata"].Obj?
    && f["cell_type"] in {Str("code"), Str("markdown"), Str("raw")}
    && var code := f["cell_type"] == Str("code");
    && NormalMetadata(f["metadata"].fields, code)
    && if code then
         && f.Keys == BASE + {"execution_count", "outputs"}
         && (IsNumber(f["execution_count"]) || f["execution_count"] == Null)
         && f["outputs"].Arr? && NormalOutputs(f["outputs"].items)
       else f.Keys == BASE || (f.Keys == BASE + {"attachments"} && f["attachments"].Obj?)
  }

  predicate NormalLumen(lumen: Record) {
    && lumen.Keys == {"id", "title", "created_at", "updated_at"}
    && lumen["id"].Str? && lumen["title"].Str? && lumen["created_at"].Str? && lumen["updated_at"].Str?
  }

  predicate NormalHead(f: Record) {
    && f.Keys == {"nbformat", "nbformat_minor", "metadata", "cells"} && f["nbformat"] == Int(4)
    && IsNumber(f["nbformat_minor"]) && AtLeastFive(f["nbformat_minor"]) == f["nbformat_minor"]
    && f["metadata"].Obj? && IsObject(Field(f["metadata"].fields, "lumen"))
    && NormalLumen(f["metadata"].fields["lumen"].fields)
    && f["cells"].Arr?
  }

  predicate Normal(j: Json) {
    && j.Obj? && NormalHead(j.fields) && j.fields["cells"].items != []
    && forall i :: 0 <= i < |j.fields["cells"].items| ==> NormalCell(j.fields["cells"].items[i])
  }

  // ---------------------------------------------------------------------------------------------
  // What is printed is normal.

  lemma PrintedStream(name: string, text: string)
    requires name in {"stdout", "stderr"}
    ensures NormalOutput(SerializeOutput(Stream(name, Whole(text))))
  {
  }

  lemma PrintedError(ename: string, evalue: string, traceback: seq<string>)
    ensures NormalOutput(SerializeOutput(Error(ename, evalue, traceback)))
  {
  }

  lemma PrintedDisplay(o: Output)
    requires o.Display? && (o.kind == ExecuteResult ==>
               o.executionCount.None? || IsNumber(o.executionCount.value) || o.executionCount.value == Null)
    ensures NormalOutput(SerializeOutput(o))
  {
  }

  lemma PrintedOutput(item: Json, str: Printer)
    requires OutputOf(item, str).Some?
    ensures NormalOutput(SerializeOutput(OutputOf(item, str).value))
  {
    match OutputOf(item, str).value
    case Stream(name, text) => PrintedStream(name, text.s);
    case Error(ename, evalue, traceback) => PrintedError(ename, evalue, traceback);
    case Display(_, _, _, _, _) => PrintedDisplay(OutputOf(item, str).value);
  }

  lemma {:induction false} PrintedOutputs(items: seq<Json>, str: Printer)
    ensures forall i :: 0 <= i < |OutputsOf(items, str)| ==> NormalOutput(SerializeOutput(OutputsOf(items, str)[i]))
    decreases |items|
  {
    if items != [] {
      PrintedOutputs(items[..|items| - 1], str);
      if OutputOf(items[|items| - 1], str).Some? {
        PrintedOutput(items[|items| - 1], str);
      }
    }
  }

  lemma PrintedOutputsField(value: Option<Json>, legacy: Option<Json>, str: Printer)
    ensures var outputs := WithLegacy(OutputsField(value, str), legacy);
            forall i :: 0 <= i < |outputs| ==> NormalOutput(SerializeOutput(outputs[i]))
  {
    if value.Some? && value.value.Arr? {
      PrintedOutputs(value.value.items, str);
    }
    if IsString(legacy) {
      assert NormalOutput(SerializeOutput(Stream("stdout", Whole(legacy.value.s))));
    }
  }

  /** What the parser guarantees of a cell. */
  predicate ParsedCell(cell: Cell) {
    && cell.id != ""
    && (cell.cellType != Circuit ==> 
        Field(AsRecord(Field(cell.metadata, "lumen")), "cell_type") != Some(Str("circuit")))
    && (IsNumber(cell.executionCount) || cell.executionCount == Null)
    && forall i :: 0 <= i < |cell.outputs| ==> NormalOutput(SerializeOutput(cell.outputs[i]))
  }

  lemma ParsedCellOf(value: Json, index: nat, g: Generated, str: Printer)
    ensures ParsedCell(CellOf(value, index, g, str))
  {
    var f := AsRecord(Some(value));
    PrintedOutputsField(Field(f, "outputs"), Field(f, "output"), str);
  }

  lemma PrintedLumen(cell: Cell)
    requires ParsedCell(cell)
    ensures NormalMetadata(cell.metadata["lumen" := Obj(LumenOf(cell))], Runs(cell.cellType))
  {
  }

  lemma PrintedCode(cell: Cell)
    requires ParsedCell(cell) && Runs(cell.cellType)
    requires NormalMetadata(cell.metadata["lumen" := Obj(LumenOf(cell))], true)
    ensures NormalCell(CellJSON(cell))
  {
  }

  lemma PrintedText(cell: Cell)
    requires ParsedCell(cell) && !Runs(cell.cellType)
    requires NormalMetadata(cell.metadata["lumen" := Obj(LumenOf(cell))], false)
    ensures NormalCell(CellJSON(cell))
  {
  }

  lemma PrintedCell(cell: Cell)
    requires ParsedCell(cell)
    ensures NormalCell(CellJSON(cell))
  {
    PrintedLumen(cell);
    if Runs(cell.cellType) {
      PrintedCode(cell);
    } else {
      PrintedText(cell);
    }
  }

  lemma PrintedCells(value: Option<Json>, g: Generated, str: Printer)
    ensures var cells := CellsOf(value, g, str); forall i :: 0 <= i < |cells| ==> NormalCell(CellJSON(cells[i]))
  {
    var cells := CellsOf(value, g, str);
    forall i | 0 <= i < |cells|
      ensures NormalCell(CellJSON(cells[i]))
    {
      if value.Some? && value.value.Arr? && value.value.items != [] {
        ParsedCellOf(value.value.items[i], i, g, str);
      }
      PrintedCell(cells[i]);
    }
  }

  /** Whatever the input, the printed document is in normal form. */
  lemma PrintedIsNormal(value: Json, g: Generated, str: Printer)
    ensures Normal(Normalise(value, g, str))
  {
    var n := NotebookOf(value, g, str);
    PrintedCells(Field(AsRecord(Some(value)), "cells"), g, str);
    ReadMinor(value, g, str);
    PrintedHead(n);
  }

  lemma ReadMinor(value: Json, g: Generated, str: Printer)
    ensures IsNumber(NotebookOf(value, g, str).minor)
  {
  }

  lemma PrintedHead(n: Notebook)
    requires IsNumber(n.minor)
    ensures NormalHead(NotebookJSON(n).fields) && NotebookJSON(n).fields["cells"] == Arr(CellsJSON(n.cells))
  {
  }

  // ---------------------------------------------------------------------------------------------
  // What is normal is printed as it was read.

  lemma SameRecord(a: Record, b: Record)
    requires a.Keys == b.Keys && forall k :: k in a ==> a[k] == b[k]
    ensures a == b
  {
  }

  lemma NormalStreamFixed(f: Record, str: Printer)
    requires NormalOutput(Obj(f)) && f["output_type"] == Str("stream")
    ensures OutputOf(Obj(f), str).Some? && SerializeOutput(OutputOf(Obj(f), str).value) == Obj(f)
  {
    SameRecord(SerializeOutput(OutputOf(Obj(f), str).value).fields, f);
  }

  lemma NormalErrorFixed(f: Record, str: Printer)
    requires NormalOutput(Obj(f)) && f["output_type"] == Str("error")
    ensures OutputOf(Obj(f), str).Some? && SerializeOutput(OutputOf(Obj(f), str).value) == Obj(f)
  {
    assert Strings(Traceback(Some(f["traceback"]), str)) == f["traceback"].items;
    SameRecord(SerializeOutput(OutputOf(Obj(f), str).value).fields, f);
  }

  lemma NormalDisplayFixed(f: Record, str: Printer)
    requires NormalOutput(Obj(f)) && f["output_type"] in {Str("display_data"), Str("execute_result")}
    ensures OutputOf(Obj(f), str).Some? && SerializeOutput(OutputOf(Obj(f), str).value) == Obj(f)
  {
    SameRecord(SerializeOutput(OutputOf(Obj(f), str).value).fields, f);
  }

  lemma NormalOutputFixed(j: Json, str: Printer)
    requires NormalOutput(j)
    ensures OutputOf(j, str).Some? && SerializeOutput(OutputOf(j, str).value) == j
  {
    var kind := j.fields["output_type"];
    if kind == Str("stream") {
      NormalStreamFixed(j.fields, str);
    } else if kind == Str("error") {
      NormalErrorFixed(j.fields, str);
    } else {
      NormalDisplayFixed(j.fields, str);
    }
  }

  lemma OutputsAppend(front: seq<Json>, last: Json, str: Printer)
    requires SerializeOutputs(OutputsOf(front, str)) == front
    requires OutputOf(last, str).Some? && SerializeOutput(OutputOf(last, str).value) == last
    ensures SerializeOutputs(OutputsOf(front + [last], str)) == front + [last]
  {
    assert (front + [last])[..|front|] == front;
  }

  lemma NormalOneMore(front: seq<Json>, last: Json, str: Printer)
    requires SerializeOutputs(OutputsOf(front, str)) == front && NormalOutput(last)
    ensures SerializeOutputs(OutputsOf(front + [last], str)) == front + [last]
  {
    NormalOutputFixed(last, str);
    OutputsAppend(front, last, str);
  }

  lemma NormalFront(items: seq<Json>)
    requires NormalOutputs(items) && items != []
    ensures NormalOutputs(items[..|items| - 1]) && NormalOutput(items[|items| - 1])
  {
  }

  lemma {:induction false} NormalOutputsFixed(items: seq<Json>, str: Printer)
    requires NormalOutputs(items)
    ensures SerializeOutputs(OutputsOf(items, str)) == items
    decreases |items|
  {
    if items != [] {
      var front, last := items[..|items| - 1], items[|items| - 1];
      NormalFront(items);
      NormalOutputsFixed(front, str);
      NormalOneMore(front, last, str);
      assert items == front + [last];
    }
  }

  /** A cell whose heading, newness and circuit were read from its metadata adds nothing to it. */
  lemma LumenUnchanged(cell: Cell, lumen: Record)
    requires AsRecord(Field(cell.metadata, "lumen")) == lumen
    requires cell.heading.Some? && cell.heading.value != "" ==> Field(lumen, "label") == Some(Str(cell.heading.value))
    requires cell.isNew ==> Field(lumen, "is_new") == Some(Bool(true))
    requires cell.cellType == Circuit ==>
               Field(lumen, "cell_type") == Some(Str("circuit")) && Field(lumen, "circuit") == Some(Obj(cell.circuit))
    ensures LumenOf(cell) == lumen
  {
    if cell.heading.Some? && cell.heading.value != "" {
      UpdateSame(lumen, "label", Str(cell.heading.value));
    }
    if cell.isNew {
      UpdateSame(lumen, "is_new", Bool(true));
    }
    if cell.cellType == Circuit {
      UpdateSame(lumen, "cell_type", Str("circuit"));
      UpdateSame(lumen, "circuit", Obj(cell.circuit));
    }
  }

  predicate NoOtherFields(f: Record) {
    && "label" !in f && "isNew" !in f && "type" !in f && "circuit" !in f && "executionCount" !in f && "output" !in f
  }

  lemma NormalHasNoOther(f: Record)
    requires NormalCell(Obj(f))
    ensures NoOtherFields(f)
  {
  }

  lemma ReadLabels(f: Record, index: nat, g: Generated, str: Printer)
    requires NoOtherFields(f) && "metadata" in f && f["metadata"].Obj?
    ensures var cell := CellOf(Obj(f), index, g, str);
            var lumen := AsRecord(Field(f["metadata"].fields, "lumen"));
            && cell.metadata == f["metadata"].fields
            && (cell.heading.Some? ==> Field(lumen, "label") == Some(Str(cell.heading.value)))
            && (cell.isNew ==> Field(lumen, "is_new") == Some(Bool(true)))
  {
    assert Field(f, "label").None? && Field(f, "isNew").None?;
  }

  lemma ReadCircuit(f: Record, index: nat, g: Generated, str: Printer)
    requires NormalCell(Obj(f)) && NoOtherFields(f) && CellOf(Obj(f), index, g, str).cellType == Circuit
    ensures var cell := CellOf(Obj(f), index, g, str);
            var lumen := AsRecord(Field(f["metadata"].fields, "lumen"));
            Field(lumen, "cell_type") == Some(Str("circuit")) && Field(lumen, "circuit") == Some(Obj(cell.circuit))
  {
  }

  lemma NormalLumenFixed(f: Record, index: nat, g: Generated, str: Printer)
    requires NormalCell(Obj(f)) && NoOtherFields(f)
    ensures LumenOf(CellOf(Obj(f), index, g, str)) == f["metadata"].fields["lumen"].fields
  {
    var cell := CellOf(Obj(f), index, g, str);
    ReadLabels(f, index, g, str);
    if cell.cellType == Circuit {
      ReadCircuit(f, index, g, str);
    }
    LumenUnchanged(cell, f["metadata"].fields["lumen"].fields);
  }

  /** The printed cell, from the fields it was read into. */
  predicate BaseRead(cell: Cell, f: Record) {
    && BASE <= f.Keys && f["id"] == Str(cell.id) && f["source"] == Str(cell.source)
    && f["cell_type"] == Str(TypeName(cell.cellType))
    && f["metadata"] == Obj(cell.metadata["lumen" := Obj(LumenOf(cell))])
  }

  lemma CodeJSON(cell: Cell, f: Record)
    requires BaseRead(cell, f) && Runs(cell.cellType) && f.Keys == BASE + {"execution_count", "outputs"}
    requires f["execution_count"] == cell.executionCount && f["outputs"] == Arr(SerializeOutputs(cell.outputs))
    ensures CellJSON(cell) == Obj(f)
  {
    var r := CellJSON(cell).fields;
    assert r["execution_count"] == f["execution_count"] && r["outputs"] == f["outputs"];
    assert forall k :: k in BASE ==> r[k] == f[k];
    SameRecord(r, f);
  }

  lemma PlainJSON(cell: Cell, f: Record)
    requires BaseRead(cell, f) && !Runs(cell.cellType) && cell.attachments.None? && f.Keys == BASE
    ensures CellJSON(cell) == Obj(f)
  {
    SameRecord(CellJSON(cell).fields, f);
  }

  lemma AttachedJSON(cell: Cell, f: Record)
    requires BaseRead(cell, f) && !Runs(cell.cellType) && cell.attachments.Some? && f.Keys == BASE + {"attachments"}
    requires f["attachments"] == Obj(cell.attachments.value)
    ensures CellJSON(cell) == Obj(f)
  {
    SameRecord(CellJSON(cell).fields, f);
  }

  lemma BaseJSON(cell: Cell, f: Record)
    requires BaseRead(cell, f)
    requires Runs(cell.cellType) ==>
               && f.Keys == BASE + {"execution_count", "outputs"}
               && f["execution_count"] == cell.executionCount && f["outputs"] == Arr(SerializeOutputs(cell.outputs))
    requires !Runs(cell.cellType) ==>
               f.Keys == BASE + (if cell.attachments.Some? then {"attachments"} else {})
               && (cell.attachments.Some? ==> f["attachments"] == Obj(cell.attachments.value))
    ensures CellJSON(cell) == Obj(f)
  {
    if Runs(cell.cellType) {
      CodeJSON(cell, f);
    } else if cell.attachments.Some? {
      AttachedJSON(cell, f);
    } else {
      PlainJSON(cell, f);
    }
  }

  lemma ReadBase(f: Record, index: nat, g: Generated, str: Printer)
    requires NormalCell(Obj(f))
    ensures var cell := CellOf(Obj(f), index, g, str);
            && f["id"] == Str(cell.id) && f["source"] == Str(cell.source)
            && f["cell_type"] == Str(TypeName(cell.cellType)) && f["metadata"] == Obj(cell.metadata)
            && (Runs(cell.cellType) <==> f["cell_type"] == Str("code"))
  {
  }

  lemma ReadCount(f: Record, index: nat, g: Generated, str: Printer)
    requires NormalCell(Obj(f)) && f["cell_type"] == Str("code") && Runs(CellOf(Obj(f), index, g, str).cellType)
    requires NoOtherFields(f)
    ensures f["execution_count"] == CellOf(Obj(f), index, g, str).executionCount
  {
    assert Field(f, "execution_count") == Some(f["execution_count"]) && Field(f, "executionCount").None?;
  }

  lemma ReadOutputs(f: Record, index: nat, g: Generated, str: Printer)
    requires Runs(CellOf(Obj(f), index, g, str).cellType) && NoOtherFields(f)
    requires "outputs" in f && f["outputs"].Arr? && NormalOutputs(f["outputs"].items)
    ensures f["outputs"] == Arr(SerializeOutputs(CellOf(Obj(f), index, g, str).outputs))
  {
    assert Field(f, "outputs") == Some(f["outputs"]) && Field(f, "output").None?;
    NormalOutputsFixed(f["outputs"].items, str);
  }

  lemma ReadText(f: Record, index: nat, g: Generated, str: Printer)
    requires NormalCell(Obj(f)) && f["cell_type"] != Str("code") && !Runs(CellOf(Obj(f), index, g, str).cellType)
    ensures var cell := CellOf(Obj(f), index, g, str);
            f.Keys == BASE + (if cell.attachments.Some? then {"attachments"} else {})
            && (cell.attachments.Some? ==> f["attachments"] == Obj(cell.attachments.value))
  {
  }

  lemma NormalCellFixed(f: Record, index: nat, g: Generated, str: Printer)
    requires NormalCell(Obj(f))
    ensures CellJSON(CellOf(Obj(f), index, g, str)) == Obj(f)
  {
    var cell := CellOf(Obj(f), index, g, str);
    ReadBase(f, index, g, str);
    MetadataFixed(f, index, g, str);
    if f["cell_type"] == Str("code") {
      NormalHasNoOther(f);
      ReadCount(f, index, g, str);
      ReadOutputs(f, index, g, str);
    } else {
      ReadText(f, index, g, str);
    }
    BaseJSON(cell, f);
  }

  lemma MetadataFixed(f: Record, index: nat, g: Generated, str: Printer)
    requires NormalCell(Obj(f))
    ensures var cell := CellOf(Obj(f), index, g, str);
            f["metadata"] == Obj(cell.metadata["lumen" := Obj(LumenOf(cell))])
  {
    var cell := CellOf(Obj(f), index, g, str);
    NormalHasNoOther(f);
    NormalLumenFixed(f, index, g, str);
    SameRecord(cell.metadata["lumen" := Obj(LumenOf(cell))], f["metadata"].fields);
  }

  lemma NormalCellsFixed(items: seq<Json>, g: Generated, str: Printer)
    requires items != [] && forall i :: 0 <= i < |items| ==> NormalCell(items[i])
    ensures CellsJSON(CellsOf(Some(Arr(items)), g, str)) == items
  {
    var cells := CellsOf(Some(Arr(items)), g, str);
    forall i | 0 <= i < |items|
      ensures CellsJSON(cells)[i] == items[i]
    {
      NormalCellFixed(items[i].fields, i, g, str);
    }
  }

  lemma NotebookLumenFixed(all: Record, n: Notebook)
    requires IsObject(Field(all, "lumen")) && NormalLumen(all["lumen"].fields)
    requires var l := all["lumen"].fields;
             l["id"] == Str(n.id) && l["title"] == Str(n.title) && l["created_at"] == Str(n.createdAt)
             && l["updated_at"] == Str(n.updatedAt)
    requires n.metadata == all - {"lumen"}
    ensures n.metadata["lumen" := Obj(NotebookLumen(n))] == all
  {
    SameRecord(NotebookLumen(n), all["lumen"].fields);
    SameRecord(n.metadata["lumen" := Obj(NotebookLumen(n))], all);
  }

  lemma ReadHead(f: Record, g: Generated, str: Printer)
    requires NormalHead(f)
    ensures var n := NotebookOf(Obj(f), g, str);
            var l := f["metadata"].fields["lumen"].fields;
            && l["id"] == Str(n.id) && l["title"] == Str(n.title) && l["created_at"] == Str(n.createdAt)
            && l["updated_at"] == Str(n.updatedAt)
            && n.metadata == f["metadata"].fields - {"lumen"} && n.minor == f["nbformat_minor"]
            && n.cells == CellsOf(Some(f["cells"]), g, str)
  {
  }

  lemma NormalFixed(f: Record, g: Generated, str: Printer)
    requires Normal(Obj(f))
    ensures Normalise(Obj(f), g, str) == Obj(f)
  {
    var n := NotebookOf(Obj(f), g, str);
    ReadHead(f, g, str);
    NormalCellsFixed(f["cells"].items, g, str);
    NotebookLumenFixed(f["metadata"].fields, n);
    HeadJSON(n, f);
  }

  lemma HeadJSON(n: Notebook, f: Record)
    requires NormalHead(f) && n.minor == f["nbformat_minor"] && Arr(CellsJSON(n.cells)) == f["cells"]
    requires n.metadata["lumen" := Obj(NotebookLumen(n))] == f["metadata"].fields
    ensures NotebookJSON(n) == Obj(f)
  {
    SameRecord(NotebookJSON(n).fields, f);
  }

  /** The documents that parse-and-print leaves alone, whatever it generates, are exactly the normal ones. */
  lemma FixedExactlyWhenNormal(j: Json, g: Generated, str: Printer)
    ensures Normalise(j, g, str) == j <==> Normal(j)
  {
    PrintedIsNormal(j, g, str);
    if Normal(j) {
      NormalFixed(j.fields, g, str);
    }
  }

  /** Normalisation is a projection on every JSON value: ids and times generated the first time are kept,
      and legacy fields, circuits, outputs and metadata are rewritten only once. */
  lemma Projection(value: Json, first: Generated, second: Generated, str: Printer)
    ensures Normalise(Normalise(value, first, str), second, str) == Normalise(value, first, str)
  {
    PrintedIsNormal(value, first, str);
    NormalFixed(Normalise(value, first, str).fields, second, str);
  }

  // ---------------------------------------------------------------------------------------------
  // What saving and loading again keeps.

  /** Two cells that differ only in what is not stored. */
  predicate SameContent(a: Cell, b: Cell) {
    && a.id == b.id && a.source == b.source && a.cellType == b.cellType
    && (Runs(a.cellType) ==>
          a.executionCount == b.executionCount && SerializeOutputs(a.outputs) == SerializeOutputs(b.outputs))
    && (a.cellType == Circuit ==> a.circuit == b.circuit)
    && (!Runs(a.cellType) ==> a.attachments == b.attachments)
  }

  lemma CircuitIsStored(cell: Cell)
    requires ParsedCell(cell)
    ensures cell.cellType == Circuit <==> Field(LumenOf(cell), "cell_type") == Some(Str("circuit"))
    ensures cell.cellType == Circuit ==> Field(LumenOf(cell), "circuit") == Some(Obj(cell.circuit))
  {
  }

  lemma BaseIsStored(cell: Cell)
    ensures var f := CellJSON(cell).fields;
            && Field(f, "id") == Some(Str(cell.id)) && Field(f, "source") == Some(Str(cell.source))
            && Field(f, "cell_type") == Some(Str(TypeName(cell.cellType)))
            && Field(AsRecord(Field(f, "metadata")), "lumen") == Some(Obj(LumenOf(cell)))
  {
  }

  lemma BodyIsStored(cell: Cell)
    ensures var f := CellJSON(cell).fields;
            if Runs(cell.cellType) then
              Field(f, "execution_count") == Some(cell.executionCount)
              && Field(f, "outputs") == Some(Arr(SerializeOutputs(cell.outputs)))
            else Field(f, "attachments") == (if cell.attachments.Some? then Some(Obj(cell.attachments.value)) else None)
  {
  }

  lemma SameJSON(a: Cell, b: Cell)
    requires ParsedCell(a) && ParsedCell(b) && CellJSON(a) == CellJSON(b)
    ensures SameContent(a, b)
  {
    BaseIsStored(a);
    BaseIsStored(b);
    CircuitIsStored(a);
    CircuitIsStored(b);
    assert a.cellType == b.cellType;
    BodyIsStored(a);
    BodyIsStored(b);
  }

  lemma ParsedCells(value: Option<Json>, g: Generated, str: Printer)
    ensures var cells := CellsOf(value, g, str); forall i :: 0 <= i < |cells| ==> ParsedCell(cells[i])
  {
    var cells := CellsOf(value, g, str);
    forall i | 0 <= i < |cells|
      ensures ParsedCell(cells[i])
    {
      if value.Some? && value.value.Arr? && value.value.items != [] {
        ParsedCellOf(value.value.items[i], i, g, str);
      }
    }
  }

  lemma HeadIsStored(n: Notebook)
    ensures var f := NotebookJSON(n).fields;
            && f["cells"] == Arr(CellsJSON(n.cells))
            && AsRecord(Field(AsRecord(Field(f, "metadata")), "lumen")) == NotebookLumen(n)
  {
  }

  lemma SameLumen(a: Notebook, b: Notebook)
    requires NotebookLumen(a) == NotebookLumen(b)
    ensures a.id == b.id && a.title == b.title && a.createdAt == b.createdAt && a.updatedAt == b.updatedAt
  {
    assert NotebookLumen(a)["id"] == Str(a.id) && NotebookLumen(b)["id"] == Str(b.id);
    assert NotebookLumen(a)["title"] == Str(a.title) && NotebookLumen(b)["title"] == Str(b.title);
    assert NotebookLumen(a)["created_at"] == Str(a.createdAt) && NotebookLumen(b)["created_at"] == Str(b.createdAt);
    assert NotebookLumen(a)["updated_at"] == Str(a.updatedAt) && NotebookLumen(b)["updated_at"] == Str(b.updatedAt);
  }

  /** A notebook read from any JSON value, saved and loaded again, is the same notebook: its identity and
      times, and every cell's id, kind, source, count, outputs as stored, circuit and attachments. */
  lemma ReloadKeeps(value: Json, first: Generated, second: Generated, str: Printer)
    ensures var a := NotebookOf(value, first, str);
            var b := NotebookOf(NotebookJSON(a), second, str);
            && a.id == b.id && a.title == b.title && a.createdAt == b.createdAt && a.updatedAt == b.updatedAt
            && |a.cells| == |b.cells| && forall i :: 0 <= i < |a.cells| ==> SameContent(a.cells[i], b.cells[i])
  {
    var a := NotebookOf(value, first, str);
    var b := NotebookOf(NotebookJSON(a), second, str);
    Projection(value, first, second, str);
    assert NotebookJSON(b) == NotebookJSON(a);
    HeadIsStored(a);
    HeadIsStored(b);
    SameLumen(a, b);
    ParsedCells(Field(AsRecord(Some(value)), "cells"), first, str);
    ParsedCells(Field(AsRecord(Some(NotebookJSON(a))), "cells"), second, str);
    assert |CellsJSON(a.cells)| == |a.cells| && |CellsJSON(b.cells)| == |b.cells|;
    forall i | 0 <= i < |a.cells|
      ensures SameContent(a.cells[i], b.cells[i])
    {
      assert CellsJSON(a.cells)[i] == CellsJSON(b.cells)[i];
      SameJSON(a.cells[i], b.cells[i]);
    }
  }

  // ---------------------------------------------------------------------------------------------
  // What does not always survive.

  /** The `lumen` entry the cell was read with. */
  function ReadLumen(cell: Cell): Record {
    AsRecord(Field(cell.metadata, "lumen"))
  }

  /** An empty label is not stored. */
  predicate HeadingSurvives(cell: Cell) {
    cell.heading == Some("") ==> Field(ReadLumen(cell), "label") == Some(Str(""))
  }

  /** A cell that is not new does not clear the mark of one that was. */
  predicate IsNewSurvives(cell: Cell) {
    cell.isNew || Field(ReadLumen(cell), "is_new") != Some(Bool(true))
  }

  /** The status is not stored; what is read back is what the metadata always said. */
  predicate StatusSurvives(cell: Cell) {
    cell.status == ValidStatus(Field(ReadLumen(cell), "status"))
  }

  /** The metadata have a `lumen` object, and it already says everything the printer writes to it. */
  predicate MetadataSurvives(cell: Cell) {
    && IsObject(Field(cell.metadata, "lumen"))
    && (cell.heading.Some? && cell.heading.value != "" ==>
          Field(ReadLumen(cell), "label") == Some(Str(cell.heading.value)))
    && (cell.isNew ==> Field(ReadLumen(cell), "is_new") == Some(Bool(true)))
    && (cell.cellType == Circuit ==>
          && Field(ReadLumen(cell), "cell_type") == Some(Str("circuit"))
          && Field(ReadLumen(cell), "circuit") == Some(Obj(cell.circuit)))
  }

  lemma StoredCircuit(cell: Cell)
    ensures cell.cellType == Circuit ==>
              && Field(LumenOf(cell), "cell_type") == Some(Str("circuit"))
              && Field(LumenOf(cell), "circuit") == Some(Obj(cell.circuit))
  {
  }

  /** The printer leaves the `lumen` entry alone exactly then. */
  lemma LumenKeptExactly(cell: Cell)
    ensures Field(cell.metadata, "lumen") == Some(Obj(LumenOf(cell))) <==> MetadataSurvives(cell)
  {
    if MetadataSurvives(cell) {
      LumenUnchanged(cell, ReadLumen(cell));
    } else if Field(cell.metadata, "lumen") == Some(Obj(LumenOf(cell))) {
      StoredLabels(cell);
      StoredCircuit(cell);
    }
  }

  lemma LabelsAreAbsent(cell: Cell)
    ensures var f := CellJSON(cell).fields; "label" !in f && "isNew" !in f && "status" !in f
  {
  }

  lemma StoredLabels(cell: Cell)
    ensures var l := LumenOf(cell);
            && Field(l, "label") ==
               (if cell.heading.Some? && cell.heading.value != "" then Some(Str(cell.heading.value))
                                     else Field(ReadLumen(cell), "label"))
            && Field(l, "is_new") == (if cell.isNew then Some(Bool(true)) else Field(ReadLumen(cell), "is_new"))
            && Field(l, "status") == Field(ReadLumen(cell), "status")
  {
  }

  /** A parsed heading is None only if the metadata has none either. */
  predicate HeadingParsed(cell: Cell) {
    cell.heading.None? ==> !IsString(Field(ReadLumen(cell), "label"))
  }

  lemma ReadBack(cell: Cell, index: nat, g: Generated, str: Printer)
    ensures var again, l := CellOf(CellJSON(cell), index, g, str), LumenOf(cell);
            && again.metadata == cell.metadata["lumen" := Obj(l)]
            && again.heading == FirstString(None, Field(l, "label"))
            && again.isNew == (Field(l, "is_new") == Some(Bool(true)))
            && again.status == ValidStatus(Field(l, "status"))
  {
    LabelsAreAbsent(cell);
    BaseIsStored(cell);
    MetadataIsStored(cell);
  }

  lemma MetadataIsStored(cell: Cell)
    ensures Field(CellJSON(cell).fields, "metadata") == Some(Obj(cell.metadata["lumen" := Obj(LumenOf(cell))]))
  {
  }

  /** Exactly when a cell's label, newness, status and metadata survive saving and loading. */
  lemma CellSurvivesExactly(cell: Cell, index: nat, g: Generated, str: Printer)
    requires HeadingParsed(cell)
    ensures var again := CellOf(CellJSON(cell), index, g, str);
            && (again.heading == cell.heading <==> HeadingSurvives(cell))
            && (again.isNew == cell.isNew <==> IsNewSurvives(cell))
            && (again.status == cell.status <==> StatusSurvives(cell))
            && (again.metadata == cell.metadata <==> MetadataSurvives(cell))
  {
    ReadBack(cell, index, g, str);
    StoredLabels(cell);
    LumenKeptExactly(cell);
    if MetadataSurvives(cell) {
      UpdateSame(cell.metadata, "lumen", Obj(LumenOf(cell)));
    } else {
      assert Field(cell.metadata["lumen" := Obj(LumenOf(cell))], "lumen") == Some(Obj(LumenOf(cell)));
    }
  }

  const OLD_LUMEN: Record := map["label" := Str("old"), "is_new" := Bool(true)]

  const RELABELLED: Record := map["label" := Str(""), "isNew" := Bool(false), "status" := Str("running"),
                                  "metadata" := Obj(map["lumen" := Obj(OLD_LUMEN)])]

  lemma RelabelledRead(index: nat, g: Generated, str: Printer)
    ensures var cell := CellOf(Obj(RELABELLED), index, g, str);
            && cell.heading == Some("") && !cell.isNew && cell.status == Running && ReadLumen(cell) == OLD_LUMEN
  {
    var f := RELABELLED;
    assert AsRecord(Field(f, "metadata")) == map["lumen" := Obj(OLD_LUMEN)];
    assert Field(f, "label") == Some(Str("")) && Field(f, "isNew") == Some(Bool(false));
    assert Field(f, "status") == Some(Str("running"));
  }

  lemma OldReadBack(cell: Cell, index: nat, g: Generated, str: Printer)
    requires cell.heading == Some("") && !cell.isNew && ReadLumen(cell) == OLD_LUMEN
    ensures var again := CellOf(CellJSON(cell), index, g, str);
            again.heading == Some("old") && again.isNew && again.status == Idle
  {
    ReadBack(cell, index, g, str);
    StoredLabels(cell);
  }

  /** A cell with an empty label, not new and running, over metadata that say otherwise: saved and loaded
      again it has the old label, is new and idle. */
  lemma LabelAndNewnessLost(index: nat, g: Generated, str: Printer)
    ensures var cell := CellOf(Obj(RELABELLED), index, g, str);
            var again := CellOf(CellJSON(cell), index, g, str);
            && cell.heading == Some("") && !cell.isNew && cell.status == Running
            && again.heading == Some("old") && again.isNew && again.status == Idle
  {
    RelabelledRead(index, g, str);
    OldReadBack(CellOf(Obj(RELABELLED), index, g, str), index, g, str);
  }

  lemma HeadingOfParsed(value: Json, index: nat, g: Generated, str: Printer)
    ensures HeadingParsed(CellOf(value, index, g, str))
  {
  }

  lemma CellsOfPrinted(n: Notebook, g: Generated, str: Printer)
    requires n.cells != []
    ensures var again := NotebookOf(NotebookJSON(n), g, str);
            && |again.cells| == |n.cells|
            && forall i :: 0 <= i < |n.cells| ==> again.cells[i] == CellOf(CellJSON(n.cells[i]), i, g, str)
  {
    HeadIsStored(n);
    var items := CellsJSON(n.cells);
    assert |items| == |n.cells| && Field(NotebookJSON(n).fields, "cells") == Some(Arr(items));
  }

  /** Saved and loaded again, a notebook keeps its own metadata, gets revision 0 and at least minor version
      5; and each of its cells keeps label, newness, status and metadata exactly under the cell's
      condition. */
  lemma ReloadSurvivesExactly(value: Json, first: Generated, second: Generated, str: Printer, i: nat)
    requires i < |NotebookOf(value, first, str).cells|
    ensures var a := NotebookOf(value, first, str);
            var b := NotebookOf(NotebookJSON(a), second, str);
            && b.metadata == a.metadata && b.revision == Int(0) && b.minor == AtLeastFive(a.minor)
            && i < |b.cells|
            && (b.cells[i].heading == a.cells[i].heading <==> HeadingSurvives(a.cells[i]))
            && (b.cells[i].isNew == a.cells[i].isNew <==> IsNewSurvives(a.cells[i]))
            && (b.cells[i].status == a.cells[i].status <==> StatusSurvives(a.cells[i]))
            && (b.cells[i].metadata == a.cells[i].metadata <==> MetadataSurvives(a.cells[i]))
  {
    var a := NotebookOf(value, first, str);
    CellsOfPrinted(a, second, str);
    HeadSurvives(value, first, second, str);
    HeadingsParsed(Field(AsRecord(Some(value)), "cells"), first, str, i);
    CellSurvivesExactly(a.cells[i], i, second, str);
  }

  lemma HeadingsParsed(value: Option<Json>, g: Generated, str: Printer, i: nat)
    requires i < |CellsOf(value, g, str)|
    ensures HeadingParsed(CellsOf(value, g, str)[i])
  {
    if value.Some? && value.value.Arr? && value.value.items != [] {
      HeadingOfParsed(value.value.items[i], i, g, str);
    }
  }

  lemma MetadataWithout(value: Json, g: Generated, str: Printer)
    ensures "lumen" !in NotebookOf(value, g, str).metadata
  {
  }

  lemma HeadReadBack(n: Notebook, g: Generated, str: Printer)
    requires "lumen" !in n.metadata && IsNumber(n.minor)
    ensures var again := NotebookOf(NotebookJSON(n), g, str);
            again.metadata == n.metadata && again.revision == Int(0) && again.minor == AtLeastFive(n.minor)
  {
    var f := NotebookJSON(n).fields;
    assert n.metadata["lumen" := Obj(NotebookLumen(n))] - {"lumen"} == n.metadata;
    assert Field(f, "metadata") == Some(Obj(n.metadata["lumen" := Obj(NotebookLumen(n))]));
    assert Field(f, "revision").None? && Field(f, "nbformat_minor") == Some(AtLeastFive(n.minor));
  }

  lemma HeadSurvives(value: Json, first: Generated, second: Generated, str: Printer)
    ensures var a := NotebookOf(value, first, str);
            var b := NotebookOf(NotebookJSON(a), second, str);
            b.metadata == a.metadata && b.revision == Int(0) && b.minor == AtLeastFive(a.minor)
  {
    MetadataWithout(value, first, str);
    ReadMinor(value, first, str);
    HeadReadBack(NotebookOf(value, first, str), second, str);
  }
}
