/** What a first reading makes of a notebook file, field by field (frontend/src/lib/notebookModel.ts). */
module NotebookReading {
  import opened Common
  import opened Json
  import opened Outputs
  import opened NotebookNormalisation

  // ---------------------------------------------------------------------------------------------
  // Fields.

  /** A field; null stands for an absent one too. */
  function At(f: Record, name: string): Json {
    if name in f then f[name] else Null
  }

  function ObjectAt(f: Record, name: string): Record {
    if name in f && f[name].Obj? then f[name].fields else map[]
  }

  /** String(). */
  function Written(value: Json, str: Printer): string {
    match value
    case Str(s) => s
    case _ => str(value)
  }

  /** The items written one after the other. */
  function Joined(items: seq<Json>, str: Printer): string
    decreases |items|
  {
    if items == [] then "" else Joined(items[..|items| - 1], str) + Written(items[|items| - 1], str)
  }

  /** The text of a source or a stream: a string, or a list of lines. */
  function TextAt(f: Record, name: string, str: Printer): string {
    match At(f, name)
    case Arr(items) => Joined(items, str)
    case Str(s) => s
    case _ => ""
  }

  lemma {:induction false} ConcatMore(items: seq<Json>, last: Json, str: Printer)
    ensures Concat(items + [last], str) == Concat(items, str) + Written(last, str)
    decreases |items|
  {
    if items == [] {
      assert [] + [last] == [last] && [last][1..] == [];
    } else {
      assert (items + [last])[1..] == items[1..] + [last];
      ConcatMore(items[1..], last, str);
    }
  }

  lemma {:induction false} ConcatIsJoined(items: seq<Json>, str: Printer)
    ensures Concat(items, str) == Joined(items, str)
    decreases |items|
  {
    if items != [] {
      var front, last := items[..|items| - 1], items[|items| - 1];
      ConcatIsJoined(front, str);
      ConcatMore(front, last, str);
      assert items == front + [last];
    }
  }

  lemma TextRead(f: Record, name: string, str: Printer)
    ensures SourceToString(Field(f, name), str) == TextAt(f, name, str)
  {
    if name in f && f[name].Arr? {
      ConcatIsJoined(f[name].items, str);
    }
  }

  lemma JoinedMore(front: seq<Json>, last: Json, str: Printer)
    ensures Joined(front + [last], str) == Joined(front, str) + Written(last, str)
  {
    assert (front + [last])[..|front|] == front;
  }

  lemma Associate(a: string, b: string, c: string)
    ensures a + b + c == a + (b + c)
  {
  }

  lemma JoinedStep(a: seq<Json>, front: seq<Json>, last: Json, str: Printer)
    requires Joined(a + front, str) == Joined(a, str) + Joined(front, str)
    ensures Joined(a + (front + [last]), str) == Joined(a, str) + Joined(front + [last], str)
  {
    assert a + (front + [last]) == a + front + [last];
    JoinedMore(a + front, last, str);
    JoinedMore(front, last, str);
    Associate(Joined(a, str), Joined(front, str), Written(last, str));
  }

  lemma {:induction false} JoinedConcat(a: seq<Json>, b: seq<Json>, str: Printer)
    ensures Joined(a + b, str) == Joined(a, str) + Joined(b, str)
    decreases |b|
  {
    if b == [] {
      assert a + b == a;
    } else {
      var front, last := b[..|b| - 1], b[|b| - 1];
      JoinedConcat(a, front, str);
      JoinedStep(a, front, last, str);
      assert b == front + [last];
    }
  }

  // ---------------------------------------------------------------------------------------------
  // Outputs.

  predicate IsKnown(item: Json) {
    && item.Obj?
    && At(item.fields, "output_type") in {Str("stream"), Str("error"), Str("display_data"), Str("execute_result"),
                                          Str("update_display_data")}
  }

  function KnownOnly(items: seq<Json>): (r: seq<Json>)
    ensures forall i :: 0 <= i < |r| ==> IsKnown(r[i])
    decreases |items|
  {
    if items == [] then []
    else
      var front, item := KnownOnly(items[..|items| - 1]), items[|items| - 1];
      if IsKnown(item) then front + [item] else front
  }

  predicate ReadsStream(o: Output, f: Record, str: Printer) {
    && o.Stream? && o.name in {"stdout", "stderr"} && (o.name == "stderr" <==> At(f, "name") == Str("stderr"))
    && TextOf(o.text) == TextAt(f, "text", str)
  }

  predicate ReadsError(o: Output, f: Record, str: Printer) {
    && o.Error?
    && o.ename == (if At(f, "ename") == Null then "Error" else Written(At(f, "ename"), str))
    && o.evalue == (if At(f, "evalue") == Null then "" else Written(At(f, "evalue"), str))
    && match At(f, "traceback")
       case Null => o.traceback == []
       case Arr(items) =>
         |o.traceback| == |items| && forall i :: 0 <= i < |items| ==> o.traceback[i] == Written(items[i], str)
       case value => o.traceback == [Written(value, str)]
  }

  predicate ReadsDisplay(o: Output, f: Record) {
    && o.Display?
    && (o.kind == DisplayData <==> At(f, "output_type") == Str("display_data"))
    && (o.kind == ExecuteResult <==> At(f, "output_type") == Str("execute_result"))
    && (o.kind == UpdateDisplay <==> At(f, "output_type") == Str("update_display_data"))
    && o.data == ObjectAt(f, "data") && o.metadata == Some(ObjectAt(f, "metadata"))
    && (if o.kind == ExecuteResult
        then o.executionCount == Some(if IsNumber(At(f, "execution_count")) then At(f, "execution_count") else Null)
        else o.executionCount == None)
    && (if At(f, "transient").Obj? then o.transient == Some(At(f, "transient").fields) else o.transient == None)
  }

  /** The output says what the item says. */
  predicate Reads(o: Output, item: Json, str: Printer) {
    && item.Obj?
    && if At(item.fields, "output_type") == Str("stream") then ReadsStream(o, item.fields, str)
       else if At(item.fields, "output_type") == Str("error") then ReadsError(o, item.fields, str)
       else ReadsDisplay(o, item.fields)
  }

  lemma ErrorRead(f: Record, str: Printer)
    requires At(f, "output_type") == Str("error")
    ensures OutputOf(Obj(f), str).Some? && ReadsError(OutputOf(Obj(f), str).value, f, str)
  {
  }

  lemma DisplayRead(f: Record, str: Printer)
    requires At(f, "output_type") in {Str("display_data"), Str("execute_result"), Str("update_display_data")}
    ensures OutputOf(Obj(f), str).Some? && ReadsDisplay(OutputOf(Obj(f), str).value, f)
  {
  }

  lemma StreamRead(f: Record, str: Printer)
    requires At(f, "output_type") == Str("stream")
    ensures OutputOf(Obj(f), str).Some? && ReadsStream(OutputOf(Obj(f), str).value, f, str)
  {
    TextRead(f, "text", str);
  }

  /** An item is read exactly when its type is known, and then says what the item says. */
  lemma OutputReadExactly(item: Json, str: Printer)
    ensures OutputOf(item, str).Some? <==> IsKnown(item)
    ensures IsKnown(item) ==> Reads(OutputOf(item, str).value, item, str)
  {
    if IsKnown(item) {
      var kind := At(item.fields, "output_type");
      if kind == Str("stream") {
        StreamRead(item.fields, str);
      } else if kind == Str("error") {
        ErrorRead(item.fields, str);
      } else {
        DisplayRead(item.fields, str);
      }
    }
  }

  ghost predicate ReadAll(outputs: seq<Output>, items: seq<Json>, str: Printer) {
    |outputs| == |items| && forall i :: 0 <= i < |outputs| ==> Reads(outputs[i], items[i], str)
  }

  lemma ReadOneMore(outputs: seq<Output>, items: seq<Json>, o: Output, item: Json, str: Printer)
    requires ReadAll(outputs, items, str) && Reads(o, item, str)
    ensures ReadAll(outputs + [o], items + [item], str)
  {
  }

  lemma OutputsMore(items: seq<Json>, str: Printer)
    requires items != []
    ensures var front, o := OutputsOf(items[..|items| - 1], str), OutputOf(items[|items| - 1], str);
            OutputsOf(items, str) == if o.Some? then front + [o.value] else front
  {
  }

  /** The outputs of a list are those of its known items, in order. */
  lemma {:induction false} OutputsReadExactly(items: seq<Json>, str: Printer)
    ensures ReadAll(OutputsOf(items, str), KnownOnly(items), str)
    decreases |items|
  {
    if items != [] {
      var front, item := items[..|items| - 1], items[|items| - 1];
      OutputsReadExactly(front, str);
      OutputReadExactly(item, str);
      OutputsMore(items, str);
      if IsKnown(item) {
        ReadOneMore(OutputsOf(front, str), KnownOnly(front), OutputOf(item, str).value, item, str);
      }
    }
  }

  // ---------------------------------------------------------------------------------------------
  // Cells.

  /** The `lumen` entry of the metadata. */
  function LumenAt(f: Record): Record {
    ObjectAt(ObjectAt(f, "metadata"), "lumen")
  }

  /** `cell_type`, or `type` as the first version called it. */
  function Declared(f: Record): Json {
    if At(f, "cell_type") != Null then At(f, "cell_type") else At(f, "type")
  }

  function CountAt(f: Record): Json {
    if At(f, "execution_count") != Null then At(f, "execution_count") else At(f, "executionCount")
  }

  function StatusAt(f: Record): Json {
    if At(f, "status") != Null then At(f, "status") else At(LumenAt(f), "status")
  }

  function ItemsAt(f: Record, name: string): seq<Json> {
    match At(f, name)
    case Arr(items) => items
    case _ => []
  }

  predicate TypeReadAs(cell: Cell, f: Record) {
    var marked := At(LumenAt(f), "cell_type") == Str("circuit");
    && (cell.cellType == Circuit <==> marked || Declared(f) == Str("circuit"))
    && (cell.cellType == Markdown <==> !marked && Declared(f) == Str("markdown"))
    && (cell.cellType == RawText <==> !marked && Declared(f) == Str("raw"))
  }

  predicate IdReadAs(cell: Cell, f: Record, index: nat, g: Generated) {
    match At(f, "id")
    case Str(id) => cell.id == (if id != "" then id else "cell-" + g.decimal(index) + "-" + g.uuid(index))
    case _ => cell.id == "cell-" + g.uuid(index)
  }

  /** The cell's own label, newness and status come before those of `lumen`. */
  predicate LabelsReadAs(cell: Cell, f: Record) {
    && (match At(f, "label")
        case Str(s) => cell.heading == Some(s)
        case _ =>
          match At(LumenAt(f), "label")
          case Str(s) => cell.heading == Some(s)
          case _ => cell.heading == None)
  }

  predicate NewnessReadAs(cell: Cell, f: Record) {
    && (match At(f, "isNew")
        case Bool(b) => cell.isNew == b
        case _ => cell.isNew <==> At(LumenAt(f), "is_new") == Bool(true))
  }

  predicate StatusReadAs(cell: Cell, f: Record) {
    && (cell.status == Running <==> StatusAt(f) == Str("running"))
    && (cell.status == Success <==> StatusAt(f) == Str("success"))
    && (cell.status == Failure <==> StatusAt(f) == Str("error"))
  }

  /** Counts and outputs, in the fields of either version, are read for cells that run. */
  ghost predicate RunReadAs(cell: Cell, f: Record, str: Printer) {
    if cell.cellType in {Markdown, RawText} then cell.executionCount == Null && cell.outputs == []
    else
      && cell.executionCount == (if IsNumber(CountAt(f)) then CountAt(f) else Null)
      && if At(f, "output").Str? && KnownOnly(ItemsAt(f, "outputs")) == [] then
           cell.outputs == [Stream("stdout", Whole(At(f, "output").s))]
         else ReadAll(cell.outputs, KnownOnly(ItemsAt(f, "outputs")), str)
  }

  predicate ExtrasReadAs(cell: Cell, f: Record) {
    && cell.metadata == ObjectAt(f, "metadata")
    && (cell.cellType == Circuit ==>
          cell.circuit == if At(LumenAt(f), "circuit").Obj? then At(LumenAt(f), "circuit").fields
                          else if At(f, "circuit").Obj? then At(f, "circuit").fields
                          else DefaultCircuit())
    && (cell.attachments ==
          if cell.cellType in {Markdown, RawText} && At(f, "attachments").Obj? then Some(At(f, "attachments").fields)
          else None)
  }

  lemma TypeRead(f: Record, index: nat, g: Generated, str: Printer)
    ensures TypeReadAs(CellOf(Obj(f), index, g, str), f)
  {
  }

  lemma IdRead(f: Record, index: nat, g: Generated, str: Printer)
    ensures IdReadAs(CellOf(Obj(f), index, g, str), f, index, g)
  {
  }

  lemma LabelsRead(f: Record, index: nat, g: Generated, str: Printer)
    ensures LabelsReadAs(CellOf(Obj(f), index, g, str), f)
  {
  }

  lemma LegacyRead(f: Record, str: Printer)
    ensures var outputs := WithLegacy(OutputsField(Field(f, "outputs"), str), Field(f, "output"));
            if At(f, "output").Str? && KnownOnly(ItemsAt(f, "outputs")) == [] then
              outputs == [Stream("stdout", Whole(At(f, "output").s))]
            else ReadAll(outputs, KnownOnly(ItemsAt(f, "outputs")), str)
  {
    OutputsReadExactly(ItemsAt(f, "outputs"), str);
    assert OutputsField(Field(f, "outputs"), str) == OutputsOf(ItemsAt(f, "outputs"), str);
  }

  lemma NewnessRead(f: Record, index: nat, g: Generated, str: Printer)
    ensures NewnessReadAs(CellOf(Obj(f), index, g, str), f)
  {
  }

  lemma StatusRead(f: Record, index: nat, g: Generated, str: Printer)
    ensures StatusReadAs(CellOf(Obj(f), index, g, str), f)
  {
  }

  lemma RunRead(f: Record, index: nat, g: Generated, str: Printer)
    ensures RunReadAs(CellOf(Obj(f), index, g, str), f, str)
  {
    LegacyRead(f, str);
  }

  lemma ExtrasRead(f: Record, index: nat, g: Generated, str: Printer)
    ensures ExtrasReadAs(CellOf(Obj(f), index, g, str), f)
  {
  }

  lemma SourceRead(f: Record, index: nat, g: Generated, str: Printer)
    ensures CellOf(Obj(f), index, g, str).source == TextAt(f, "source", str)
  {
    TextRead(f, "source", str);
  }

  /** What a first reading makes of a cell, field by field; a value that is not an object reads as an empty one. */
  lemma CellReadExactly(value: Json, index: nat, g: Generated, str: Printer)
    ensures var cell := CellOf(value, index, g, str);
            var f := if value.Obj? then value.fields else map[];
            && cell.source == TextAt(f, "source", str)
            && TypeReadAs(cell, f) && IdReadAs(cell, f, index, g)
            && LabelsReadAs(cell, f) && NewnessReadAs(cell, f) && StatusReadAs(cell, f)
            && RunReadAs(cell, f, str) && ExtrasReadAs(cell, f)
  {
    var f := if value.Obj? then value.fields else map[];
    assert CellOf(value, index, g, str) == CellOf(Obj(f), index, g, str);
    SourceRead(f, index, g, str);
    TypeRead(f, index, g, str);
    IdRead(f, index, g, str);
    LabelsRead(f, index, g, str);
    NewnessRead(f, index, g, str);
    StatusRead(f, index, g, str);
    RunRead(f, index, g, str);
    ExtrasRead(f, index, g, str);
  }

  /** The source a cell reads from a value. */
  function SourceFrom(f: Record, source: Json, index: nat, g: Generated, str: Printer): string {
    CellOf(Obj(f["source" := source]), index, g, str).source
  }

  lemma SourceIs(f: Record, source: Json, index: nat, g: Generated, str: Printer)
    ensures SourceFrom(f, source, index, g, str) ==
            match source { case Arr(items) => Joined(items, str) case Str(s) => s case _ => "" }
  {
    SourceRead(f["source" := source], index, g, str);
    assert At(f["source" := source], "source") == source;
  }

  /** A source list is read from its front to its back. */
  lemma SourceJoins(f: Record, a: seq<Json>, b: seq<Json>, s: string, index: nat, g: Generated, str: Printer)
    ensures SourceFrom(f, Arr(a + b), index, g, str) ==
            SourceFrom(f, Arr(a), index, g, str) + SourceFrom(f, Arr(b), index, g, str)
    ensures SourceFrom(f, Arr([Str(s)]), index, g, str) == SourceFrom(f, Str(s), index, g, str) == s
    ensures SourceFrom(f, Arr([]), index, g, str) == ""
  {
    SourceIs(f, Arr(a + b), index, g, str);
    SourceIs(f, Arr(a), index, g, str);
    SourceIs(f, Arr(b), index, g, str);
    SourceIs(f, Arr([Str(s)]), index, g, str);
    SourceIs(f, Str(s), index, g, str);
    SourceIs(f, Arr([]), index, g, str);
    JoinedConcat(a, b, str);
    JoinedOne(s, str);
  }

  lemma JoinedOne(s: string, str: Printer)
    ensures Joined([Str(s)], str) == s && Joined([], str) == ""
  {
    assert [Str(s)][..0] == [];
  }

  /** The text a stream reads from a value. */
  function StreamFrom(f: Record, text: Json, str: Printer): string {
    match OutputOf(Obj(f["output_type" := Str("stream")]["text" := text]), str)
    case Some(Stream(_, t)) => TextOf(t)
    case _ => ""
  }

  lemma StreamIs(f: Record, text: Json, str: Printer)
    ensures StreamFrom(f, text, str) ==
            match text { case Arr(items) => Joined(items, str) case Str(s) => s case _ => "" }
  {
    var m := f["output_type" := Str("stream")]["text" := text];
    assert At(m, "text") == text && At(m, "output_type") == Str("stream");
    StreamRead(m, str);
  }

  /** And so is the text of a stream. */
  lemma StreamJoins(f: Record, a: seq<Json>, b: seq<Json>, s: string, str: Printer)
    ensures StreamFrom(f, Arr(a + b), str) == StreamFrom(f, Arr(a), str) + StreamFrom(f, Arr(b), str)
    ensures StreamFrom(f, Arr([Str(s)]), str) == StreamFrom(f, Str(s), str) == s
    ensures StreamFrom(f, Arr([]), str) == ""
  {
    StreamIs(f, Arr(a + b), str);
    StreamIs(f, Arr(a), str);
    StreamIs(f, Arr(b), str);
    StreamIs(f, Arr([Str(s)]), str);
    StreamIs(f, Str(s), str);
    StreamIs(f, Arr([]), str);
    JoinedConcat(a, b, str);
    JoinedOne(s, str);
  }

  // ---------------------------------------------------------------------------------------------
  // Notebooks.

  function StringAt(f: Record, lumen: Record, own: string, stored: string, default: string): string {
    match At(f, own)
    case Str(s) => s
    case _ =>
      match At(lumen, stored)
      case Str(s) => s
      case _ => default
  }

  predicate HeadReadAs(n: Notebook, f: Record, g: Generated) {
    && n.id == StringAt(f, LumenAt(f), "id", "id", "notebook-" + g.notebookUuid)
    && n.title == StringAt(f, LumenAt(f), "title", "title", "未命名 Notebook")
    && n.createdAt == StringAt(f, LumenAt(f), "createdAt", "created_at", g.now)
    && n.updatedAt == StringAt(f, LumenAt(f), "updatedAt", "updated_at", g.now)
  }

  predicate NumbersReadAs(n: Notebook, f: Record) {
    && n.revision == (if IsNumber(At(f, "revision")) then At(f, "revision") else Int(0))
    && n.minor == (if IsNumber(At(f, "nbformat_minor")) then At(f, "nbformat_minor") else Int(5))
    && n.metadata == ObjectAt(f, "metadata") - {"lumen"}
  }

  lemma StringRead(f: Record, lumen: Record, own: string, stored: string, default: string)
    ensures StringOr(Field(f, own), Field(lumen, stored), default) == StringAt(f, lumen, own, stored, default)
  {
  }

  lemma HeadRead(f: Record, g: Generated, str: Printer)
    ensures HeadReadAs(NotebookOf(Obj(f), g, str), f, g)
  {
    StringRead(f, LumenAt(f), "id", "id", "notebook-" + g.notebookUuid);
    StringRead(f, LumenAt(f), "title", "title", UNTITLED);
    StringRead(f, LumenAt(f), "createdAt", "created_at", g.now);
    StringRead(f, LumenAt(f), "updatedAt", "updated_at", g.now);
    assert AsRecord(Field(AsRecord(Field(f, "metadata")), "lumen")) == LumenAt(f);
  }

  lemma NumbersRead(f: Record, g: Generated, str: Printer)
    ensures NumbersReadAs(NotebookOf(Obj(f), g, str), f)
  {
  }

  lemma CellsRead(f: Record, g: Generated, str: Printer)
    ensures var cells, items := NotebookOf(Obj(f), g, str).cells, ItemsAt(f, "cells");
            if items == [] then cells == [EmptyCell(g)]
            else |cells| == |items| && forall i :: 0 <= i < |items| ==> cells[i] == CellOf(items[i], i, g, str)
  {
  }

  /** What a first reading makes of a notebook: its own fields come before those of `lumen`, every item of the cells
      is a cell, and a notebook without any gets a new one. */
  lemma NotebookReadExactly(value: Json, g: Generated, str: Printer)
    ensures var n := NotebookOf(value, g, str);
            var f := if value.Obj? then value.fields else map[];
            var items := ItemsAt(f, "cells");
            && HeadReadAs(n, f, g) && NumbersReadAs(n, f)
            && if items == [] then n.cells == [EmptyCell(g)]
               else |n.cells| == |items| && forall i :: 0 <= i < |items| ==> n.cells[i] == CellOf(items[i], i, g, str)
  {
    var f := if value.Obj? then value.fields else map[];
    assert NotebookOf(value, g, str) == NotebookOf(Obj(f), g, str);
    HeadRead(f, g, str);
    NumbersRead(f, g, str);
    CellsRead(f, g, str);
  }

  /** The new cell is a code cell that is marked as new, and otherwise empty. */
  lemma NewCellIsEmpty(g: Generated)
    ensures var cell := EmptyCell(g);
            && cell.cellType == Code && cell.isNew && cell.source == "" && cell.outputs == [] && cell.heading == None
            && cell.executionCount == Null && cell.metadata == map[] && cell.status == Idle && cell.id != ""
  {
  }

  // ---------------------------------------------------------------------------------------------
  // What printing keeps of an output.

  /** What is stored of an output that was read: an update becomes a plain display, and transient data are left out. */
  function Kept(o: Output): Output {
    match o
    case Display(kind, data, metadata, count, _) =>
      Display(if kind == UpdateDisplay then DisplayData else kind, data, metadata, count, None)
    case _ => o
  }

  lemma TracebackKept(items: seq<string>, str: Printer)
    ensures Traceback(Some(Arr(Strings(items))), str) == items
  {
  }

  lemma PlainDisplayKept(o: Output, str: Printer)
    requires o.Display? && o.kind != ExecuteResult && o.metadata.Some? && o.executionCount == None
    ensures OutputOf(SerializeOutput(o), str) == Some(Kept(o))
  {
  }

  lemma ResultKept(o: Output, str: Printer)
    requires o.Display? && o.kind == ExecuteResult && o.metadata.Some? && o.executionCount.Some?
    requires IsNumber(o.executionCount.value) || o.executionCount.value == Null
    ensures OutputOf(SerializeOutput(o), str) == Some(Kept(o))
  {
  }

  lemma StreamKept(o: Output, str: Printer)
    requires o.Stream? && o.name in {"stdout", "stderr"} && o.text.Whole?
    ensures OutputOf(SerializeOutput(o), str) == Some(Kept(o))
  {
  }

  lemma ErrorKept(o: Output, str: Printer)
    requires o.Error?
    ensures OutputOf(SerializeOutput(o), str) == Some(Kept(o))
  {
    TracebackKept(o.traceback, str);
  }

  lemma ReadShape(item: Json, str: Printer)
    requires OutputOf(item, str).Some?
    ensures var o := OutputOf(item, str).value;
            && (o.Stream? ==> o.name in {"stdout", "stderr"} && o.text.Whole?)
            && (o.Display? ==> o.metadata.Some?)
            && (o.Display? && o.kind != ExecuteResult ==> o.executionCount == None)
            && (o.Display? && o.kind == ExecuteResult ==>
                  o.executionCount.Some? && (IsNumber(o.executionCount.value) || o.executionCount.value == Null))
  {
  }

  /** An output that was read is read again from what is printed of it, whole but for that. */
  lemma OutputSurvives(item: Json, str: Printer)
    requires OutputOf(item, str).Some?
    ensures OutputOf(SerializeOutput(OutputOf(item, str).value), str) == Some(Kept(OutputOf(item, str).value))
  {
    var o := OutputOf(item, str).value;
    ReadShape(item, str);
    match o
    case Stream(_, _) => StreamKept(o, str);
    case Error(_, _, _) => ErrorKept(o, str);
    case Display(kind, _, _, _, _) =>
      if kind == ExecuteResult { ResultKept(o, str); } else { PlainDisplayKept(o, str); }
  }

  /** The minor version that is printed: at least 5. */
  lemma MinorPrinted(n: Notebook)
    ensures Field(NotebookJSON(n).fields, "nbformat") == Some(Int(4))
    ensures Field(NotebookJSON(n).fields, "nbformat_minor") ==
            match n.minor
            case Int(i) => Some(Int(if i >= 5 then i else 5))
            case Float(r) => Some(if r >= 5.0 then Float(r) else Int(5))
            case other => Some(other)
  {
  }
}
