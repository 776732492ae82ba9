/** What each edit of the editor's notebook does to its cells, and what storing keeps of a cell
    (frontend/packages/notebook/src/adapters/docregistry/model.ts, frontend/packages/nbformat/src/index.ts). */
module NotebookEdits {
  import opened Common
  import opened Json
  import opened Outputs
  import opened NotebookHistory

  // ---------------------------------------------------------------------------------------------
  // Positions.

  /** `i` is the position of the first cell with the id. */
  predicate IsFirst(cells: seq<Cell>, id: string, i: nat) {
    i < |cells| && cells[i].id == id && forall j :: 0 <= j < i ==> cells[j].id != id
  }

  predicate NoneWith(cells: seq<Cell>, id: string) {
    forall j :: 0 <= j < |cells| ==> cells[j].id != id
  }

  lemma FoundFirst(cells: seq<Cell>, id: string)
    ensures IndexOf(cells, id) == |cells| <==> NoneWith(cells, id)
    ensures forall i: nat :: IsFirst(cells, id, i) ==> IndexOf(cells, id) == i
  {
  }

  /** The list with one cell more, at position `i`. */
  predicate HasMore(cells: seq<Cell>, i: nat, cell: Cell, after: seq<Cell>) {
    && |after| == |cells| + 1 && i < |after| && after[i] == cell
    && (forall j :: 0 <= j < i ==> after[j] == cells[j])
    && (forall j :: i <= j < |cells| ==> after[j + 1] == cells[j])
  }

  /** The list with another cell at position `i`. */
  predicate Differs(cells: seq<Cell>, i: nat, cell: Cell, after: seq<Cell>) {
    && |after| == |cells| && i < |after| && after[i] == cell
    && forall j :: 0 <= j < |cells| && j != i ==> after[j] == cells[j]
  }

  /** Everything but the cells. */
  predicate SameRest(n: Notebook, n': Notebook) {
    n'.nbformat == n.nbformat && n'.minor == n.minor && n'.metadata == n.metadata
  }

  // ---------------------------------------------------------------------------------------------
  // Inserting, deleting, moving.

  /** Where an insertion lands: at the index, counted from the end if negative, or at the nearer end. */
  predicate LandsAt(index: int, n: int, i: int) {
    && (0 <= index <= n ==> i == index) && (index > n ==> i == n)
    && (-n <= index < 0 ==> i == n + index) && (index < -n ==> i == 0)
  }

  /** A new cell of the kind. */
  predicate IsNewCell(cell: Cell, kind: string, source: string, id: string) {
    && cell.id == id && cell.source == source && cell.attachments == None
    && cell.cellType == (if kind == "circuit" then "code" else kind)
    && (cell.circuit <==> kind == "circuit") && (cell.wiring.Some? <==> kind == "circuit")
    && (MarkedCircuit(cell.metadata) <==> kind == "circuit") && (kind != "circuit" ==> cell.metadata == map[])
    && (if kind in {"code", "circuit"} then cell.executionCount == Some(Null) && cell.outputs == Some(Arr([]))
        else cell.executionCount == None && cell.outputs == None)
  }

  lemma CreatedIsNew(kind: string, source: string, id: string)
    ensures IsNewCell(CreateCell(kind, source, id), kind, source, id)
  {
  }

  /** An insertion puts a new cell where its index says, and leaves the others in their order. */
  lemma InsertLands(n: Notebook, index: int, kind: string, source: string, id: string)
    ensures var n' := Apply(n, InsertCell(index, kind, source, id));
            && n'.Some? && SameRest(n, n'.value)
            && exists i: nat, cell :: LandsAt(index, |n.cells|, i) && IsNewCell(cell, kind, source, id)
                                      && HasMore(n.cells, i, cell, n'.value.cells)
  {
    CreatedIsNew(kind, source, id);
    InsertsAt(n.cells, index, CreateCell(kind, source, id));
  }

  lemma InsertedHasMore(cells: seq<Cell>, i: nat, cell: Cell)
    requires i <= |cells|
    ensures HasMore(cells, i, cell, InsertAt(cells, i, cell))
  {
  }

  lemma InsertsAt(cells: seq<Cell>, index: int, cell: Cell)
    ensures var i := ClampIndex(index, |cells|);
            i <= |cells| && LandsAt(index, |cells|, i) && HasMore(cells, i, cell, InsertAt(cells, i, cell))
  {
    InsertedHasMore(cells, ClampIndex(index, |cells|), cell);
  }

  /** Inserting a copy of a cell: the same, with every field of the cell but its id. */
  lemma InsertValueLands(n: Notebook, index: int, cell: Cell, id: string)
    ensures var n' := Apply(n, InsertCellValue(index, cell, id));
            && n'.Some? && SameRest(n, n'.value)
            && exists i: nat, copy :: LandsAt(index, |n.cells|, i) && copy == cell.(id := id)
                                      && HasMore(n.cells, i, copy, n'.value.cells)
  {
    InsertsAt(n.cells, index, cell.(id := id));
  }

  lemma RemovedHadMore(cells: seq<Cell>, i: nat)
    requires i < |cells|
    ensures HasMore(RemoveAt(cells, i), i, cells[i], cells)
  {
  }

  /** A deletion takes away the first cell with the id, and nothing else; it does nothing exactly when there is none. */
  lemma DeleteTakesAway(n: Notebook, id: string)
    ensures var n' := Apply(n, EditCell(id, Remove));
            && (n'.None? <==> NoneWith(n.cells, id))
            && (n'.Some? ==>
                  && SameRest(n, n'.value)
                  && exists i: nat :: IsFirst(n.cells, id, i) && HasMore(n'.value.cells, i, n.cells[i], n.cells))
  {
    FoundFirst(n.cells, id);
    var i := IndexOf(n.cells, id);
    if i < |n.cells| {
      RemovedHadMore(n.cells, i);
      assert IsFirst(n.cells, id, i);
    }
  }

  /** A move takes the first cell with the id out and puts it at the target, and leaves the others in their order; it
      does nothing exactly when there is no such cell or the target is out of range. */
  lemma MoveLands(n: Notebook, id: string, to: int)
    ensures var n' := Apply(n, EditCell(id, MoveTo(to)));
            && (n'.None? <==> NoneWith(n.cells, id) || !(0 <= to < |n.cells|))
            && (n'.Some? ==>
                  && SameRest(n, n'.value)
                  && exists i: nat, rest :: && IsFirst(n.cells, id, i)
                                            && HasMore(rest, i, n.cells[i], n.cells)
                                            && HasMore(rest, to, n.cells[i], n'.value.cells))
  {
    FoundFirst(n.cells, id);
    var i := IndexOf(n.cells, id);
    if i < |n.cells| && 0 <= to < |n.cells| {
      var rest := RemoveAt(n.cells, i);
      RemovedHadMore(n.cells, i);
      InsertedHasMore(rest, to, n.cells[i]);
      assert IsFirst(n.cells, id, i);
    }
  }

  // ---------------------------------------------------------------------------------------------
  // Changing one cell.

  /** The first cell with the id becomes `next(cell)`, and nothing else changes. */
  ghost predicate OnlyBecomes(n: Notebook, id: string, next: Cell -> Cell, n': Notebook) {
    && SameRest(n, n')
    && exists i: nat :: IsFirst(n.cells, id, i) && Differs(n.cells, i, next(n.cells[i]), n'.cells)
  }

  ghost predicate FirstSatisfies(cells: seq<Cell>, id: string, p: Cell -> bool) {
    exists i: nat :: IsFirst(cells, id, i) && p(cells[i])
  }

  /** Setting the source of a cell changes that one field; it does nothing exactly when there is no such cell or it
      has that source already. */
  lemma SourceIsSet(n: Notebook, id: string, source: string)
    ensures var n' := Apply(n, EditCell(id, NewSource(source)));
            && (n'.None? <==> NoneWith(n.cells, id) || FirstSatisfies(n.cells, id, (c: Cell) => c.source == source))
            && (n'.Some? ==> OnlyBecomes(n, id, (c: Cell) => c.(source := source), n'.value))
  {
    FoundFirst(n.cells, id);
    var i := IndexOf(n.cells, id);
    assert i < |n.cells| ==> IsFirst(n.cells, id, i);
  }

  /** Outputs are always set. */
  lemma OutputsAreSet(n: Notebook, id: string, outputs: Json)
    ensures var n' := Apply(n, EditCell(id, NewOutputs(outputs)));
            && (n'.None? <==> NoneWith(n.cells, id))
            && (n'.Some? ==> OnlyBecomes(n, id, (c: Cell) => c.(outputs := Some(outputs)), n'.value))
  {
    FoundFirst(n.cells, id);
    var i := IndexOf(n.cells, id);
    assert i < |n.cells| ==> IsFirst(n.cells, id, i);
  }

  lemma CountIsSet(n: Notebook, id: string, count: Json)
    ensures var n' := Apply(n, EditCell(id, NewCount(count)));
            && (n'.None? <==> NoneWith(n.cells, id)
                              || FirstSatisfies(n.cells, id, (c: Cell) => c.executionCount == Some(count)))
            && (n'.Some? ==> OnlyBecomes(n, id, (c: Cell) => c.(executionCount := Some(count)), n'.value))
  {
    FoundFirst(n.cells, id);
    var i := IndexOf(n.cells, id);
    assert i < |n.cells| ==> IsFirst(n.cells, id, i);
  }

  /** A new cell of the kind, but for the metadata, which stay those of the old one. */
  predicate Retyped(cell: Cell, kind: string, next: Cell) {
    && next.metadata == cell.metadata
    && IsNewCell(next.(metadata := CreateCell(kind, cell.source, cell.id).metadata), kind, cell.source, cell.id)
  }

  /** Changing the type of a cell keeps its id, source and metadata and nothing else of it. */
  lemma TypeIsChanged(n: Notebook, id: string, kind: string)
    ensures var n' := Apply(n, EditCell(id, NewType(kind)));
            && (n'.None? <==> NoneWith(n.cells, id))
            && (n'.Some? ==>
                  && SameRest(n, n'.value)
                  && exists i: nat, next :: && IsFirst(n.cells, id, i) && Retyped(n.cells[i], kind, next)
                                            && Differs(n.cells, i, next, n'.value.cells))
  {
    FoundFirst(n.cells, id);
    var i := IndexOf(n.cells, id);
    if i < |n.cells| {
      var next := CreateCell(kind, n.cells[i].source, n.cells[i].id).(metadata := n.cells[i].metadata);
      CreatedIsNew(kind, n.cells[i].source, n.cells[i].id);
      assert IsFirst(n.cells, id, i) && Retyped(n.cells[i], kind, next);
      assert Differs(n.cells, i, next, n.cells[i := next]);
    }
  }

  // ---------------------------------------------------------------------------------------------
  // The stacks.

  /** A recorded edit puts the stored form on the undo stack, which keeps the last hundred, and empties the redo
      stack; an edit that changes nothing leaves both alone. */
  lemma EditRecords(s: Session, e: Edit)
    ensures var s', n' := Edited(s, e), Apply(s.notebook, e);
            && (n'.None? ==> s' == s)
            && (n'.Some? ==>
                  && s'.notebook == n'.value && s'.redo == []
                  && s'.undo == (if |s.undo| < 100 then s.undo else s.undo[1..]) + [ToJSON(s.notebook)])
  {
    if s.undo != [] {
      assert (s.undo + [ToJSON(s.notebook)])[1..] == s.undo[1..] + [ToJSON(s.notebook)];
    }
  }

  // ---------------------------------------------------------------------------------------------
  // What storing and parsing keep.

  predicate Unmarked(metadata: Record) {
    !("lumen" in metadata && metadata["lumen"].Obj? && "cell_type" in metadata["lumen"].fields
      && metadata["lumen"].fields["cell_type"] == Str("circuit"))
  }

  /** What a cell parsed from a stored one has of it. */
  predicate Kept(cell: Cell, again: Cell) {
    && again.source == cell.source && again.attachments == cell.attachments
    && (cell.id != "" ==> again.id == cell.id)
    && again.cellType == (if cell.circuit then "code" else cell.cellType)
    && (again.circuit <==> cell.circuit || !Unmarked(cell.metadata))
    && (if cell.cellType == "code" then
          && again.executionCount == (if cell.executionCount == None then Some(Null) else cell.executionCount)
          && again.outputs == (if cell.outputs in {None, Some(Null)} then Some(Arr([])) else cell.outputs)
        else again.executionCount == None && again.outputs == None)
    && (!cell.circuit ==> again.metadata == cell.metadata)
    && (forall k :: k in cell.metadata && k != "lumen" ==> k in again.metadata && again.metadata[k] == cell.metadata[k])
    && (cell.circuit && cell.wiring.Some? ==> again.wiring == cell.wiring)
  }

  /** A cell that is stored and parsed keeps its id, source, attachments, metadata and circuit; a code cell keeps its
      count and outputs. */
  lemma StoredKeeps(cell: Cell, index: nat, decimal: nat -> string)
    ensures Kept(cell, ParseCell(CellJSON(cell), index, decimal))
  {
    if cell.circuit {
      StoredCircuit(cell);
    }
  }

  /** And so does a whole notebook. */
  lemma NotebookKeeps(n: Notebook, decimal: nat -> string)
    requires n.nbformat != 0
    ensures var again := ParseNotebook(ToJSON(n), decimal);
            && SameRest(n, again) && |again.cells| == |n.cells|
            && forall i :: 0 <= i < |n.cells| ==> Kept(n.cells[i], again.cells[i])
  {
    var again := ParseNotebook(ToJSON(n), decimal);
    forall i | 0 <= i < |n.cells|
      ensures Kept(n.cells[i], again.cells[i])
    {
      StoredKeeps(n.cells[i], i, decimal);
      assert again.cells[i] == ParseCell(CellJSON(n.cells[i]), i, decimal);
    }
  }

  /** What parsing makes of a cell of a document. */
  lemma ParsedExactly(cell: DocCell, index: nat, decimal: nat -> string)
    ensures var c := ParseCell(cell, index, decimal);
            && c.source == TextOf(cell.source) && c.cellType == cell.cellType && c.attachments == cell.attachments
            && c.executionCount == cell.executionCount && c.outputs == cell.outputs
            && c.id == (if cell.id in {None, Some("")} then "cell-" + decimal(index) else cell.id.value)
            && c.metadata == (if cell.metadata.Obj? then cell.metadata.fields else map[])
            && (c.circuit <==> !Unmarked(c.metadata)) && (c.wiring.Some? <==> c.circuit)
            && (c.circuit ==> c.wiring == Some(match Field(c.metadata["lumen"].fields, "circuit")
                                               case Some(Obj(wiring)) => wiring
                                               case _ => map[]))
  {
  }

  /** The order of a document's lines is kept: see `TextOfParts`. */
  lemma ParsedSourceJoins(cell: DocCell, a: seq<string>, b: seq<string>, index: nat, decimal: nat -> string)
    ensures ParseCell(cell.(source := Parts(a + b)), index, decimal).source ==
            ParseCell(cell.(source := Parts(a)), index, decimal).source +
            ParseCell(cell.(source := Parts(b)), index, decimal).source
  {
    TextOfParts(a, b, "");
  }
}
