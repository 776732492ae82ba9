/** Normalisation and validation of notebook documents on the server
    (notebook-service/app/nbformat_codec.py). */
module CellIds {
  import opened Common
  import opened Json

  /** Where and why a document is refused. */
  datatype Fault =
    | NotAnObject
    | WrongFormat
    | MinorNotInteger
    | MinorTooLow
    | CellsNotAList
    | CellNotAnObject(index: nat)
    | IdMissing(index: nat)
    | IdMalformed(index: nat)
    | IdRepeated(index: nat)
    | Schema(message: string)

  /** The official schema: the message of the first violation, if any. */
  type SchemaCheck = Json -> Option<string>

  const MIN_MINOR := 5

  // ---------------------------------------------------------------------------------------------
  // Ids.

  predicate IdChar(c: char) {
    'A' <= c <= 'Z' || 'a' <= c <= 'z' || '0' <= c <= '9' || c == '_' || c == '-'
  }

  predicate IdBody(s: string) {
    1 <= |s| <= 64 && forall i :: 0 <= i < |s| ==> IdChar(s[i])
  }

  /** `match` of ^[A-Za-z0-9_-]{1,64}$. In Python `$` also matches before a newline that ends the string. */
  predicate ValidId(s: string) {
    IdBody(s) || (s != "" && s[|s| - 1] == '\n' && IdBody(s[..|s| - 1]))
  }

  function IdOf(cell: Json): Option<Json> {
    if cell.Obj? then Field(cell.fields, "id") else None
  }

  predicate HasId(cell: Json, id: string) {
    IdOf(cell) == Some(Str(id))
  }

  predicate UsedId(cells: seq<Json>, id: string) {
    exists j :: 0 <= j < |cells| && HasId(cells[j], id)
  }

  /** The cell keeps its id: a valid one that no earlier cell uses. */
  predicate KeepsId(before: seq<Json>, cell: Json) {
    match IdOf(cell)
    case Some(Str(id)) => ValidId(id) && !UsedId(before, id)
    case _ => false
  }

  function WithId(cell: Json, id: string): Json {
    if cell.Obj? then Obj(cell.fields["id" := Str(id)]) else cell
  }

  /** The cell the loop leaves at `index`, after the ones before it. */
  function FixedCell(before: seq<Json>, cell: Json, index: nat, generate: nat -> string): Json {
    if KeepsId(before, cell) then cell else WithId(cell, generate(index))
  }

  /** The loop of normalize_for_create; `generate(i)` is the id generated for cell i. */
  function FixIds(cells: seq<Json>, generate: nat -> string): (r: seq<Json>)
    ensures |r| == |cells|
    decreases |cells|
  {
    if cells == [] then []
    else
      var n := |cells| - 1;
      var front := FixIds(cells[..n], generate);
      front + [FixedCell(front, cells[n], n, generate)]
  }

  /** What validate_for_save objects to in one cell's id, after the cells before it. */
  function IdFault(before: seq<Json>, cell: Json, index: nat): Option<Fault> {
    match IdOf(cell)
    case Some(Str(id)) =>
      if !ValidId(id) then Some(IdMalformed(index)) else if UsedId(before, id) then Some(IdRepeated(index)) else None
    case _ => Some(IdMissing(index))
  }

  function FirstIdFault(cells: seq<Json>): Option<Fault>
    decreases |cells|
  {
    if cells == [] then None
    else
      var n := |cells| - 1;
      var earlier := FirstIdFault(cells[..n]);
      if earlier.Some? then earlier else IdFault(cells[..n], cells[n], n)
  }

  function FirstNonObject(cells: seq<Json>): (i: nat)
    ensures i <= |cells| && (forall j :: 0 <= j < i ==> cells[j].Obj?) && (i < |cells| ==> !cells[i].Obj?)
  {
    if cells == [] || !cells[0].Obj? then 0 else 1 + FirstNonObject(cells[1..])
  }

  // ---------------------------------------------------------------------------------------------
  // Documents.

  /** `doc.get("nbformat") != 4` with Python's numeric equality. */
  predicate IsFour(value: Option<Json>) {
    value == Some(Int(4)) || value == Some(Float(4.0))
  }

  /** The checks both entry points make before they look at the minor version. */
  function TopFault(doc: Json): Option<Fault> {
    if !doc.Obj? then Some(NotAnObject)
    else if !IsFour(Field(doc.fields, "nbformat")) then Some(WrongFormat)
    else
      match Field(doc.fields, "nbformat_minor")
      case Some(Int(_)) => None
      case _ => Some(MinorNotInteger)
  }

  function CellsFault(doc: Record): Option<Fault> {
    match Field(doc, "cells")
    case Some(Arr(cells)) =>
      var i := FirstNonObject(cells);
      if i < |cells| then Some(CellNotAnObject(i)) else None
    case _ => Some(CellsNotAList)
  }

  function AtLeastMin(minor: int): int {
    if minor < MIN_MINOR then MIN_MINOR else minor
  }

  function CheckSchema(doc: Json, schema: SchemaCheck): Result<Json, Fault> {
    match schema(doc)
    case None => Ok(doc)
    case Some(message) => Err(Schema(message))
  }

  /** normalize_for_create. */
  function Normalized(content: Json, generate: nat -> string, schema: SchemaCheck): Result<Json, Fault> {
    if TopFault(content).Some? then Err(TopFault(content).value)
    else if CellsFault(content.fields).Some? then Err(CellsFault(content.fields).value)
    else
      var minor := AtLeastMin(content.fields["nbformat_minor"].i);
      var cells := FixIds(content.fields["cells"].items, generate);
      CheckSchema(Obj(content.fields["nbformat_minor" := Int(minor)]["cells" := Arr(cells)]), schema)
  }

  /** The checks validate_for_save makes itself, in its order. */
  function OwnFault(content: Json): Option<Fault> {
    if TopFault(content).Some? then TopFault(content)
    else if content.fields["nbformat_minor"].i < MIN_MINOR then Some(MinorTooLow)
    else if CellsFault(content.fields).Some? then CellsFault(content.fields)
    else FirstIdFault(content.fields["cells"].items)
  }

  /** validate_for_save. */
  function Validated(content: Json, schema: SchemaCheck): Result<Json, Fault> {
    if OwnFault(content).Some? then Err(OwnFault(content).value) else CheckSchema(content, schema)
  }

  // ---------------------------------------------------------------------------------------------
  // The code's own form.

  function IdStrings(cells: seq<Json>): set<string> {
    set j | 0 <= j < |cells| && IdOf(cells[j]).Some? && IdOf(cells[j]).value.Str? :: IdOf(cells[j]).value.s
  }

  lemma IdStringsAre(cells: seq<Json>, id: string)
    ensures id in IdStrings(cells) <==> UsedId(cells, id)
  {
  }

  lemma IdStringsMore(cells: seq<Json>, cell: Json, id: string)
    requires HasId(cell, id)
    ensures IdStrings(cells + [cell]) == IdStrings(cells) + {id}
  {
    forall s
      ensures s in IdStrings(cells + [cell]) <==> s in IdStrings(cells) + {id}
    {
      IdStringsAre(cells + [cell], s);
      IdStringsAre(cells, s);
      if j :| 0 <= j < |cells| && HasId(cells[j], s) {
        assert HasId((cells + [cell])[j], s);
      }
      assert (cells + [cell])[|cells|] == cell;
    }
  }

  lemma FixNext(original: seq<Json>, index: nat, generate: nat -> string)
    requires index < |original|
    ensures var before := FixIds(original[..index], generate);
            FixIds(original[..index + 1], generate) == before + [FixedCell(before, original[index], index, generate)]
  {
    assert original[..index + 1][..index] == original[..index];
  }

  lemma SetAt(cells: seq<Json>, index: nat, cell: Json)
    requires index < |cells|
    ensures cells[index := cell][..index + 1] == cells[..index] + [cell]
    ensures cells[index := cell][index + 1..] == cells[index + 1..]
  {
  }

  lemma KeepsWhen(before: seq<Json>, cell: Json, seen: set<string>)
    requires seen == IdStrings(before)
    ensures KeepsId(before, cell) <==>
            IdOf(cell).Some? && IdOf(cell).value.Str? && ValidId(IdOf(cell).value.s) && IdOf(cell).value.s !in seen
  {
    if IdOf(cell).Some? && IdOf(cell).value.Str? {
      IdStringsAre(before, IdOf(cell).value.s);
    }
  }

  method FixCellIds(original: seq<Json>, generate: nat -> string) returns (cells: seq<Json>)
    requires forall i :: 0 <= i < |original| ==> original[i].Obj?
    ensures cells == FixIds(original, generate)
  {
    cells := original;
    var seen: set<string> := {};
    var index := 0;
    while index < |cells|
      invariant 0 <= index <= |cells| == |original|
      invariant cells[..index] == FixIds(original[..index], generate) && cells[index..] == original[index..]
      invariant seen == IdStrings(cells[..index])
    {
      ghost var before := cells[..index];
      assert cells[index] == cells[index..][0];
      var cell := cells[index];
      var cellId := IdOf(cell);
      KeepsWhen(before, cell, seen);
      FixNext(original, index, generate);
      if !(cellId.Some? && cellId.value.Str?) || !ValidId(cellId.value.s) || cellId.value.s in seen {
        cell := Obj(cell.fields["id" := Str(generate(index))]);
      }
      SetAt(cells, index, cell);
      IdStringsMore(before, cell, IdOf(cell).value.s);
      cells := cells[index := cell];
      seen := seen + {IdOf(cell).value.s};
      index := index + 1;
    }
    assert original[..|original|] == original && cells[..|original|] == cells;
  }

  method NormalizeForCreate(content: Json, generate: nat -> string, schema: SchemaCheck)
    returns (r: Result<Json, Fault>)
    ensures r == Normalized(content, generate, schema)
  {
    if TopFault(content).Some? {
      return Err(TopFault(content).value);
    }
    var doc := content.fields;
    var minor := doc["nbformat_minor"].i;
    doc := doc["nbformat_minor" := Int(AtLeastMin(minor))];
    assert Field(doc, "cells") == Field(content.fields, "cells");
    if CellsFault(doc).Some? {
      return Err(CellsFault(doc).value);
    }
    var cells := FixCellIds(doc["cells"].items, generate);
    doc := doc["cells" := Arr(cells)];
    return CheckSchema(Obj(doc), schema);
  }

  method FindIdFault(cells: seq<Json>) returns (fault: Option<Fault>)
    ensures fault == FirstIdFault(cells)
  {
    var seen: set<string> := {};
    var index := 0;
    while index < |cells|
      invariant 0 <= index <= |cells|
      invariant FirstIdFault(cells[..index]).None? && seen == IdStrings(cells[..index])
    {
      FaultAt(cells, index);
      var cellId := IdOf(cells[index]);
      if !(cellId.Some? && cellId.value.Str?) {
        return Some(IdMissing(index));
      }
      var id := cellId.value.s;
      IdStringsAre(cells[..index], id);
      if !ValidId(id) {
        return Some(IdMalformed(index));
      }
      if id in seen {
        return Some(IdRepeated(index));
      }
      IdStringsMore(cells[..index], cells[index], id);
      assert cells[..index + 1] == cells[..index] + [cells[index]];
      seen := seen + {id};
      index := index + 1;
    }
    assert cells[..|cells|] == cells;
    return None;
  }

  /** The first cell that is objected to decides. */
  lemma FaultAt(cells: seq<Json>, k: nat)
    requires k < |cells| && FirstIdFault(cells[..k]).None?
    ensures FirstIdFault(cells[..k + 1]) == IdFault(cells[..k], cells[k], k)
    ensures IdFault(cells[..k], cells[k], k).Some? ==> FirstIdFault(cells) == IdFault(cells[..k], cells[k], k)
  {
    var upTo := cells[..k + 1];
    assert upTo[..k] == cells[..k] && upTo[k] == cells[k];
    if FirstIdFault(upTo).Some? {
      FaultStays(cells, k + 1);
    }
  }

  lemma {:induction false} FaultStays(cells: seq<Json>, k: nat)
    requires k <= |cells| && FirstIdFault(cells[..k]).Some?
    ensures FirstIdFault(cells) == FirstIdFault(cells[..k])
    decreases |cells|
  {
    if k == |cells| {
      assert cells[..k] == cells;
    } else {
      assert cells[..|cells| - 1][..k] == cells[..k];
      FaultStays(cells[..|cells| - 1], k);
    }
  }

  method ValidateForSave(content: Json, schema: SchemaCheck) returns (r: Result<Json, Fault>)
    ensures r == Validated(content, schema)
  {
    if TopFault(content).Some? {
      return Err(TopFault(content).value);
    }
    var doc := content.fields;
    if doc["nbformat_minor"].i < MIN_MINOR {
      return Err(MinorTooLow);
    }
    if CellsFault(doc).Some? {
      return Err(CellsFault(doc).value);
    }
    var fault := FindIdFault(doc["cells"].items);
    if fault.Some? {
      return Err(fault.value);
    }
    return CheckSchema(content, schema);
  }

  // ---------------------------------------------------------------------------------------------
  // What normalisation does to the ids.

  predicate AllObjects(cells: seq<Json>) {
    forall i :: 0 <= i < |cells| ==> cells[i].Obj?
  }

  /** The ids generated for the cells are valid, distinct and not used in the document. */
  ghost predicate Generates(generate: nat -> string, cells: seq<Json>) {
    && (forall i :: 0 <= i < |cells| ==> ValidId(generate(i)) && !UsedId(cells, generate(i)))
    && forall i, j :: 0 <= i < j < |cells| ==> generate(i) != generate(j)
  }

  /** The first use of a valid id keeps it. */
  predicate FirstValidUse(cells: seq<Json>, i: nat)
    requires i < |cells|
  {
    KeepsId(cells[..i], cells[i])
  }

  lemma {:induction false} FixedAt(cells: seq<Json>, i: nat, generate: nat -> string)
    requires i < |cells|
    ensures FixIds(cells, generate)[i] ==
            if KeepsId(FixIds(cells[..i], generate), cells[i]) then cells[i] else WithId(cells[i], generate(i))
    decreases |cells|
  {
    var n := |cells| - 1;
    if i < n {
      FixedAt(cells[..n], i, generate);
      assert cells[..n][..i] == cells[..i];
    }
  }

  lemma UsedFront(cells: seq<Json>, k: nat, id: string)
    requires k <= |cells|
    ensures UsedId(cells[..k], id) ==> UsedId(cells, id)
  {
    if j :| 0 <= j < k && HasId(cells[..k][j], id) {
      assert HasId(cells[j], id);
    }
  }

  lemma GeneratesFront(generate: nat -> string, cells: seq<Json>, k: nat)
    requires Generates(generate, cells) && k <= |cells|
    ensures Generates(generate, cells[..k])
  {
    forall i | 0 <= i < k
      ensures !UsedId(cells[..k], generate(i))
    {
      UsedFront(cells, k, generate(i));
    }
  }

  /** The last step of the loop, for one id that is not the one it may generate. */
  lemma UsedStep(front: seq<Json>, cell: Json, id: string, generate: nat -> string)
    requires cell.Obj? && generate(|front|) != id
    ensures UsedId(FixIds(front + [cell], generate), id) <==>
            UsedId(FixIds(front, generate), id) || (KeepsId(FixIds(front, generate), cell) && HasId(cell, id))
  {
    var fixed := FixIds(front, generate);
    FixMore(front, cell, generate);
    UsedMore(fixed, FixedCell(fixed, cell, |front|, generate), id);
  }

  /** A valid id of the document is in use after the loop exactly when some cell held it. */
  lemma {:induction false} UsedAfter(cells: seq<Json>, id: string, generate: nat -> string)
    requires AllObjects(cells) && ValidId(id) && forall i :: 0 <= i < |cells| ==> generate(i) != id
    ensures UsedId(FixIds(cells, generate), id) <==> UsedId(cells, id)
    decreases |cells|
  {
    if cells != [] {
      var front, cell := cells[..|cells| - 1], cells[|cells| - 1];
      assert cells == front + [cell];
      UsedAfter(front, id, generate);
      UsedStep(front, cell, id, generate);
      UsedMore(front, cell, id);
    }
  }

  lemma UsedMore(cells: seq<Json>, cell: Json, id: string)
    ensures UsedId(cells + [cell], id) <==> UsedId(cells, id) || HasId(cell, id)
  {
    assert (cells + [cell])[|cells|] == cell;
    if j :| 0 <= j < |cells| && HasId(cells[j], id) {
      assert HasId((cells + [cell])[j], id);
    }
  }

  /** The loop brings no id into use but those it generates. */
  lemma {:induction false} UnusedAfter(cells: seq<Json>, id: string, generate: nat -> string)
    requires AllObjects(cells) && !UsedId(cells, id) && forall i :: 0 <= i < |cells| ==> generate(i) != id
    ensures !UsedId(FixIds(cells, generate), id)
    decreases |cells|
  {
    if cells != [] {
      var front, cell := cells[..|cells| - 1], cells[|cells| - 1];
      assert cells == front + [cell];
      UsedMore(front, cell, id);
      UnusedAfter(front, id, generate);
      UsedStep(front, cell, id, generate);
    }
  }

  /** A cell keeps its id exactly when it is the first to use a valid one; otherwise it gets a new one, and
      nothing else of it changes. */
  lemma IdKeptExactly(cells: seq<Json>, i: nat, generate: nat -> string)
    requires AllObjects(cells) && Generates(generate, cells) && i < |cells|
    ensures FixIds(cells, generate)[i] == if FirstValidUse(cells, i) then cells[i] else WithId(cells[i], generate(i))
    ensures FixIds(cells, generate)[i] == cells[i] <==> FirstValidUse(cells, i)
  {
    FixedAt(cells, i, generate);
    var front := cells[..i];
    GeneratesFront(generate, cells, i);
    match IdOf(cells[i])
    case Some(Str(id)) =>
      assert HasId(cells[i], id) && UsedId(cells, id);
      if ValidId(id) {
        UsedAfter(front, id, generate);
      }
      assert WithId(cells[i], generate(i)) != cells[i] by { assert HasId(WithId(cells[i], generate(i)), generate(i)); }
    case _ =>
      assert HasId(WithId(cells[i], generate(i)), generate(i));
  }

  /** After the loop every id is valid and none is used twice. */
  lemma FaultlessMore(front: seq<Json>, cell: Json)
    requires FirstIdFault(front).None? && IdFault(front, cell, |front|).None?
    ensures FirstIdFault(front + [cell]).None?
  {
    assert (front + [cell])[..|front|] == front;
  }

  lemma FixedCellFaultless(before: seq<Json>, cell: Json, index: nat, generate: nat -> string)
    requires cell.Obj? && ValidId(generate(index)) && !UsedId(before, generate(index))
    ensures IdFault(before, FixedCell(before, cell, index, generate), |before|).None?
  {
  }

  lemma FaultlessStep(front: seq<Json>, cell: Json, generate: nat -> string)
    requires FirstIdFault(FixIds(front, generate)).None? && cell.Obj?
    requires ValidId(generate(|front|)) && !UsedId(FixIds(front, generate), generate(|front|))
    ensures FirstIdFault(FixIds(front + [cell], generate)).None?
  {
    var before := FixIds(front, generate);
    FixedCellFaultless(before, cell, |front|, generate);
    FaultlessMore(before, FixedCell(before, cell, |front|, generate));
    FixMore(front, cell, generate);
  }

  lemma UnusedNext(cells: seq<Json>, generate: nat -> string)
    requires cells != [] && AllObjects(cells) && Generates(generate, cells)
    ensures var n := |cells| - 1;
            AllObjects(cells[..n]) && Generates(generate, cells[..n])
            && ValidId(generate(n)) && !UsedId(FixIds(cells[..n], generate), generate(n))
  {
    var n := |cells| - 1;
    GeneratesFront(generate, cells, n);
    UsedFront(cells, n, generate(n));
    UnusedAfter(cells[..n], generate(n), generate);
  }

  lemma {:induction false} IdsValidAndDistinct(cells: seq<Json>, generate: nat -> string)
    requires AllObjects(cells) && Generates(generate, cells)
    ensures FirstIdFault(FixIds(cells, generate)).None?
    decreases |cells|
  {
    if cells != [] {
      var n := |cells| - 1;
      UnusedNext(cells, generate);
      IdsValidAndDistinct(cells[..n], generate);
      FaultlessStep(cells[..n], cells[n], generate);
      assert cells == cells[..n] + [cells[n]];
    }
  }

  /** No fault means: every id is a valid string, and all are pairwise distinct. */
  lemma {:induction false} NoFaultMeans(cells: seq<Json>)
    ensures FirstIdFault(cells).None? <==>
            && (forall i :: 0 <= i < |cells| ==> exists id :: HasId(cells[i], id) && ValidId(id))
            && (forall i, j :: 0 <= i < j < |cells| ==> IdOf(cells[i]) != IdOf(cells[j]))
    decreases |cells|
  {
    if cells != [] {
      var n := |cells| - 1;
      var front, last := cells[..n], cells[n];
      assert cells == front + [last];
      NoFaultMeans(front);
      LastFaultMeans(front, last);
    }
  }

  lemma LastFaultMeans(front: seq<Json>, last: Json)
    ensures IdFault(front, last, |front|).None? <==>
            && (exists id :: HasId(last, id) && ValidId(id))
            && (forall i :: 0 <= i < |front| ==> IdOf(front[i]) != IdOf(last))
  {
    if i :| 0 <= i < |front| && IdOf(front[i]) == IdOf(last) && IdOf(last).Some? && IdOf(last).value.Str? {
      assert HasId(front[i], IdOf(last).value.s);
    }
    if IdFault(front, last, |front|).None? {
      assert HasId(last, IdOf(last).value.s);
    }
  }

  lemma FixMore(front: seq<Json>, cell: Json, generate: nat -> string)
    ensures FixIds(front + [cell], generate) ==
            FixIds(front, generate) + [FixedCell(FixIds(front, generate), cell, |front|, generate)]
  {
    assert (front + [cell])[..|front|] == front;
  }

  lemma FaultlessFront(front: seq<Json>, cell: Json)
    requires FirstIdFault(front + [cell]).None?
    ensures FirstIdFault(front).None? && KeepsId(front, cell)
  {
    assert (front + [cell])[..|front|] == front;
  }

  /** Cells without a fault are left alone. */
  lemma {:induction false} FixedWhenFaultless(cells: seq<Json>, generate: nat -> string)
    requires FirstIdFault(cells).None?
    ensures FixIds(cells, generate) == cells
    decreases |cells|
  {
    if cells != [] {
      var front, cell := cells[..|cells| - 1], cells[|cells| - 1];
      assert cells == front + [cell];
      FaultlessFront(front, cell);
      FixedWhenFaultless(front, generate);
      FixMore(front, cell, generate);
    }
  }

  // ---------------------------------------------------------------------------------------------
  // What the two entry points promise each other.

  function CellsIn(content: Json): seq<Json> {
    if content.Obj? then
      match Field(content.fields, "cells")
      case Some(Arr(cells)) => cells
      case _ => []
    else []
  }

  /** The document that creation gives the schema to check. */
  function Fixed(content: Record, generate: nat -> string): Record
    requires TopFault(Obj(content)).None? && CellsFault(content).None?
  {
    content["nbformat_minor" := Int(AtLeastMin(content["nbformat_minor"].i))]
           ["cells" := Arr(FixIds(content["cells"].items, generate))]
  }

  lemma FixedPasses(content: Record, generate: nat -> string)
    requires TopFault(Obj(content)).None? && CellsFault(content).None? && Generates(generate, content["cells"].items)
    ensures OwnFault(Obj(Fixed(content, generate))).None?
  {
    var cells := content["cells"].items;
    IdsValidAndDistinct(cells, generate);
    FixedObjects(cells, generate);
    var f := Fixed(content, generate);
    assert Field(f, "nbformat") == Field(content, "nbformat")
           && Field(f, "cells") == Some(Arr(FixIds(cells, generate)));
    assert Field(f, "nbformat_minor") == Some(Int(AtLeastMin(content["nbformat_minor"].i)));
  }

  /** Whatever creation accepts, saving accepts unchanged; and it differs from what was sent only in the
      minor version and in cell ids. */
  lemma CreatedIsSavable(content: Json, generate: nat -> string, schema: SchemaCheck)
    requires Normalized(content, generate, schema).Ok? && Generates(generate, CellsIn(content))
    ensures var doc := Normalized(content, generate, schema).value;
            && Validated(doc, schema) == Ok(doc)
            && doc.Obj? && content.Obj? && doc.fields.Keys == content.fields.Keys
            && (forall k :: k in content.fields && k != "nbformat_minor" && k != "cells" ==>
                doc.fields[k] == content.fields[k])
            && CellsIn(doc) == FixIds(CellsIn(content), generate)
  {
    var f := content.fields;
    assert Normalized(content, generate, schema) == Ok(Obj(Fixed(f, generate)))
           && schema(Obj(Fixed(f, generate))).None?;
    FixedPasses(f, generate);
  }

  lemma FixedObjects(cells: seq<Json>, generate: nat -> string)
    requires AllObjects(cells)
    ensures AllObjects(FixIds(cells, generate))
  {
    forall i | 0 <= i < |cells|
      ensures FixIds(cells, generate)[i].Obj?
    {
      FixedAt(cells, i, generate);
    }
  }

  /** What saving accepts, creation leaves alone, whatever ids it would generate. */
  lemma SavableIsFixed(content: Json, generate: nat -> string, schema: SchemaCheck)
    requires Validated(content, schema) == Ok(content)
    ensures Normalized(content, generate, schema) == Ok(content)
  {
    var f := content.fields;
    FixedWhenFaultless(CellsIn(content), generate);
    UpdateSame(f, "nbformat_minor", Int(AtLeastMin(f["nbformat_minor"].i)));
    UpdateSame(f, "cells", Arr(CellsIn(content)));
  }

  /** Creation leaves a document alone exactly when saving would accept it. */
  lemma FixedExactlyWhenSavable(content: Json, generate: nat -> string, schema: SchemaCheck)
    requires Generates(generate, CellsIn(content))
    ensures Normalized(content, generate, schema) == Ok(content) <==> Validated(content, schema) == Ok(content)
  {
    if Normalized(content, generate, schema) == Ok(content) {
      CreatedIsSavable(content, generate, schema);
    }
    if Validated(content, schema) == Ok(content) {
      SavableIsFixed(content, generate, schema);
    }
  }

  /** A second creation, with whatever ids it would generate, changes nothing more. */
  lemma NormalizedTwice(content: Json, generate: nat -> string, again: nat -> string, schema: SchemaCheck)
    requires Normalized(content, generate, schema).Ok? && Generates(generate, CellsIn(content))
    ensures Normalized(Normalized(content, generate, schema).value, again, schema) ==
            Normalized(content, generate, schema)
  {
    CreatedIsSavable(content, generate, schema);
    SavableIsFixed(Normalized(content, generate, schema).value, again, schema);
  }

  /** Saving never repairs: what it accepts is what was sent, and it accepts exactly the documents that
      pass its own checks and the schema. */
  lemma SavedAsSent(content: Json, schema: SchemaCheck)
    ensures Validated(content, schema).Ok? ==> Validated(content, schema) == Ok(content)
    ensures Validated(content, schema).Ok? <==>
            && TopFault(content).None? && content.fields["nbformat_minor"].i >= MIN_MINOR
            && CellsFault(content.fields).None?
            && (forall i :: 0 <= i < |CellsIn(content)| ==> exists id :: HasId(CellsIn(content)[i], id) && ValidId(id))
            && (forall i, j :: 0 <= i < j < |CellsIn(content)| ==>
                IdOf(CellsIn(content)[i]) != IdOf(CellsIn(content)[j]))
            && schema(content).None?
  {
    NoFaultMeans(CellsIn(content));
  }

  // ---------------------------------------------------------------------------------------------
  // Ids that end in a newline.

  lemma NewlineIdMatches(body: string)
    requires IdBody(body)
    ensures ValidId(body + "\n") && !IdBody(body + "\n")
  {
    assert (body + "\n")[|body|] == '\n';
    assert (body + "\n")[..|body|] == body;
  }

  /** The service's own checks do not object to an id that ends in a newline, although their message says
      that an id must match the pattern: saving accepts such a document, and creation keeps the id, exactly
      when the official schema does not object to it. */
  lemma NewlineIdNotObjected(content: Json, cell: Record, body: string, generate: nat -> string, schema: SchemaCheck)
    requires IdBody(body) && Field(cell, "id") == Some(Str(body + "\n"))
    requires TopFault(content).None? && content.fields["nbformat_minor"].i >= MIN_MINOR
    requires Field(content.fields, "cells") == Some(Arr([Obj(cell)]))
    ensures FirstIdFault([Obj(cell)]).None? && OwnFault(content).None?
    ensures Validated(content, schema) == Ok(content) <==> schema(content).None?
    ensures Normalized(content, generate, schema) == Ok(content) <==> schema(content).None?
  {
    NewlineIdMatches(body);
    OneCell(cell, body + "\n");
    if schema(content).None? {
      SavableIsFixed(content, generate, schema);
    }
    FixedWhenFaultless([Obj(cell)], generate);
    UpdateSame(content.fields, "nbformat_minor", Int(AtLeastMin(content.fields["nbformat_minor"].i)));
    UpdateSame(content.fields, "cells", Arr([Obj(cell)]));
  }

  lemma OneCell(cell: Record, id: string)
    requires Field(cell, "id") == Some(Str(id)) && ValidId(id)
    ensures FirstIdFault([Obj(cell)]).None? && FirstNonObject([Obj(cell)]) == 1
  {
    assert [Obj(cell)][..0] == [] && [Obj(cell)][1..] == [];
    assert FirstNonObject([Obj(cell)][1..]) == 0;
  }

  // ---------------------------------------------------------------------------------------------
  // Generators.

  function Xs(n: nat): (r: string)
    ensures |r| == n
  {
    seq(n, _ => 'x')
  }

  function RowsOfXs(): nat -> string {
    (i: nat) => Xs(i + 1)
  }

  /** A generator of fresh ids exists, for instance, for up to 64 cells none of which uses a row of x's. */
  lemma RowsOfXsGenerate(cells: seq<Json>)
    requires |cells| <= 64 && forall n :: 1 <= n <= 64 ==> !UsedId(cells, Xs(n))
    ensures Generates(RowsOfXs(), cells)
  {
    forall i | 0 <= i < |cells|
      ensures ValidId(RowsOfXs()(i)) && !UsedId(cells, RowsOfXs()(i))
    {
      assert IdBody(Xs(i + 1));
    }
    forall i, j | 0 <= i < j < |cells|
      ensures RowsOfXs()(i) != RowsOfXs()(j)
    {
      assert |Xs(i + 1)| != |Xs(j + 1)|;
    }
  }

  /** A document whose first id is taken again and once missing. */
  lemma RepeatedIdReplaced(id: string)
    requires IdBody(id) && id[0] != 'x'
    ensures var a := Obj(map["id" := Str(id)]);
            var cells := [a, a, Obj(map[])];
            && Generates(RowsOfXs(), cells)
            && FixIds(cells, RowsOfXs()) == [a, WithId(a, "xx"), WithId(Obj(map[]), "xxx")]
  {
    var a := Obj(map["id" := Str(id)]);
    var cells := [a, a, Obj(map[])];
    forall n | 1 <= n <= 64
      ensures !UsedId(cells, Xs(n))
    {
      assert Xs(n)[0] == 'x';
    }
    RowsOfXsGenerate(cells);
    assert RowsOfXs()(1) == "xx" && RowsOfXs()(2) == "xxx";
    IdKeptExactly(cells, 0, RowsOfXs());
    IdKeptExactly(cells, 1, RowsOfXs());
    IdKeptExactly(cells, 2, RowsOfXs());
    assert HasId(cells[..1][0], id);
    assert FirstValidUse(cells, 0) && !FirstValidUse(cells, 1) && !FirstValidUse(cells, 2);
  }

  // ---------------------------------------------------------------------------------------------
  // Every refusal, spelt out.

  /** A letter, a digit, an underscore or a hyphen, by its ASCII code. */
  predicate IsWord(c: char) {
    var code := c as int;
    65 <= code <= 90 || 97 <= code <= 122 || 48 <= code <= 57 || code == 95 || code == 45
  }

  /** An id of the pattern. */
  predicate Spelt(id: string) {
    0 < |id| < 65 && forall c <- id :: IsWord(c)
  }

  lemma SpeltIsBody(id: string)
    ensures Spelt(id) <==> IdBody(id)
  {
    if IdBody(id) {
      forall c | c in id ensures IsWord(c) { assert exists i :: 0 <= i < |id| && id[i] == c; }
    }
    if Spelt(id) {
      forall i | 0 <= i < |id| ensures IdChar(id[i]) { assert id[i] in id; }
    }
  }

  /** The service's own check passes exactly the ids of the pattern, and those followed by one newline. */
  lemma ValidExactly(id: string)
    ensures ValidId(id) <==> Spelt(id) || exists body: string :: id == body + "\n" && Spelt(body)
  {
    SpeltIsBody(id);
    if id != "" {
      SpeltIsBody(id[..|id| - 1]);
    }
    if ValidId(id) && !Spelt(id) {
      assert id == id[..|id| - 1] + "\n" && Spelt(id[..|id| - 1]);
    }
    if body: string :| id == body + "\n" && Spelt(body) {
      assert id[..|id| - 1] == body;
    }
  }

  predicate IsDocument(content: Json) {
    && content.Obj? && "nbformat" in content.fields && content.fields["nbformat"] in {Int(4), Float(4.0)}
    && "nbformat_minor" in content.fields && content.fields["nbformat_minor"].Int?
  }

  predicate HasCells(content: Json) {
    content.Obj? && "cells" in content.fields && content.fields["cells"].Arr?
  }

  predicate AllObjectsUpTo(cells: seq<Json>, k: nat)
    requires k <= |cells|
  {
    forall j :: 0 <= j < k ==> cells[j].Obj?
  }

  lemma FirstNonObjectExactly(cells: seq<Json>, i: nat)
    requires i < |cells|
    ensures FirstNonObject(cells) == i <==> AllObjectsUpTo(cells, i) && !cells[i].Obj?
    ensures FirstNonObject(cells) == |cells| <==> AllObjectsUpTo(cells, |cells|)
  {
  }

  /** What is wrong with the top of a document, exactly. */
  lemma TopFaultExactly(content: Json)
    ensures TopFault(content).None? <==> IsDocument(content)
    ensures TopFault(content) == Some(NotAnObject) <==> !content.Obj?
    ensures TopFault(content) == Some(WrongFormat) <==>
            content.Obj? && !("nbformat" in content.fields && content.fields["nbformat"] in {Int(4), Float(4.0)})
    ensures TopFault(content) == Some(MinorNotInteger) <==>
            && content.Obj? && "nbformat" in content.fields && content.fields["nbformat"] in {Int(4), Float(4.0)}
            && !("nbformat_minor" in content.fields && content.fields["nbformat_minor"].Int?)
  {
  }

  lemma CellsFaultExactly(content: Json)
    requires content.Obj?
    ensures CellsFault(content.fields) == Some(CellsNotAList) <==> !HasCells(content)
    ensures CellsFault(content.fields).None? <==>
            HasCells(content) && AllObjectsUpTo(content.fields["cells"].items, |content.fields["cells"].items|)
    ensures forall i: nat :: CellsFault(content.fields) == Some(CellNotAnObject(i)) <==>
              && HasCells(content) && i < |content.fields["cells"].items|
              && AllObjectsUpTo(content.fields["cells"].items, i) && !content.fields["cells"].items[i].Obj?
  {
    if HasCells(content) {
      var cells := content.fields["cells"].items;
      forall i: nat | i < |cells|
        ensures FirstNonObject(cells) == i <==> AllObjectsUpTo(cells, i) && !cells[i].Obj?
      {
        FirstNonObjectExactly(cells, i);
      }
    }
  }

  predicate SameId(earlier: Json, cell: Json) {
    && earlier.Obj? && cell.Obj? && "id" in earlier.fields && "id" in cell.fields
    && earlier.fields["id"] == cell.fields["id"]
  }

  /** The cell has an id of the pattern that no earlier cell has. */
  predicate GoodId(cells: seq<Json>, i: nat)
    requires i < |cells|
  {
    && cells[i].Obj? && "id" in cells[i].fields && cells[i].fields["id"].Str? && ValidId(cells[i].fields["id"].s)
    && forall j :: 0 <= j < i ==> !SameId(cells[j], cells[i])
  }

  predicate IsString(cell: Json, name: string) {
    cell.Obj? && name in cell.fields && cell.fields[name].Str?
  }

  /** The fault of one id, read off the cell. */
  predicate FaultOf(cells: seq<Json>, i: nat, fault: Fault)
    requires i < |cells|
  {
    match fault
    case IdMissing(k) => k == i && !IsString(cells[i], "id")
    case IdMalformed(k) => k == i && IsString(cells[i], "id") && !ValidId(cells[i].fields["id"].s)
    case IdRepeated(k) => k == i && IsString(cells[i], "id") && ValidId(cells[i].fields["id"].s) && !GoodId(cells, i)
    case _ => false
  }

  lemma IdFaultIs(cells: seq<Json>, i: nat)
    requires i < |cells|
    ensures var fault := IdFault(cells[..i], cells[i], i);
            if GoodId(cells, i) then fault == None else fault.Some? && FaultOf(cells, i, fault.value)
  {
    if IsString(cells[i], "id") {
      var id := cells[i].fields["id"].s;
      if UsedId(cells[..i], id) {
        var j :| 0 <= j < i && HasId(cells[..i][j], id);
        assert SameId(cells[j], cells[i]);
      } else if !GoodId(cells, i) && ValidId(id) {
        var j :| 0 <= j < i && SameId(cells[j], cells[i]);
        assert HasId(cells[..i][j], id);
      }
    }
  }

  predicate GoodIdsUpTo(cells: seq<Json>, k: nat)
    requires k <= |cells|
  {
    forall i :: 0 <= i < k ==> GoodId(cells, i)
  }

  lemma GoodInFront(cells: seq<Json>, k: nat, i: nat)
    requires i < k <= |cells|
    ensures GoodId(cells[..k], i) <==> GoodId(cells, i)
    ensures forall fault :: FaultOf(cells[..k], i, fault) <==> FaultOf(cells, i, fault)
  {
  }

  /** The first cell without a good id is objected to, for the reason it gives. */
  lemma {:induction false} FirstIdFaultExactly(cells: seq<Json>)
    ensures FirstIdFault(cells).None? <==> GoodIdsUpTo(cells, |cells|)
    ensures FirstIdFault(cells).Some? ==>
              exists i :: 0 <= i < |cells| && GoodIdsUpTo(cells, i) && !GoodId(cells, i)
                          && FaultOf(cells, i, FirstIdFault(cells).value)
    decreases |cells|
  {
    if cells != [] {
      var n := |cells| - 1;
      var front := cells[..n];
      FirstIdFaultExactly(front);
      IdFaultIs(cells, n);
      forall i | 0 <= i < n
        ensures GoodId(front, i) <==> GoodId(cells, i)
      {
        GoodInFront(cells, n, i);
      }
      if FirstIdFault(front).Some? {
        var i :| 0 <= i < n && GoodIdsUpTo(front, i) && !GoodId(front, i)
                 && FaultOf(front, i, FirstIdFault(front).value);
        GoodInFront(cells, n, i);
        assert GoodIdsUpTo(cells, i) && !GoodId(cells, i) && FaultOf(cells, i, FirstIdFault(cells).value);
      } else if FirstIdFault(cells).Some? {
        assert GoodIdsUpTo(cells, n) && !GoodId(cells, n) && FaultOf(cells, n, FirstIdFault(cells).value);
      }
    }
  }

  /** Saving accepts exactly a document of format 4 and at least minor version 5 whose cells are objects with good ids
      and to which the schema does not object. */
  lemma SavedExactly(content: Json, schema: SchemaCheck)
    ensures Validated(content, schema).Ok? <==>
            && IsDocument(content) && content.fields["nbformat_minor"].i >= 5 && HasCells(content)
            && AllObjectsUpTo(content.fields["cells"].items, |content.fields["cells"].items|)
            && GoodIdsUpTo(content.fields["cells"].items, |content.fields["cells"].items|)
            && schema(content) == None
    ensures Validated(content, schema) == Err(MinorTooLow) <==>
            IsDocument(content) && content.fields["nbformat_minor"].i < 5
  {
    TopFaultExactly(content);
    if content.Obj? {
      CellsFaultExactly(content);
    }
    if HasCells(content) {
      FirstIdFaultExactly(content.fields["cells"].items);
    }
  }

  /** Creating accepts exactly a document of format 4 with an integral minor version whose cells are objects, and to
      whose normalised form the schema does not object; that declares minor version 5 or what was declared above it. */
  lemma CreatedExactly(content: Json, generate: nat -> string, schema: SchemaCheck)
    ensures var accepted := IsDocument(content) && HasCells(content)
                            && AllObjectsUpTo(content.fields["cells"].items, |content.fields["cells"].items|);
            && (Normalized(content, generate, schema).Ok? ==> accepted)
            && (accepted ==>
                  var minor := content.fields["nbformat_minor"].i;
                  var cells := FixIds(content.fields["cells"].items, generate);
                  var raised := content.fields["nbformat_minor" := Int(if minor > 5 then minor else 5)];
                  var doc := Obj(raised["cells" := Arr(cells)]);
                  Normalized(content, generate, schema) ==
                  match schema(doc) { case None => Ok(doc) case Some(message) => Err(Schema(message)) })
  {
    TopFaultExactly(content);
    if content.Obj? {
      CellsFaultExactly(content);
    }
  }
}
