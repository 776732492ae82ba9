/** Notebook outputs and their consolidation (frontend/packages/outputarea/src/model.svelte.ts). */
module Outputs {
  import opened Common
  import opened Json

  /** The text of a stream: one string or an array of them. */
  datatype Text = Whole(s: string) | Parts(parts: seq<string>)

  datatype DisplayKind = DisplayData | ExecuteResult | UpdateDisplay

  datatype Output =
    | Stream(name: string, text: Text)
    | Error(ename: string, evalue: string, traceback: seq<string>)
    | Display(kind: DisplayKind, data: Record, metadata: Option<Record>, executionCount: Option<Json>,
              transient: Option<Record>)

  function Join(parts: seq<string>): string {
    if parts == [] then "" else parts[0] + Join(parts[1..])
  }

  function TextOf(text: Text): string {
    match text
    case Whole(s) => s
    case Parts(parts) => Join(parts)
  }

  /** The display id: a non-empty string under `transient.display_id`. */
  function DisplayIdOf(o: Output): (id: Option<string>)
    ensures id.Some? ==> o.Display? && id.value != ""
  {
    if o.Display? && o.transient.Some? then
      match Field(o.transient.value, "display_id")
      case Some(Str(s)) => if s != "" then Some(s) else None
      case _ => None
    else None
  }

  predicate IsUpdate(o: Output) {
    o.Display? && o.kind == UpdateDisplay
  }

  /** findIndex: the first output that carries the id. */
  function FirstIndex(outputs: seq<Output>, id: string): (i: nat)
    ensures i <= |outputs| && forall j :: 0 <= j < i ==> DisplayIdOf(outputs[j]) != Some(id)
    ensures i < |outputs| ==> DisplayIdOf(outputs[i]) == Some(id)
  {
    if outputs == [] || DisplayIdOf(outputs[0]) == Some(id) then 0 else 1 + FirstIndex(outputs[1..], id)
  }

  // ---------------------------------------------------------------------------------------------
  // The specification: a fold of single additions.

  /** `{ ...prev, data, metadata ?? prev.metadata }`. */
  function Updated(prev: Output, update: Output): Output
    requires prev.Display? && update.Display?
  {
    prev.(data := update.data, metadata := if update.metadata.Some? then update.metadata else prev.metadata)
  }

  /** The output joins the stream that ends the list. */
  predicate Joins(result: seq<Output>, o: Output) {
    o.Stream? && result != [] && result[|result| - 1].Stream? && result[|result| - 1].name == o.name
  }

  function Push(result: seq<Output>, o: Output): seq<Output> {
    if IsUpdate(o) then
      var target := if DisplayIdOf(o).Some? then FirstIndex(result, DisplayIdOf(o).value) else |result|;
      if target < |result| then result[target := Updated(result[target], o)]
      else result + [o.(kind := DisplayData)]
    else if Joins(result, o) then
      var last := result[|result| - 1];
      result[|result| - 1 := last.(text := Whole(TextOf(last.text) + TextOf(o.text)))]
    else result + [o]
  }

  function Consolidate(outputs: seq<Output>): seq<Output>
    decreases |outputs|
  {
    if outputs == [] then [] else Push(Consolidate(outputs[..|outputs| - 1]), outputs[|outputs| - 1])
  }

  // ---------------------------------------------------------------------------------------------
  // The code's own form.

  method ConsolidateOutputs(outputs: seq<Output>) returns (result: seq<Output>)
    ensures result == Consolidate(outputs)
  {
    result := [];
    var i := 0;
    while i < |outputs|
      invariant 0 <= i <= |outputs| && result == Consolidate(outputs[..i])
    {
      var output := outputs[i];
      assert outputs[..i + 1][..i] == outputs[..i] && outputs[..i + 1][i] == output;
      i := i + 1;
      if IsUpdate(output) {
        var id := DisplayIdOf(output);
        var target := if id.Some? then FirstIndex(result, id.value) else |result|;
        if target < |result| {
          var prev := result[target];
          result := result[target := prev.(data := output.data,
                                           metadata :=
                                             if output.metadata.Some? then output.metadata else prev.metadata)];
        } else {
          result := result + [output.(kind := DisplayData)];
        }
        continue;
      }
      if output.Stream? && |result| > 0 {
        var last := result[|result| - 1];
        if last.Stream? && last.name == output.name {
          result := result[|result| - 1 := last.(text := Whole(TextOf(last.text) + TextOf(output.text)))];
          continue;
        }
      }
      result := result + [output];
    }
    assert outputs[..|outputs|] == outputs;
  }

  class OutputAreaModel {
    var items: seq<Output>

    constructor ()
      ensures items == []
    {
      items := [];
    }

    method Set(outputs: seq<Output>)
      modifies this
      ensures items == Consolidate(outputs)
    {
      items := ConsolidateOutputs(outputs);
    }

    /** Adding to an area that was set from `outputs` is setting it from the longer list. */
    method Add(output: Output, ghost outputs: seq<Output>)
      requires items == Consolidate(outputs)
      modifies this
      ensures items == Consolidate(outputs + [output])
    {
      ConsolidateIncremental(outputs, [output]);
      items := ConsolidateOutputs(items + [output]);
    }

    method Clear()
      modifies this
      ensures items == Consolidate([])
    {
      items := [];
    }
  }

  // ---------------------------------------------------------------------------------------------
  // Laws.

  /** No update entry and no two adjacent streams of one name. */
  predicate Consolidated(outputs: seq<Output>) {
    && (forall i :: 0 <= i < |outputs| ==> !IsUpdate(outputs[i]))
    && forall i, j :: 0 <= i < |outputs| && j == i + 1 < |outputs| && outputs[i].Stream? && outputs[j].Stream?
                      ==> outputs[i].name != outputs[j].name
  }

  lemma PushKeeps(result: seq<Output>, o: Output)
    requires Consolidated(result)
    ensures Consolidated(Push(result, o))
  {
  }

  lemma {:induction false} ResultConsolidated(outputs: seq<Output>)
    ensures Consolidated(Consolidate(outputs))
    decreases |outputs|
  {
    if outputs != [] {
      ResultConsolidated(outputs[..|outputs| - 1]);
      PushKeeps(Consolidate(outputs[..|outputs| - 1]), outputs[|outputs| - 1]);
    }
  }

  lemma ConsolidatedFront(front: seq<Output>, last: Output)
    requires Consolidated(front + [last])
    ensures Consolidated(front) && Push(front, last) == front + [last]
  {
    var all := front + [last];
    assert all[|front|] == last && forall i :: 0 <= i < |front| ==> all[i] == front[i];
  }

  lemma {:induction false} ConsolidatedIsFixed(outputs: seq<Output>)
    requires Consolidated(outputs)
    ensures Consolidate(outputs) == outputs
    decreases |outputs|
  {
    if outputs != [] {
      var front, last := outputs[..|outputs| - 1], outputs[|outputs| - 1];
      assert outputs == front + [last];
      ConsolidatedFront(front, last);
      ConsolidatedIsFixed(front);
    }
  }

  /** The lists that consolidation leaves alone are exactly those without updates and without adjacent
      streams of one name; in particular consolidation is idempotent. */
  lemma FixedExactlyWhenConsolidated(outputs: seq<Output>)
    ensures Consolidate(outputs) == outputs <==> Consolidated(outputs)
    ensures Consolidate(Consolidate(outputs)) == Consolidate(outputs)
  {
    ResultConsolidated(outputs);
    ConsolidatedIsFixed(Consolidate(outputs));
    if Consolidated(outputs) {
      ConsolidatedIsFixed(outputs);
    }
  }

  lemma ConsolidateMore(outputs: seq<Output>, o: Output)
    ensures Consolidate(outputs + [o]) == Push(Consolidate(outputs), o)
  {
    assert (outputs + [o])[..|outputs|] == outputs;
  }

  lemma IncrementalStep(c: seq<Output>, xs: seq<Output>, front: seq<Output>, last: Output)
    requires Consolidate(c + front) == Consolidate(xs + front)
    ensures Consolidate(c + (front + [last])) == Consolidate(xs + (front + [last]))
  {
    assert c + (front + [last]) == c + front + [last] && xs + (front + [last]) == xs + front + [last];
    ConsolidateMore(c + front, last);
    ConsolidateMore(xs + front, last);
  }

  lemma IncrementalNothing(xs: seq<Output>)
    ensures Consolidate(Consolidate(xs) + []) == Consolidate(xs + [])
  {
    FixedExactlyWhenConsolidated(xs);
    assert Consolidate(xs) + [] == Consolidate(xs) && xs + [] == xs;
  }

  /** Incremental consolidation equals batch consolidation. */
  lemma {:induction false} ConsolidateIncremental(xs: seq<Output>, ys: seq<Output>)
    ensures Consolidate(Consolidate(xs) + ys) == Consolidate(xs + ys)
    decreases |ys|
  {
    if ys == [] {
      IncrementalNothing(xs);
    } else {
      var front, last := ys[..|ys| - 1], ys[|ys| - 1];
      assert ys == front + [last];
      ConsolidateIncremental(xs, front);
      IncrementalStep(Consolidate(xs), xs, front, last);
    }
  }

  /** Everything printed to one stream, in order. */
  function StreamText(outputs: seq<Output>, name: string): string
    decreases |outputs|
  {
    if outputs == [] then ""
    else
      var last := outputs[|outputs| - 1];
      StreamText(outputs[..|outputs| - 1], name) + if last.Stream? && last.name == name then TextOf(last.text) else ""
  }

  /** Changing a display changes no text. */
  lemma {:induction false} DisplaySilent(outputs: seq<Output>, i: nat, o: Output, name: string)
    requires i < |outputs| && outputs[i].Display? && o.Display?
    ensures StreamText(outputs[i := o], name) == StreamText(outputs, name)
    decreases |outputs|
  {
    var n := |outputs| - 1;
    if i < n {
      assert outputs[i := o][..n] == outputs[..n][i := o];
      DisplaySilent(outputs[..n], i, o, name);
    } else {
      assert outputs[i := o][..n] == outputs[..n];
    }
  }

  lemma PushText(result: seq<Output>, o: Output, name: string)
    ensures StreamText(Push(result, o), name) ==
            StreamText(result, name) + if o.Stream? && o.name == name then TextOf(o.text) else ""
  {
    var target := if DisplayIdOf(o).Some? then FirstIndex(result, DisplayIdOf(o).value) else |result|;
    if IsUpdate(o) && target < |result| {
      DisplaySilent(result, target, Updated(result[target], o), name);
    } else if Joins(result, o) {
      var n := |result| - 1;
      assert Push(result, o)[..n] == result[..n];
    } else {
      assert Push(result, o)[..|result|] == result;
    }
  }

  /** Each stream's total text is conserved. */
  lemma {:induction false} TextConserved(outputs: seq<Output>, name: string)
    ensures StreamText(Consolidate(outputs), name) == StreamText(outputs, name)
    decreases |outputs|
  {
    if outputs != [] {
      TextConserved(outputs[..|outputs| - 1], name);
      PushText(Consolidate(outputs[..|outputs| - 1]), outputs[|outputs| - 1], name);
    }
  }

  /** What is shown under a display id, read off the raw list: the first output with the id shows it, and
      every later update replaces the data, and the metadata if it has any. */
  function Shown(outputs: seq<Output>, id: string): Option<(Record, Option<Record>)>
    decreases |outputs|
  {
    if outputs == [] then None
    else
      var before, o := Shown(outputs[..|outputs| - 1], id), outputs[|outputs| - 1];
      if DisplayIdOf(o) != Some(id) then before
      else if before.None? then Some((o.data, o.metadata))
      else if IsUpdate(o) then Some((o.data, if o.metadata.Some? then o.metadata else before.value.1))
      else before
  }

  function FirstShown(outputs: seq<Output>, id: string): Option<(Record, Option<Record>)> {
    var i := FirstIndex(outputs, id);
    if i < |outputs| then Some((outputs[i].data, outputs[i].metadata)) else None
  }

  lemma FirstIndexIs(outputs: seq<Output>, id: string, i: nat)
    requires i <= |outputs| && (i < |outputs| ==> DisplayIdOf(outputs[i]) == Some(id))
    requires forall j :: 0 <= j < i ==> DisplayIdOf(outputs[j]) != Some(id)
    ensures FirstIndex(outputs, id) == i
  {
  }

  lemma PushShown(result: seq<Output>, o: Output, id: string)
    ensures FirstShown(Push(result, o), id) ==
            if DisplayIdOf(o) != Some(id) then FirstShown(result, id)
            else if FirstShown(result, id).None? then Some((o.data, o.metadata))
            else if IsUpdate(o) then Some((o.data, if o.metadata.Some? then o.metadata
                                                   else FirstShown(result, id).value.1))
            else FirstShown(result, id)
  {
    var i := FirstIndex(result, id);
    var after := Push(result, o);
    if i < |result| {
      assert DisplayIdOf(after[i]) == Some(id);
      FirstIndexIs(after, id, i);
    } else if DisplayIdOf(o) == Some(id) {
      assert after == result + [if IsUpdate(o) then o.(kind := DisplayData) else o];
      FirstIndexIs(after, id, |result|);
    } else {
      FirstIndexIs(after, id, |after|);
    }
  }

  /** Consolidation shows, under each display id, what the raw list says. */
  lemma {:induction false} DisplaysResolved(outputs: seq<Output>, id: string)
    ensures FirstShown(Consolidate(outputs), id) == Shown(outputs, id)
    decreases |outputs|
  {
    if outputs != [] {
      DisplaysResolved(outputs[..|outputs| - 1], id);
      PushShown(Consolidate(outputs[..|outputs| - 1]), outputs[|outputs| - 1], id);
    }
  }

  /** The first output with the id, with what it shows. */
  function FirstOutput(outputs: seq<Output>, id: string): Option<Output> {
    var i := FirstIndex(outputs, id);
    if i < |outputs| then Some(outputs[i]) else None
  }

  /** The whole output found under an id: the first one with it, which is a plain display if it was an update
      without a target, showing what the raw list says and otherwise as it came. */
  function FirstResolved(outputs: seq<Output>, id: string): Option<Output> {
    var first, shown := FirstOutput(outputs, id), Shown(outputs, id);
    if first.None? || shown.None? then None
    else
      var o := first.value;
      Some(Display(if IsUpdate(o) then DisplayData else o.kind, shown.value.0, shown.value.1, o.executionCount,
                   o.transient))
  }

  lemma FirstMore(outputs: seq<Output>, o: Output, id: string)
    ensures FirstOutput(outputs + [o], id) ==
            if FirstOutput(outputs, id).Some? then FirstOutput(outputs, id)
            else if DisplayIdOf(o) == Some(id) then Some(o) else None
  {
    var i := FirstIndex(outputs, id);
    FirstIndexIs(outputs + [o], id,
                 if i < |outputs| then i else if DisplayIdOf(o) == Some(id) then |outputs| else |outputs| + 1);
  }

  lemma {:induction false} ShownIffFirst(outputs: seq<Output>, id: string)
    ensures Shown(outputs, id).Some? <==> FirstOutput(outputs, id).Some?
    decreases |outputs|
  {
    if outputs != [] {
      var front, last := outputs[..|outputs| - 1], outputs[|outputs| - 1];
      assert outputs == front + [last];
      ShownIffFirst(front, id);
      FirstMore(front, last, id);
    }
  }

  /** What becomes of the first output with an id when one more is pushed. */
  function PushedFirst(before: Option<Output>, o: Output, id: string): Option<Output> {
    if DisplayIdOf(o) != Some(id) then before
    else if before.None? then Some(if IsUpdate(o) then o.(kind := DisplayData) else o)
    else if IsUpdate(o) && before.value.Display? then Some(Updated(before.value, o))
    else before
  }

  lemma PushFirst(result: seq<Output>, o: Output, id: string)
    ensures FirstOutput(Push(result, o), id) == PushedFirst(FirstOutput(result, id), o, id)
  {
    var i := FirstIndex(result, id);
    var after := Push(result, o);
    if i < |result| {
      assert DisplayIdOf(after[i]) == Some(id);
      FirstIndexIs(after, id, i);
    } else if DisplayIdOf(o) == Some(id) {
      assert after == result + [if IsUpdate(o) then o.(kind := DisplayData) else o];
      FirstIndexIs(after, id, |result|);
    } else {
      FirstIndexIs(after, id, |after|);
    }
  }

  /** The resolution of one output more. */
  lemma ResolvedMore(front: seq<Output>, last: Output, id: string)
    ensures FirstResolved(front + [last], id) == PushedFirst(FirstResolved(front, id), last, id)
  {
    var outputs := front + [last];
    assert outputs[..|front|] == front && outputs[|front|] == last;
    FirstMore(front, last, id);
    ShownIffFirst(front, id);
  }

  /** Consolidation leaves, under each display id, one output to find: the first one with the id, with its kind,
      execution count and transient data, showing what the raw list says. */
  lemma {:induction false} DisplaysKept(outputs: seq<Output>, id: string)
    ensures FirstOutput(Consolidate(outputs), id) == FirstResolved(outputs, id)
    decreases |outputs|
  {
    if outputs != [] {
      var front, last := outputs[..|outputs| - 1], outputs[|outputs| - 1];
      assert outputs == front + [last];
      DisplaysKept(front, id);
      PushFirst(Consolidate(front), last, id);
      ResolvedMore(front, last, id);
    }
  }

  /** Errors, and displays without an id; an update without an id is shown as a plain display. */
  function Apart(outputs: seq<Output>): seq<Output>
    decreases |outputs|
  {
    if outputs == [] then []
    else
      var front, o := Apart(outputs[..|outputs| - 1]), outputs[|outputs| - 1];
      if o.Stream? || DisplayIdOf(o).Some? then front
      else front + [if IsUpdate(o) then o.(kind := DisplayData) else o]
  }

  lemma ApartMore(outputs: seq<Output>, o: Output)
    ensures Apart(outputs + [o]) ==
            if o.Stream? || DisplayIdOf(o).Some? then Apart(outputs)
            else Apart(outputs) + [if IsUpdate(o) then o.(kind := DisplayData) else o]
  {
    assert (outputs + [o])[..|outputs|] == outputs;
  }

  lemma {:induction false} ApartReplaced(outputs: seq<Output>, i: nat, o: Output)
    requires i < |outputs| && (outputs[i].Stream? || DisplayIdOf(outputs[i]).Some?)
    requires o.Stream? || DisplayIdOf(o).Some?
    ensures Apart(outputs[i := o]) == Apart(outputs)
    decreases |outputs|
  {
    var n := |outputs| - 1;
    if i < n {
      assert outputs[i := o][..n] == outputs[..n][i := o];
      ApartReplaced(outputs[..n], i, o);
    } else {
      assert outputs[i := o][..n] == outputs[..n];
    }
  }

  lemma PushApart(result: seq<Output>, o: Output)
    ensures Apart(Push(result, o)) ==
            if o.Stream? || DisplayIdOf(o).Some? then Apart(result)
            else Apart(result) + [if IsUpdate(o) then o.(kind := DisplayData) else o]
  {
    var target := if DisplayIdOf(o).Some? then FirstIndex(result, DisplayIdOf(o).value) else |result|;
    if IsUpdate(o) && target < |result| {
      ApartReplaced(result, target, Updated(result[target], o));
    } else if IsUpdate(o) {
      ApartMore(result, o.(kind := DisplayData));
    } else if Joins(result, o) {
      ApartReplaced(result, |result| - 1, Push(result, o)[|result| - 1]);
    } else {
      ApartMore(result, o);
    }
  }

  /** Errors and displays without an id are all kept, in order, as they came. */
  lemma {:induction false} OthersConserved(outputs: seq<Output>)
    ensures Apart(Consolidate(outputs)) == Apart(outputs)
    decreases |outputs|
  {
    if outputs != [] {
      OthersConserved(outputs[..|outputs| - 1]);
      PushApart(Consolidate(outputs[..|outputs| - 1]), outputs[|outputs| - 1]);
    }
  }

  lemma {:induction false} JoinConcat(a: seq<string>, b: seq<string>)
    ensures Join(a + b) == Join(a) + Join(b)
    decreases |a|
  {
    if a == [] {
      assert a + b == b;
    } else {
      assert (a + b)[1..] == a[1..] + b;
      JoinConcat(a[1..], b);
    }
  }

  /** The text of a stream: the parts one after the other, or the one string. */
  lemma TextOfParts(a: seq<string>, b: seq<string>, s: string)
    ensures TextOf(Parts(a + b)) == TextOf(Parts(a)) + TextOf(Parts(b))
    ensures TextOf(Parts([s])) == TextOf(Whole(s)) == s && TextOf(Parts([])) == ""
  {
    JoinConcat(a, b);
    assert [s][1..] == [] && Join([s]) == s + Join([]);
  }
}
