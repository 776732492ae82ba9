/** When the list a kernel's messages accumulate shows the same, once consolidated, as the raw outputs
    themselves; and how a run of messages settles. */
module OutputAgreement {
  import opened Common
  import opened Json
  import opened Outputs
  import opened KernelMessages

  // ---------------------------------------------------------------------------------------------
  // What an output shows.

  datatype View =
    | VStream(name: string, text: string)
    | VError(ename: string, evalue: string, traceback: seq<string>)
    | VDisplay(id: Option<string>, data: Record, metadata: Option<Record>)

  function ViewOf(o: Output): View {
    match o
    case Stream(name, text) => VStream(name, TextOf(text))
    case Error(ename, evalue, traceback) => VError(ename, evalue, traceback)
    case Display(_, data, metadata, _, _) => VDisplay(DisplayIdOf(o), data, metadata)
  }

  function Views(outputs: seq<Output>): (vs: seq<View>)
    ensures |vs| == |outputs| && forall i :: 0 <= i < |vs| ==> vs[i] == ViewOf(outputs[i])
  {
    seq(|outputs|, i requires 0 <= i < |outputs| => ViewOf(outputs[i]))
  }

  predicate Carries(v: View, id: string) {
    v.VDisplay? && v.id == Some(id)
  }

  /** How many displays carry the id. */
  function Count(vs: seq<View>, id: string): nat
    decreases |vs|
  {
    if vs == [] then 0 else Count(vs[..|vs| - 1], id) + if Carries(vs[|vs| - 1], id) then 1 else 0
  }

  /** One view more: only streams merge. */
  function Append(vs: seq<View>, v: View): seq<View> {
    if v.VStream? && vs != [] && vs[|vs| - 1].VStream? && vs[|vs| - 1].name == v.name then
      vs[|vs| - 1 := VStream(v.name, vs[|vs| - 1].text + v.text)]
    else vs + [v]
  }

  function Merge(vs: seq<View>): seq<View>
    decreases |vs|
  {
    if vs == [] then [] else Append(Merge(vs[..|vs| - 1]), vs[|vs| - 1])
  }

  /** Every display with the id shows `data` and `metadata`. */
  function Revised(v: View, id: string, data: Record, metadata: Option<Record>): View {
    if Carries(v, id) then VDisplay(v.id, data, metadata) else v
  }

  function Revise(vs: seq<View>, id: string, data: Record, metadata: Option<Record>): (r: seq<View>)
    ensures |r| == |vs| && forall i :: 0 <= i < |vs| ==> r[i] == Revised(vs[i], id, data, metadata)
  {
    seq(|vs|, i requires 0 <= i < |vs| => Revised(vs[i], id, data, metadata))
  }

  lemma ReviseAppend(vs: seq<View>, v: View, id: string, data: Record, metadata: Option<Record>)
    ensures Revise(Append(vs, v), id, data, metadata) ==
            Append(Revise(vs, id, data, metadata), Revised(v, id, data, metadata))
  {
  }

  lemma ReviseFront(vs: seq<View>, id: string, data: Record, metadata: Option<Record>)
    requires vs != []
    ensures Revise(vs, id, data, metadata)[..|vs| - 1] == Revise(vs[..|vs| - 1], id, data, metadata)
  {
  }

  lemma {:induction false} ReviseMerge(vs: seq<View>, id: string, data: Record, metadata: Option<Record>)
    ensures Merge(Revise(vs, id, data, metadata)) == Revise(Merge(vs), id, data, metadata)
    decreases |vs|
  {
    if vs != [] {
      var front, last := vs[..|vs| - 1], vs[|vs| - 1];
      ReviseMerge(front, id, data, metadata);
      ReviseFront(vs, id, data, metadata);
      ReviseAppend(Merge(front), last, id, data, metadata);
    }
  }

  lemma CountAppend(vs: seq<View>, v: View, id: string)
    ensures Count(Append(vs, v), id) == Count(vs, id) + if Carries(v, id) then 1 else 0
  {
    if |Append(vs, v)| == |vs| {
      assert Append(vs, v)[..|vs| - 1] == vs[..|vs| - 1];
    } else {
      assert Append(vs, v)[..|vs|] == vs;
    }
  }

  lemma {:induction false} CountMerge(vs: seq<View>, id: string)
    ensures Count(Merge(vs), id) == Count(vs, id)
    decreases |vs|
  {
    if vs != [] {
      CountMerge(vs[..|vs| - 1], id);
      CountAppend(Merge(vs[..|vs| - 1]), vs[|vs| - 1], id);
    }
  }

  lemma {:induction false} CountZero(vs: seq<View>, id: string)
    ensures Count(vs, id) == 0 <==> forall i :: 0 <= i < |vs| ==> !Carries(vs[i], id)
    decreases |vs|
  {
    if vs != [] {
      CountZero(vs[..|vs| - 1], id);
    }
  }

  /** An id carried once is revised by replacing that one display. */
  lemma {:induction false} ReviseSole(vs: seq<View>, i: nat, id: string, data: Record, metadata: Option<Record>)
    requires i < |vs| && Carries(vs[i], id) && Count(vs, id) <= 1
    ensures vs[i := VDisplay(Some(id), data, metadata)] == Revise(vs, id, data, metadata)
    decreases |vs|
  {
    var n := |vs| - 1;
    if i == n {
      CountZero(vs[..n], id);
    } else {
      CountZero(vs[..n], id);
      ReviseSole(vs[..n], i, id, data, metadata);
      var r := Revise(vs, id, data, metadata);
      assert r[..n] == Revise(vs[..n], id, data, metadata);
      assert vs[i := VDisplay(Some(id), data, metadata)][..n] == vs[..n][i := VDisplay(Some(id), data, metadata)];
      assert vs[..n][i] == vs[i];
    }
  }

  // ---------------------------------------------------------------------------------------------
  // Consolidation and accumulation on views.

  /** The output is pushed: it is no update, or an update that finds no earlier output. */
  predicate Pushed(outputs: seq<Output>, o: Output) {
    IsUpdate(o) && DisplayIdOf(o).Some? ==> FirstIndex(outputs, DisplayIdOf(o).value) == |outputs|
  }

  lemma ViewsMore(outputs: seq<Output>, o: Output)
    ensures Views(outputs + [o]) == Views(outputs) + [ViewOf(o)]
  {
  }

  lemma ViewsReplaced(outputs: seq<Output>, i: nat, o: Output)
    requires i < |outputs|
    ensures Views(outputs[i := o]) == Views(outputs)[i := ViewOf(o)]
  {
  }

  lemma PushView(result: seq<Output>, o: Output)
    requires Pushed(result, o)
    ensures Views(Push(result, o)) == Append(Views(result), ViewOf(o))
  {
    var n := |result| - 1;
    if Joins(result, o) {
      ViewsReplaced(result, n, result[n].(text := Whole(TextOf(result[n].text) + TextOf(o.text))));
    } else {
      ViewsMore(result, if IsUpdate(o) then o.(kind := DisplayData) else o);
    }
  }

  lemma UpdateView(result: seq<Output>, o: Output)
    requires !Pushed(result, o) && o.metadata.Some? && Count(Views(result), DisplayIdOf(o).value) <= 1
    ensures Views(Push(result, o)) == Revise(Views(result), DisplayIdOf(o).value, o.data, o.metadata)
  {
    var id := DisplayIdOf(o).value;
    var i := FirstIndex(result, id);
    ReviseSole(Views(result), i, id, o.data, o.metadata);
    assert Views(Push(result, o)) == Views(result)[i := VDisplay(Some(id), o.data, o.metadata)];
  }

  lemma NoneCarries(outputs: seq<Output>, id: string)
    ensures Count(Views(outputs), id) == 0 <==> FirstIndex(outputs, id) == |outputs|
    ensures Count(Views(outputs), id) == 0 <==> LastIndex(outputs, id) == |outputs|
  {
    CountZero(Views(outputs), id);
    if FirstIndex(outputs, id) < |outputs| {
      assert Carries(Views(outputs)[FirstIndex(outputs, id)], id);
    }
    LastIndexFinds(outputs, id);
    if LastIndex(outputs, id) < |outputs| {
      assert Carries(Views(outputs)[LastIndex(outputs, id)], id);
    }
  }

  /** One more output carries the id, unless the output has another id or updates an earlier one. */
  function Gained(o: Output, id: string, before: nat): nat {
    if DisplayIdOf(o) != Some(id) || (IsUpdate(o) && before > 0) then 0 else 1
  }

  /** How many outputs the list pushes under the id: every display, but an update only when it is first. */
  function Pushes(outputs: seq<Output>, id: string): nat
    decreases |outputs|
  {
    if outputs == [] then 0
    else
      var before, o := Pushes(outputs[..|outputs| - 1], id), outputs[|outputs| - 1];
      before + Gained(o, id, before)
  }

  lemma CountReplaced(vs: seq<View>, i: nat, v: View, id: string)
    requires i < |vs| && (Carries(vs[i], id) <==> Carries(v, id))
    ensures Count(vs[i := v], id) == Count(vs, id)
    decreases |vs|
  {
    var n := |vs| - 1;
    if i < n {
      CountReplaced(vs[..n], i, v, id);
      assert vs[i := v][..n] == vs[..n][i := v];
    } else {
      assert vs[i := v][..n] == vs[..n];
    }
  }

  lemma UpdatedCount(result: seq<Output>, o: Output, i: nat, o': Output, id: string)
    requires i < |result| && DisplayIdOf(result[i]) == DisplayIdOf(o') && DisplayIdOf(o').Some?
    ensures Count(Views(result[i := o']), id) == Count(Views(result), id)
  {
    assert Views(result[i := o']) == Views(result)[i := ViewOf(o')];
    CountReplaced(Views(result), i, ViewOf(o'), id);
  }

  lemma PushCount(result: seq<Output>, o: Output, id: string)
    ensures Count(Views(Push(result, o)), id) == Count(Views(result), id) + Gained(o, id, Count(Views(result), id))
  {
    NoneCarries(result, id);
    if Pushed(result, o) {
      PushView(result, o);
      CountAppend(Views(result), ViewOf(o), id);
    } else {
      var i := FirstIndex(result, DisplayIdOf(o).value);
      UpdatedCount(result, o, i, Updated(result[i], o), id);
    }
  }

  lemma {:induction false} ConsolidateCount(outputs: seq<Output>, id: string)
    ensures Count(Views(Consolidate(outputs)), id) == Pushes(outputs, id)
    decreases |outputs|
  {
    if outputs != [] {
      ConsolidateCount(outputs[..|outputs| - 1], id);
      PushCount(Consolidate(outputs[..|outputs| - 1]), outputs[|outputs| - 1], id);
    }
  }

  lemma PlacedAtEnd(acc: seq<Output>, o: Output, id: string)
    ensures Count(Views(acc + [o]), id) == Count(Views(acc), id) + if DisplayIdOf(o) == Some(id) then 1 else 0
  {
    assert Views(acc + [o])[..|acc|] == Views(acc);
  }

  lemma PlaceCount(acc: seq<Output>, o: Output, id: string)
    ensures Count(Views(Place(acc, o)), id) == Count(Views(acc), id) + Gained(o, id, Count(Views(acc), id))
  {
    NoneCarries(acc, id);
    if IsUpdate(o) && DisplayIdOf(o).Some? && LastIndex(acc, DisplayIdOf(o).value) < |acc| {
      LastIndexFinds(acc, DisplayIdOf(o).value);
      UpdatedCount(acc, o, LastIndex(acc, DisplayIdOf(o).value), o, id);
    } else {
      PlacedAtEnd(acc, o, id);
    }
  }

  lemma {:induction false} AccumulateCount(raw: seq<Output>, id: string)
    ensures Count(Views(Accumulate(raw)), id) == Pushes(raw, id)
    decreases |raw|
  {
    if raw != [] {
      AccumulateCount(raw[..|raw| - 1], id);
      PlaceCount(Accumulate(raw[..|raw| - 1]), raw[|raw| - 1], id);
    }
  }

  // ---------------------------------------------------------------------------------------------
  // The condition.

  /** No update arrives for an id under which more than one output has been pushed. */
  predicate Unambiguous(raw: seq<Output>) {
    forall j :: 0 <= j < |raw| && IsUpdate(raw[j]) && DisplayIdOf(raw[j]).Some?
                ==> Pushes(raw[..j], DisplayIdOf(raw[j]).value) <= 1
  }

  /** In particular this holds when no id is pushed twice. */
  lemma PushedOnceIsUnambiguous(raw: seq<Output>)
    requires forall j, id :: 0 <= j <= |raw| ==> Pushes(raw[..j], id) <= 1
    ensures Unambiguous(raw)
  {
  }

  /** An update standing in the list behind another output with its id: consolidation would drop it. */
  predicate LateUpdate(outputs: seq<Output>, i: nat, id: string)
    requires i < |outputs|
  {
    IsUpdate(outputs[i]) && DisplayIdOf(outputs[i]) == Some(id) && FirstIndex(outputs, id) < i
  }

  ghost predicate NoLateUpdate(outputs: seq<Output>) {
    forall i: nat, id :: i < |outputs| ==> !LateUpdate(outputs, i, id)
  }

  lemma LateInFront(front: seq<Output>, o: Output, i: nat, id: string)
    requires i < |front|
    ensures LateUpdate(front, i, id) ==> LateUpdate(front + [o], i, id)
  {
    var f := FirstIndex(front, id);
    if f < |front| {
      assert DisplayIdOf((front + [o])[f]) == Some(id);
      FirstAtMost(front + [o], id, f);
    }
  }

  /** A list without late updates consolidates to its own merged views. */
  lemma LateFront(front: seq<Output>, o: Output)
    requires NoLateUpdate(front + [o])
    ensures NoLateUpdate(front)
  {
    forall i: nat, id | i < |front|
      ensures !LateUpdate(front, i, id)
    {
      LateInFront(front, o, i, id);
    }
  }

  lemma {:induction false} ConsolidateViews(outputs: seq<Output>)
    requires NoLateUpdate(outputs)
    ensures Views(Consolidate(outputs)) == Merge(Views(outputs))
    decreases |outputs|
  {
    if outputs != [] {
      var front, o := outputs[..|outputs| - 1], outputs[|outputs| - 1];
      assert outputs == front + [o];
      LateFront(front, o);
      ConsolidateViews(front);
      PushedAtEnd(front, o);
      PushView(Consolidate(front), o);
      ViewsMore(front, o);
      MergeMore(Views(front), ViewOf(o));
    }
  }

  lemma PushedAtEnd(front: seq<Output>, o: Output)
    requires NoLateUpdate(front + [o]) && Views(Consolidate(front)) == Merge(Views(front))
    ensures Pushed(Consolidate(front), o)
  {
    if IsUpdate(o) && DisplayIdOf(o).Some? {
      var id := DisplayIdOf(o).value;
      assert !LateUpdate(front + [o], |front|, id);
      assert FirstIndex(front + [o], id) == |front|;
      assert forall i :: 0 <= i < |front| ==> (front + [o])[i] == front[i];
      FirstIndexIs(front, id, |front|);
      NoneCarries(front, id);
      CountMerge(Views(front), id);
      NoneCarries(Consolidate(front), id);
    }
  }

  /** Placing keeps a list free of late updates if the update finds one output at most. */
  lemma PlaceKeeps(acc: seq<Output>, o: Output)
    requires NoLateUpdate(acc)
    requires IsUpdate(o) && DisplayIdOf(o).Some? ==> Count(Views(acc), DisplayIdOf(o).value) <= 1
    ensures NoLateUpdate(Place(acc, o))
  {
    var after := Place(acc, o);
    forall i: nat, id | i < |after| ensures !LateUpdate(after, i, id) {
      if i < |acc| && after[i] == acc[i] {
        OldNotLate(acc, o, i, id);
      } else {
        NewNotLate(acc, o, i, id);
      }
    }
  }

  lemma OldNotLate(acc: seq<Output>, o: Output, i: nat, id: string)
    requires i < |acc| && Place(acc, o)[i] == acc[i]
    ensures LateUpdate(Place(acc, o), i, id) ==> LateUpdate(acc, i, id)
  {
    var f := FirstIndex(Place(acc, o), id);
    PlacedIds(acc, o);
    if f < i {
      assert DisplayIdOf(acc[f]) == Some(id);
      FirstAtMost(acc, id, f);
    }
  }

  /** The update takes the place of the one output with its id, or there is none. */
  lemma NewNotLate(acc: seq<Output>, o: Output, i: nat, id: string)
    requires IsUpdate(o) && DisplayIdOf(o).Some? ==> Count(Views(acc), DisplayIdOf(o).value) <= 1
    requires i < |Place(acc, o)| && (i < |acc| ==> Place(acc, o)[i] != acc[i])
    ensures !LateUpdate(Place(acc, o), i, id)
  {
    if IsUpdate(o) && DisplayIdOf(o) == Some(id) {
      NoneCarries(acc, id);
      CountZero(Views(acc), id);
      LastIndexFinds(acc, id);
      PlacedIds(acc, o);
      if i < |acc| {
        OthersFree(Views(acc), i, id);
      }
      forall f | 0 <= f < i ensures DisplayIdOf(Place(acc, o)[f]) != Some(id) {
        assert !Carries(Views(acc)[f], id);
      }
    }
  }

  lemma FirstAtMost(outputs: seq<Output>, id: string, f: nat)
    requires f < |outputs| && DisplayIdOf(outputs[f]) == Some(id)
    ensures FirstIndex(outputs, id) <= f
  {
  }

  lemma {:induction false} OthersFree(vs: seq<View>, i: nat, id: string)
    requires i < |vs| && Carries(vs[i], id) && Count(vs, id) <= 1
    ensures forall j :: 0 <= j < |vs| && j != i ==> !Carries(vs[j], id)
    decreases |vs|
  {
    var n := |vs| - 1;
    CountZero(vs[..n], id);
    if i < n {
      assert vs[..n][i] == vs[i];
      OthersFree(vs[..n], i, id);
    }
  }

  lemma UnambiguousFront(raw: seq<Output>)
    requires raw != [] && Unambiguous(raw)
    ensures Unambiguous(raw[..|raw| - 1])
  {
    var front := raw[..|raw| - 1];
    forall j | 0 <= j < |front| && IsUpdate(front[j]) && DisplayIdOf(front[j]).Some?
      ensures Pushes(front[..j], DisplayIdOf(front[j]).value) <= 1
    {
      assert front[..j] == raw[..j] && front[j] == raw[j];
    }
  }

  lemma {:induction false} AccumulateKeeps(raw: seq<Output>)
    requires Unambiguous(raw)
    ensures NoLateUpdate(Accumulate(raw))
    decreases |raw|
  {
    if raw != [] {
      var front, o := raw[..|raw| - 1], raw[|raw| - 1];
      UnambiguousFront(raw);
      AccumulateKeeps(front);
      if IsUpdate(o) && DisplayIdOf(o).Some? {
        AccumulateCount(front, DisplayIdOf(o).value);
      }
      PlaceKeeps(Accumulate(front), o);
    }
  }

  predicate AllHaveMetadata(raw: seq<Output>) {
    forall i :: 0 <= i < |raw| && raw[i].Display? ==> raw[i].metadata.Some?
  }

  lemma PlaceView(acc: seq<Output>, o: Output)
    requires IsUpdate(o) && DisplayIdOf(o).Some? ==> Count(Views(acc), DisplayIdOf(o).value) <= 1
    ensures Views(Place(acc, o)) ==
            if IsUpdate(o) && DisplayIdOf(o).Some? && Count(Views(acc), DisplayIdOf(o).value) == 1 then
              Revise(Views(acc), DisplayIdOf(o).value, o.data, o.metadata)
            else Views(acc) + [ViewOf(o)]
  {
    if IsUpdate(o) && DisplayIdOf(o).Some? {
      var id := DisplayIdOf(o).value;
      NoneCarries(acc, id);
      LastIndexFinds(acc, id);
      var i := LastIndex(acc, id);
      if i < |acc| {
        ReviseSole(Views(acc), i, id, o.data, o.metadata);
        ViewsReplaced(acc, i, o);
        return;
      }
    }
    ViewsMore(acc, o);
  }

  lemma MergeMore(vs: seq<View>, v: View)
    ensures Merge(vs + [v]) == Append(Merge(vs), v)
  {
    assert (vs + [v])[..|vs|] == vs;
  }

  /** The raw outputs, consolidated, show the merged views of the accumulated list. */
  lemma {:induction false} RawViews(raw: seq<Output>)
    requires Unambiguous(raw) && AllHaveMetadata(raw)
    ensures Views(Consolidate(raw)) == Merge(Views(Accumulate(raw)))
    decreases |raw|
  {
    if raw != [] {
      var front, o := raw[..|raw| - 1], raw[|raw| - 1];
      UnambiguousFront(raw);
      RawViews(front);
      RawViewStep(front, o);
    }
  }

  lemma RawViewStep(front: seq<Output>, o: Output)
    requires Views(Consolidate(front)) == Merge(Views(Accumulate(front)))
    requires IsUpdate(o) && DisplayIdOf(o).Some? ==> Pushes(front, DisplayIdOf(o).value) <= 1
    requires o.Display? ==> o.metadata.Some?
    ensures Views(Push(Consolidate(front), o)) == Merge(Views(Place(Accumulate(front), o)))
  {
    var c, acc := Consolidate(front), Accumulate(front);
    if IsUpdate(o) && DisplayIdOf(o).Some? {
      var id := DisplayIdOf(o).value;
      AccumulateCount(front, id);
      ConsolidateCount(front, id);
      NoneCarries(c, id);
      PlaceView(acc, o);
      if Pushes(front, id) == 1 {
        UpdateView(c, o);
        ReviseMerge(Views(acc), id, o.data, o.metadata);
      } else {
        PushView(c, o);
        MergeMore(Views(acc), ViewOf(o));
      }
    } else {
      PlaceView(acc, o);
      PushView(c, o);
      MergeMore(Views(acc), ViewOf(o));
    }
  }

  // ---------------------------------------------------------------------------------------------
  // Without the condition they differ.

  lemma {:induction false} PushesAtMost(outputs: seq<Output>, id: string)
    ensures Pushes(outputs, id) <= Count(Views(outputs), id)
    ensures Pushes(outputs, id) == 0 ==> Count(Views(outputs), id) == 0
    decreases |outputs|
  {
    if outputs != [] {
      PushesAtMost(outputs[..|outputs| - 1], id);
      assert Views(outputs)[..|outputs| - 1] == Views(outputs[..|outputs| - 1]);
    }
  }

  lemma CountFront(outputs: seq<Output>, id: string)
    requires outputs != []
    ensures var front, o := outputs[..|outputs| - 1], outputs[|outputs| - 1];
            Count(Views(outputs), id) == Count(Views(front), id) + if DisplayIdOf(o) == Some(id) then 1 else 0
  {
    assert Views(outputs)[..|outputs| - 1] == Views(outputs[..|outputs| - 1]);
  }

  lemma LateBefore(front: seq<Output>, o: Output, i: nat, id: string)
    requires i < |front| && LateUpdate(front + [o], i, id)
    ensures LateUpdate(front, i, id)
  {
    var f := FirstIndex(front + [o], id);
    assert DisplayIdOf(front[f]) == Some(id);
    FirstAtMost(front, id, f);
  }

  lemma CarriedEarlier(front: seq<Output>, o: Output, id: string)
    requires FirstIndex(front + [o], id) < |front|
    ensures Count(Views(front), id) > 0
  {
    var f := FirstIndex(front + [o], id);
    assert DisplayIdOf(front[f]) == Some(id);
    assert Carries(Views(front)[f], id);
    CountZero(Views(front), id);
  }

  /** Each late update is one output that consolidation drops. */
  lemma {:induction false} LateUpdateDropped(outputs: seq<Output>, i: nat, id: string)
    requires i < |outputs| && LateUpdate(outputs, i, id)
    ensures Pushes(outputs, id) < Count(Views(outputs), id)
    decreases |outputs|
  {
    var front, o := outputs[..|outputs| - 1], outputs[|outputs| - 1];
    assert outputs == front + [o];
    CountFront(outputs, id);
    if i < |front| {
      LateBefore(front, o, i, id);
      LateUpdateDropped(front, i, id);
    } else {
      CarriedEarlier(front, o, id);
      PushesAtMost(front, id);
    }
  }

  lemma LateKept(acc: seq<Output>, o: Output, i: nat)
    requires i < |acc| && IsUpdate(acc[i])
    ensures i < |Place(acc, o)| && IsUpdate(Place(acc, o)[i])
  {
  }

  /** A late update stays, at its place. */
  lemma LateStays(acc: seq<Output>, o: Output, i: nat, id: string)
    requires i < |acc| && LateUpdate(acc, i, id)
    ensures i < |Place(acc, o)| && LateUpdate(Place(acc, o), i, id)
  {
    var f := FirstIndex(acc, id);
    PlacedIds(acc, o);
    LateKept(acc, o, i);
    FirstAtMost(Place(acc, o), id, f);
  }

  /** An id whose first and last output are one is carried once. */
  lemma SoleIndex(acc: seq<Output>, id: string, i: nat)
    requires i < |acc| && FirstIndex(acc, id) == i && LastIndex(acc, id) == i
    ensures Count(Views(acc), id) <= 1
  {
    LastIndexFinds(acc, id);
    forall j | 0 <= j < |acc| && j != i
      ensures !Carries(Views(acc)[j], id)
    {
      assert DisplayIdOf(acc[j]) != Some(id);
    }
    SoleCount(Views(acc), i, id);
  }

  lemma FirstBeforeLast(acc: seq<Output>, id: string)
    requires Count(Views(acc), id) >= 2
    ensures FirstIndex(acc, id) < LastIndex(acc, id) < |acc|
  {
    NoneCarries(acc, id);
    LastIndexFinds(acc, id);
    FirstAtMost(acc, id, LastIndex(acc, id));
    if FirstIndex(acc, id) == LastIndex(acc, id) {
      SoleIndex(acc, id, LastIndex(acc, id));
    }
  }

  lemma BecomesLate(acc: seq<Output>, o: Output, i: nat, id: string)
    requires IsUpdate(o) && DisplayIdOf(o) == Some(id) && FirstIndex(acc, id) < i < |acc|
    ensures LateUpdate(acc[i := o], i, id)
  {
    var f := FirstIndex(acc, id);
    FirstAtMost(acc[i := o], id, f);
  }

  lemma {:induction false} SoleCount(vs: seq<View>, i: nat, id: string)
    requires i < |vs| && forall j :: 0 <= j < |vs| && j != i ==> !Carries(vs[j], id)
    ensures Count(vs, id) <= 1
    decreases |vs|
  {
    var n := |vs| - 1;
    CountZero(vs[..n], id);
    if i < n {
      SoleCount(vs[..n], i, id);
    }
  }

  lemma NewlyLate(acc: seq<Output>, o: Output)
    requires IsUpdate(o) && DisplayIdOf(o).Some? && Count(Views(acc), DisplayIdOf(o).value) >= 2
    ensures !NoLateUpdate(Place(acc, o))
  {
    var id := DisplayIdOf(o).value;
    FirstBeforeLast(acc, id);
    BecomesLate(acc, o, LastIndex(acc, id), id);
  }

  lemma StillLate(acc: seq<Output>, o: Output)
    requires !NoLateUpdate(acc)
    ensures !NoLateUpdate(Place(acc, o))
  {
    var i: nat, id :| i < |acc| && LateUpdate(acc, i, id);
    LateStays(acc, o, i, id);
  }

  lemma {:induction false} AmbiguousIsLate(raw: seq<Output>)
    requires !Unambiguous(raw)
    ensures !NoLateUpdate(Accumulate(raw))
    decreases |raw|
  {
    var front, o := raw[..|raw| - 1], raw[|raw| - 1];
    var j :| 0 <= j < |raw| && IsUpdate(raw[j]) && DisplayIdOf(raw[j]).Some?
             && Pushes(raw[..j], DisplayIdOf(raw[j]).value) > 1;
    if j == |raw| - 1 {
      AccumulateCount(front, DisplayIdOf(o).value);
      NewlyLate(Accumulate(front), o);
    } else {
      assert front[..j] == raw[..j] && front[j] == raw[j];
      AmbiguousIsLate(front);
      StillLate(Accumulate(front), o);
    }
  }

  /** The accumulated list and the raw outputs consolidate to the same streams, errors and displays (id,
      data, metadata), in the same order, exactly when no update is ambiguous. */
  lemma AgreeExactlyWhenUnambiguous(raw: seq<Output>)
    requires AllHaveMetadata(raw)
    ensures Views(Consolidate(Accumulate(raw))) == Views(Consolidate(raw)) <==> Unambiguous(raw)
  {
    if Unambiguous(raw) {
      AccumulateKeeps(raw);
      ConsolidateViews(Accumulate(raw));
      RawViews(raw);
    } else {
      AmbiguousIsLate(raw);
      var i: nat, id :| i < |Accumulate(raw)| && LateUpdate(Accumulate(raw), i, id);
      LateUpdateDropped(Accumulate(raw), i, id);
      ConsolidateCount(Accumulate(raw), id);
      AccumulateCount(raw, id);
      ConsolidateCount(raw, id);
    }
  }

  // ---------------------------------------------------------------------------------------------
  // Runs of messages.

  function Run(events: seq<Event>, str: ToString): Progress
    decreases |events|
  {
    if events == [] then START else Advance(Run(events[..|events| - 1], str), events[|events| - 1], str)
  }

  lemma ReceiveMetadata(r: Received, e: Event, str: ToString)
    requires AllHaveMetadata(r.raw)
    ensures AllHaveMetadata(Receive(r, e, str).raw)
  {
  }

  lemma {:induction false} RunMetadata(events: seq<Event>, str: ToString)
    ensures AllHaveMetadata(Run(events, str).received.raw)
    decreases |events|
  {
    if events != [] {
      RunMetadata(events[..|events| - 1], str);
      ReceiveMetadata(Run(events[..|events| - 1], str).received, events[|events| - 1], str);
    }
  }

  /** A settled execution never changes again. */
  lemma {:induction false} SettledForGood(events: seq<Event>, k: nat, str: ToString)
    requires k <= |events| && Run(events[..k], str).settled != Pending
    ensures Run(events, str) == Run(events[..k], str)
    decreases |events|
  {
    if k == |events| {
      assert events[..k] == events;
    } else {
      assert events[..|events| - 1][..k] == events[..k];
      SettledForGood(events[..|events| - 1], k, str);
    }
  }

  predicate Replies(events: seq<Event>) {
    exists i :: 0 <= i < |events| && IsReply(events[i])
  }

  predicate Idles(events: seq<Event>) {
    exists i :: 0 <= i < |events| && IsIdle(events[i])
  }

  lemma FlagsAre(events: seq<Event>, e: Event)
    ensures Replies(events + [e]) <==> Replies(events) || IsReply(e)
    ensures Idles(events + [e]) <==> Idles(events) || IsIdle(e)
  {
    var all := events + [e];
    assert all[|events|] == e;
    if i :| 0 <= i < |events| && IsReply(events[i]) { assert IsReply(all[i]); }
    if i :| 0 <= i < |events| && IsIdle(events[i]) { assert IsIdle(all[i]); }
  }

  /** While the timer has not fired, the promise is resolved exactly when both the reply and the idle
      status have arrived, in either order; and what it resolved with shows what the raw outputs show,
      exactly when no update was ambiguous. */
  lemma {:induction false} ResolvedExactly(events: seq<Event>, str: ToString)
    requires forall i :: 0 <= i < |events| ==> !events[i].Timeout?
    ensures var p := Run(events, str);
            && (p.settled.Resolved? <==> Replies(events) && Idles(events))
            && (p.settled == Pending ==> (p.replied <==> Replies(events)) && (p.idle <==> Idles(events)))
            && !p.settled.TimedOut?
    decreases |events|
  {
    if events != [] {
      var front, e := events[..|events| - 1], events[|events| - 1];
      assert events == front + [e];
      ResolvedExactly(front, str);
      FlagsAre(front, e);
    }
  }

  lemma RunMore(events: seq<Event>, k: nat, str: ToString)
    requires k < |events|
    ensures Run(events[..k + 1], str) == Advance(Run(events[..k], str), events[k], str)
  {
    assert events[..k + 1][..k] == events[..k];
  }

  /** The timer rejects the promise exactly when it fires before both have arrived. */
  lemma TimedOutExactly(events: seq<Event>, k: nat, str: ToString)
    requires k < |events| && events[k].Timeout? && forall i :: 0 <= i < k ==> !events[i].Timeout?
    ensures Run(events, str).settled.TimedOut? <==> !(Replies(events[..k]) && Idles(events[..k]))
    ensures Run(events, str).settled != Pending
  {
    ResolvedExactly(events[..k], str);
    RunMore(events, k, str);
    SettledForGood(events, k + 1, str);
  }

  lemma {:induction false} ResolvedOutputs(events: seq<Event>, str: ToString)
    ensures var p := Run(events, str);
            p.settled.Resolved? ==> p.settled.outputs == Accumulate(p.received.raw)
                                    && p.settled.executionCount == p.executionCount
    decreases |events|
  {
    if events != [] {
      ResolvedOutputs(events[..|events| - 1], str);
    }
  }

  /** What a resolved execution hands over shows, once consolidated, what the raw outputs since the last
      effective clear show, exactly when no update was ambiguous. */
  lemma ResultShowsRaw(events: seq<Event>, str: ToString)
    requires Run(events, str).settled.Resolved?
    ensures var p := Run(events, str);
            Views(Consolidate(p.settled.outputs)) == Views(Consolidate(p.received.raw)) <==> Unambiguous(p.received.raw)
  {
    ResolvedOutputs(events, str);
    RunMetadata(events, str);
    AgreeExactlyWhenUnambiguous(Run(events, str).received.raw);
  }

  /** A failed execution shows an error, whether or not the kernel sent one, and even if one was cleared. */
  lemma ErrorReplyShown(p: Progress, content: Record, str: ToString)
    requires p.settled == Pending && Field(content, "status") == Some(Str("error"))
    ensures var after := Advance(p, Message("execute_reply", content), str);
            && HasError(Accumulate(after.received.raw))
            && (p.idle ==> after.settled == Resolved(after.executionCount, Accumulate(after.received.raw)))
            && (HasError(Accumulate(p.received.raw)) ==> after.received == p.received)
  {
    ReplyAdvances(p, content, str);
    AccumulateError(p.received.raw);
    var raw := ReplyRaw(p.received.raw, content, str);
    assert HasError(raw) by {
      if raw != p.received.raw {
        assert raw[|p.received.raw|].Error?;
      }
    }
    AccumulateError(raw);
  }

  /** The case that fails: an id displayed twice and then updated. The kernel's list keeps only the new
      data once consolidated; the raw outputs keep both displays. */
  lemma DisplayedTwiceThenUpdated(id: string, one: Record, two: Record, three: Record)
    requires id != ""
    ensures var transient := Some(map["display_id" := Str(id)]);
            var raw := [Display(DisplayData, one, Some(map[]), None, transient),
                        Display(DisplayData, two, Some(map[]), None, transient),
                        Display(UpdateDisplay, three, Some(map[]), None, transient)];
            !Unambiguous(raw) && Views(Consolidate(Accumulate(raw))) != Views(Consolidate(raw))
  {
    var transient := Some(map["display_id" := Str(id)]);
    var x := Display(DisplayData, one, Some(map[]), None, transient);
    var y := Display(DisplayData, two, Some(map[]), None, transient);
    var z := Display(UpdateDisplay, three, Some(map[]), None, transient);
    var raw := [x, y, z];
    assert DisplayIdOf(x) == DisplayIdOf(y) == DisplayIdOf(z) == Some(id);
    assert raw[..2] == [x, y] && [x, y][..1] == [x] && [x][..0] == [];
    assert Pushes([x], id) == 1 && Pushes([x, y], id) == 2;
    assert !Unambiguous(raw) by { assert IsUpdate(raw[2]) && Pushes(raw[..2], id) == 2; }
    AgreeExactlyWhenUnambiguous(raw);
  }
}
