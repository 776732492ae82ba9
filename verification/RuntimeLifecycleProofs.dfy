/** Every interleaving of the runtime service keeps the invariant. */
module RuntimeLifecycleProofs {
  import opened Common
  import opened RuntimeTable
  import opened RuntimeLifecycle

  // ---------------------------------------------------------------------------------------------
  // What one step may do to what another thread relies on.

  /** A row moves along the state graph and keeps its identity; a bound container stays bound. */
  ghost predicate Advances(a: Row, b: Row) {
    a == b ||
    (&& b.state in AllowedFrom(a.state)
     && b.id == a.id && b.owner == a.owner && b.createdAt == a.createdAt
     && (a.ref.Some? ==> b.ref == a.ref))
  }

  ghost predicate RowsAdvance(rows: Table, rows': Table) {
    forall id :: id in rows ==> id in rows' && Advances(rows[id], rows'[id])
  }

  ghost predicate MadeGrows(w: World, w': World) {
    && (forall c :: c in w.made ==> c in w'.made && w'.made[c] == w.made[c])
    && (forall c :: c in w.made && c in w'.live ==> c in w.live)
  }

  ghost predicate Evolves(w: World, w': World) {
    RowsAdvance(w.rows, w'.rows) && MadeGrows(w, w') && w'.hasProvider == w.hasProvider
  }

  /** What the provisioning thread of `id` needs of every other thread's steps. */
  ghost predicate LeavesToOwner(w: World, w': World, id: string) {
    && (id in w.rows ==>
          && id in w'.rows
          && (w'.rows[id] == w.rows[id] || w'.rows[id].state in {Stopping, Stopped})
          && w'.rows[id].ref == w.rows[id].ref
          && (forall c :: c in w.live && c in w.made && w.made[c] == id && c !in w'.live
                ==> w.rows[id].ref == Some(c) && Ended(w, id)))
    && w'.attempts[id] == w.attempts[id]
    && (forall c :: c in w'.made && w'.made[c] == id ==> c in w.made)
  }

  // ---------------------------------------------------------------------------------------------
  // Transitions from snapshots.

  /** A successful compare-and-set changes its own row only, and discards nothing: apart from what the
      call itself sets, the row written is the row that was there. */
  lemma TransitionKeeps(rows: Table, snap: Row, to: RuntimeState, provider: Option<string>, ref: Option<string>,
                        failure: Option<string>, now: int)
    requires SnapOk(rows, snap) && OneActive(rows) && rows[snap.id].id == snap.id
    requires to in AllowedFrom(snap.state)
    ensures var r := Transition(rows, snap, to, provider, ref, failure, now);
            && (r.Moved? <==> rows[snap.id].state == snap.state)
            && (r.Concurrent? <==> Rank(rows[snap.id].state) < Rank(snap.state))
            && (r.Moved? ==>
                  && r.rows == rows[snap.id := r.row]
                  && r.row == rows[snap.id].(state := to, updatedAt := now, failure := failure,
                                             provider :=
                                               if provider.Some? then provider.value else rows[snap.id].provider,
                                             ref := if ref.Some? then ref else rows[snap.id].ref)
                  && OneActive(r.rows))
  {
  }

  /** The same for request_stop, whose snapshot differs from the row in the desired state it is about to write. */
  lemma StopTransitionKeeps(rows: Table, snap: Row, now: int)
    requires OneActive(rows) && SnapOk(rows, snap.(desired := WantRunning)) && rows[snap.id].id == snap.id
    requires snap.desired == WantStopped && Active(snap.state) && snap.state != Stopping
    ensures var r := Transition(rows, snap, Stopping, None, None, None, now);
            && (r.Moved? <==> rows[snap.id].state == snap.state)
            && (r.Concurrent? <==> Rank(rows[snap.id].state) < Rank(snap.state))
            && (r.Moved? ==>
                  && r.rows == rows[snap.id := r.row]
                  && r.row == rows[snap.id].(state := Stopping, desired := WantStopped, updatedAt := now,
                                             failure := None)
                  && OneActive(r.rows))
  {
  }

  // ---------------------------------------------------------------------------------------------
  // Stability: a thread's assertion survives the steps of the others.

  lemma SnapStable(rows: Table, rows': Table, snap: Row)
    requires SnapOk(rows, snap) && RowsAdvance(rows, rows')
    ensures SnapOk(rows', snap)
  {
  }

  lemma LostStable(w: World, w': World, user: string, lost: multiset<string>)
    requires LostOk(w, user, lost) && RowsAdvance(w.rows, w'.rows)
    ensures LostOk(w', user, lost)
  {
  }

  lemma StopStable(w: World, w': World, s: StopPc)
    requires StopOk(w, s) && Evolves(w, w')
    ensures StopOk(w', s)
  {
    match s
    case SFind(user, lost) => LostStable(w, w', user, lost);
    case SWrite(snap, lost) =>
      LostStable(w, w', snap.owner, lost);
      SnapStable(w.rows, w'.rows, snap.(desired := WantRunning));
    case SDrop(snap) => SnapStable(w.rows, w'.rows, snap);
    case SFinish(snap) => SnapStable(w.rows, w'.rows, snap);
  }

  lemma NothingLiveStable(w: World, w': World, id: string)
    requires Evolves(w, w') && LeavesToOwner(w, w', id) && NothingLive(w, id)
    ensures NothingLive(w', id)
  {
  }

  /** The assertions about a snapshot and a container that both still matter. */
  lemma PollingStable(w: World, w': World, id: string, snap: Row, ref: string)
    requires Evolves(w, w') && LeavesToOwner(w, w', id) && Polling(w, id, snap, ref)
    ensures Polling(w', id, snap, ref)
  {
    SnapStable(w.rows, w'.rows, snap);
  }

  lemma ProvStable(w: World, w': World, id: string, p: ProvPc)
    requires WorldOk(w) && Evolves(w, w') && LeavesToOwner(w, w', id)
    requires ProvOk(w, id, p)
    ensures ProvOk(w', id, p)
  {
    match p
    case PClaim(snap) => SnapStable(w.rows, w'.rows, snap);
    case PDrop(current, ref) => if current.Some? { SnapStable(w.rows, w'.rows, current.value); }
    case PMarkStopped(snap, ref) => SnapStable(w.rows, w'.rows, snap);
    case PBind(snap, ref) => SnapStable(w.rows, w'.rows, snap);
    case PPoll(snap, ref) => PollingStable(w, w', id, snap, ref);
    case PReady(snap, ref) => PollingStable(w, w', id, snap, ref);
    case HDrop(held) => if held.None? { NothingLiveStable(w, w', id); }
    case HGet => NothingLiveStable(w, w', id);
    case HFail(snap) => NothingLiveStable(w, w', id); SnapStable(w.rows, w'.rows, snap);
    case _ =>
  }

  lemma ThreadStable(w: World, w': World, pc: Pc)
    requires WorldOk(w) && Evolves(w, w') && ThreadOk(w, pc)
    requires pc.Prov? ==> LeavesToOwner(w, w', pc.id)
    ensures ThreadOk(w', pc)
  {
    match pc
    case Ensure(p) =>
    case Prov(id, p) => ProvStable(w, w', id, p);
    case Stop(s) => StopStable(w, w', s);
    case Done(_) =>
  }

  // ---------------------------------------------------------------------------------------------
  // World steps.

  /** Writing the row of a compare-and-set keeps the world in order when the new row is in order. */
  lemma WriteKeepsWorld(w: World, w': World, id: string, row: Row)
    requires WorldOk(w) && id in w.rows
    requires w' == w.(rows := w.rows[id := row])
    requires RowOk(w', id) && OneActive(w'.rows)
    ensures WorldOk(w')
  {
    forall other | other in w'.rows
      ensures RowOk(w', other)
    {
      if other != id {
        assert RowOk(w, other);
      }
    }
  }

  lemma TerminateKeepsWorld(w: World, id: string, ref: string)
    requires WorldOk(w) && id in w.rows && Owns(w, id, ref) && w.rows[id].state != Ready
    ensures WorldOk(Terminate(w, Some(ref)))
    ensures Evolves(w, Terminate(w, Some(ref)))
    ensures NothingLive(Terminate(w, Some(ref)), id)
  {
    var w' := Terminate(w, Some(ref));
    forall other | other in w'.rows
      ensures RowOk(w', other)
    {
      assert RowOk(w, other);
    }
  }

  lemma TerminateKeepsServing(w: World, id: string, ref: string)
    requires id in w.rows && Owns(w, id, ref) && w.rows[id].state != Ready
    ensures forall c :: Serving(w, c) ==> Serving(Terminate(w, Some(ref)), c)
    ensures forall other :: other != id ==> LeavesToOwner(w, Terminate(w, Some(ref)), other)
  {
  }

  function Created(w: World, id: string, container: string): World {
    w.(attempts := w.attempts + multiset{id}, live := w.live + {container}, made := w.made[container := id])
  }

  lemma CreateKeepsContainers(w: World, id: string, container: string)
    requires ContainersOk(w) && id in w.rows && w.attempts[id] == 0 && container !in w.made
    ensures ContainersOk(Created(w, id, container))
  {
    var w' := Created(w, id, container);
    assert forall c :: c in w.made ==> w.made[c] != id;
  }

  lemma CreateKeepsRows(w: World, id: string, container: string)
    requires WorldOk(w) && NotUp(w, id) && container !in w.made
    ensures forall other :: other in w.rows ==> RowOk(Created(w, id, container), other)
  {
    forall other | other in w.rows
      ensures RowOk(Created(w, id, container), other)
    {
      assert RowOk(w, other);
    }
  }

  lemma CreateKeepsWorld(w: World, id: string, container: string)
    requires WorldOk(w) && w.hasProvider && NotUp(w, id) && w.attempts[id] == 0 && container !in w.made
    ensures WorldOk(Created(w, id, container))
  {
    CreateKeepsContainers(w, id, container);
    CreateKeepsRows(w, id, container);
  }

  lemma FailedCreateKeepsWorld(w: World, id: string)
    requires WorldOk(w) && NotUp(w, id) && w.attempts[id] == 0
    ensures WorldOk(w.(attempts := w.attempts + multiset{id}))
  {
    var w' := w.(attempts := w.attempts + multiset{id});
    forall other | other in w'.rows
      ensures RowOk(w', other)
    {
      assert RowOk(w, other);
    }
  }

  lemma InsertedRow(w: World, draft: Row)
    requires WorldOk(w) && EnsureOk(w, EInsert(draft)) && Insert(w.rows, draft).Some?
    ensures RowOk(w.(rows := w.rows[draft.id := draft]), draft.id)
  {
    assert draft.id !in w.attempts;
  }

  lemma InsertedOthers(w: World, draft: Row, other: string)
    requires other in w.rows && RowOk(w, other) && other != draft.id
    ensures RowOk(w.(rows := w.rows[draft.id := draft]), other)
  {
  }

  lemma InsertedActive(w: World, draft: Row)
    requires OneActive(w.rows) && Insert(w.rows, draft).Some?
    ensures OneActive(w.rows[draft.id := draft])
  {
  }

  lemma InsertKeepsWorld(w: World, draft: Row)
    requires WorldOk(w) && EnsureOk(w, EInsert(draft)) && Insert(w.rows, draft).Some?
    ensures WorldOk(w.(rows := Insert(w.rows, draft).value))
    ensures Evolves(w, w.(rows := Insert(w.rows, draft).value))
  {
    var w' := w.(rows := w.rows[draft.id := draft]);
    forall other | other in w'.rows
      ensures RowOk(w', other)
    {
      if other != draft.id {
        InsertedOthers(w, draft, other);
      } else {
        InsertedRow(w, draft);
      }
    }
    InsertedActive(w, draft);
  }

  // ---------------------------------------------------------------------------------------------
  // Steps of a provisioning thread.

  /** What a step of the provisioning thread of `id` from `p` to `q` must achieve. */
  ghost predicate ProvGood(w: World, w': World, id: string, p: ProvPc, q: ProvPc) {
    && WorldOk(w') && Evolves(w, w') && ProvOk(w', id, q)
    && w'.provisioning == w.provisioning
    && (forall other :: other != id ==> LeavesToOwner(w, w', other))
    && (forall c :: c in w'.live && c !in w.live ==> HeldBy(q) == Some(c))
    && (forall c :: HeldBy(p) == Some(c) && c in w'.live ==> HeldBy(q) == Some(c) || Serving(w', c))
    && (forall c :: Serving(w, c) ==> Serving(w', c))
  }

  /** A provisioning thread that changes nothing shared. */
  lemma ProvLocal(w: World, id: string, p: ProvPc, q: ProvPc)
    requires WorldOk(w) && ProvOk(w, id, p) && ProvOk(w, id, q)
    requires HeldBy(p).Some? && HeldBy(p).value in w.live ==> HeldBy(q) == HeldBy(p)
    ensures ProvGood(w, w, id, p, q)
  {
  }

  /** A provisioning thread that terminates a container of its own runtime. */
  lemma ProvTerminates(w: World, id: string, p: ProvPc, q: ProvPc, ref: string)
    requires WorldOk(w) && id in w.rows && HeldBy(p) == Some(ref)
    requires Owns(w, id, ref) && w.rows[id].state != Ready
    requires ProvOk(Terminate(w, Some(ref)), id, q)
    ensures ProvGood(w, Terminate(w, Some(ref)), id, p, q)
  {
    TerminateKeepsWorld(w, id, ref);
    TerminateKeepsServing(w, id, ref);
  }

  lemma WriteLeaves(w: World, w': World, id: string, row: Row)
    requires id in w.rows && w' == w.(rows := w.rows[id := row])
    requires Advances(w.rows[id], row) && w.rows[id].state != Ready
    ensures Evolves(w, w')
    ensures forall other :: other != id ==> LeavesToOwner(w, w', other)
    ensures forall c :: Serving(w, c) ==> Serving(w', c)
  {
  }

  /** A provisioning thread that moves its own row. */
  lemma ProvWrites(w: World, w': World, id: string, p: ProvPc, q: ProvPc, row: Row)
    requires WorldOk(w) && id in w.rows
    requires w' == w.(rows := w.rows[id := row]) && Advances(w.rows[id], row) && w.rows[id].state != Ready
    requires RowOk(w', id) && OneActive(w'.rows) && ProvOk(w', id, q)
    requires forall c :: HeldBy(p) == Some(c) && c in w'.live ==> HeldBy(q) == Some(c) || Serving(w', c)
    ensures ProvGood(w, w', id, p, q)
  {
    WriteKeepsWorld(w, w', id, row);
    WriteLeaves(w, w', id, row);
  }

  lemma ClaimGood(w: World, id: string, snap: Row, e: Env)
    requires WorldOk(w) && ProvOk(w, id, PClaim(snap))
    ensures var (w', q) := ProvStep(w, id, PClaim(snap), e); ProvGood(w, w', id, PClaim(snap), q)
  {
    var (w', q) := ProvStep(w, id, PClaim(snap), e);
    assert RowOk(w, id);
    var r := Transition(w.rows, snap, Provisioning, Some("docker"), None, None, e.now);
    TransitionKeeps(w.rows, snap, Provisioning, Some("docker"), None, None, e.now);
    if !e.raises && r.Moved? {
      ProvWrites(w, w', id, PClaim(snap), q, r.row);
    } else {
      ProvLocal(w, id, PClaim(snap), q);
    }
  }

  lemma CreateLeaves(w: World, id: string, container: string)
    requires container !in w.made
    ensures Evolves(w, Created(w, id, container))
    ensures forall other :: other != id ==> LeavesToOwner(w, Created(w, id, container), other)
    ensures forall c :: Serving(w, c) ==> Serving(Created(w, id, container), c)
  {
  }

  function Attempted(w: World, id: string): World {
    w.(attempts := w.attempts + multiset{id})
  }

  lemma FailedCreateLeaves(w: World, id: string)
    ensures Evolves(w, Attempted(w, id))
    ensures forall other :: other != id ==> LeavesToOwner(w, Attempted(w, id), other)
    ensures forall c :: Serving(w, c) ==> Serving(Attempted(w, id), c)
  {
  }

  /** Nothing was made for a runtime whose creation was not attempted before. */
  lemma NothingMade(w: World, id: string)
    requires ContainersOk(w) && w.attempts[id] == 0
    ensures NothingLive(w, id)
  {
  }

  lemma FailedCreateHeld(w: World, id: string, snap: Row)
    requires WorldOk(w) && ProvOk(w, id, PCreate(snap))
    ensures ProvOk(Attempted(w, id), id, HDrop(None))
  {
    NothingMade(w, id);
    assert NothingLive(Attempted(w, id), id);
  }

  lemma FailedCreateGood(w: World, id: string, snap: Row)
    requires WorldOk(w) && ProvOk(w, id, PCreate(snap))
    ensures ProvGood(w, w.(attempts := w.attempts + multiset{id}), id, PCreate(snap), HDrop(None))
  {
    FailedCreateKeepsWorld(w, id);
    FailedCreateLeaves(w, id);
    FailedCreateHeld(w, id, snap);
  }

  lemma CreatedGood(w: World, id: string, snap: Row, container: string)
    requires WorldOk(w) && ProvOk(w, id, PCreate(snap)) && container !in w.made
    ensures ProvGood(w, Created(w, id, container), id, PCreate(snap), PRecheck(container))
  {
    var w' := Created(w, id, container);
    CreateLeaves(w, id, container);
    assert ProvOk(w', id, PRecheck(container));
    CreateKeepsWorld(w, id, container);
  }

  lemma CreateGood(w: World, id: string, snap: Row, e: Env)
    requires WorldOk(w) && ProvOk(w, id, PCreate(snap))
    ensures var (w', q) := ProvStep(w, id, PCreate(snap), e); ProvGood(w, w', id, PCreate(snap), q)
  {
    if e.raises || e.container in w.made {
      FailedCreateGood(w, id, snap);
    } else {
      CreatedGood(w, id, snap, e.container);
      assert ProvStep(w, id, PCreate(snap), e).0 == Created(w, id, e.container);
    }
  }

  lemma RecheckGood(w: World, id: string, ref: string, e: Env)
    requires WorldOk(w) && ProvOk(w, id, PRecheck(ref))
    ensures var (w', q) := ProvStep(w, id, PRecheck(ref), e); ProvGood(w, w', id, PRecheck(ref), q)
  {
    assert RowOk(w, id);
    ProvLocal(w, id, PRecheck(ref), ProvStep(w, id, PRecheck(ref), e).1);
  }

  lemma DropGood(w: World, id: string, current: Option<Row>, ref: string, e: Env)
    requires WorldOk(w) && ProvOk(w, id, PDrop(current, ref))
    ensures var (w', q) := ProvStep(w, id, PDrop(current, ref), e); ProvGood(w, w', id, PDrop(current, ref), q)
  {
    ProvTerminates(w, id, PDrop(current, ref), ProvStep(w, id, PDrop(current, ref), e).1, ref);
  }

  lemma MarkStoppedGood(w: World, id: string, snap: Row, ref: string, e: Env)
    requires WorldOk(w) && ProvOk(w, id, PMarkStopped(snap, ref))
    ensures var (w', q) := ProvStep(w, id, PMarkStopped(snap, ref), e); ProvGood(w, w', id, PMarkStopped(snap, ref), q)
  {
    var p := PMarkStopped(snap, ref);
    var (w', q) := ProvStep(w, id, p, e);
    assert RowOk(w, id);
    var r := Transition(w.rows, snap, Stopped, None, None, None, e.now);
    TransitionKeeps(w.rows, snap, Stopped, None, None, None, e.now);
    if !e.raises && r.Moved? {
      ProvWrites(w, w', id, p, q, r.row);
    } else {
      ProvLocal(w, id, p, q);
    }
  }

  lemma BindGood(w: World, id: string, snap: Row, ref: string, e: Env)
    requires WorldOk(w) && ProvOk(w, id, PBind(snap, ref))
    ensures var (w', q) := ProvStep(w, id, PBind(snap, ref), e); ProvGood(w, w', id, PBind(snap, ref), q)
  {
    var p := PBind(snap, ref);
    var (w', q) := ProvStep(w, id, p, e);
    assert RowOk(w, id);
    var r := Transition(w.rows, snap, Starting, None, Some(ref), None, e.now);
    TransitionKeeps(w.rows, snap, Starting, None, Some(ref), None, e.now);
    if !e.raises && r.Moved? {
      ProvWrites(w, w', id, p, q, r.row);
    } else {
      ProvLocal(w, id, p, q);
    }
  }

  lemma ReadyGood(w: World, id: string, snap: Row, ref: string, e: Env)
    requires WorldOk(w) && ProvOk(w, id, PReady(snap, ref))
    ensures var (w', q) := ProvStep(w, id, PReady(snap, ref), e); ProvGood(w, w', id, PReady(snap, ref), q)
  {
    var p := PReady(snap, ref);
    var (w', q) := ProvStep(w, id, p, e);
    assert RowOk(w, id);
    var r := Transition(w.rows, snap, Ready, None, None, None, e.now);
    TransitionKeeps(w.rows, snap, Ready, None, None, None, e.now);
    if !e.raises && r.Moved? {
      ProvWrites(w, w', id, p, q, r.row);
    } else {
      ProvLocal(w, id, p, q);
    }
  }

  lemma HandlerDropGood(w: World, id: string, held: Option<string>, e: Env)
    requires WorldOk(w) && ProvOk(w, id, HDrop(held))
    ensures var (w', q) := ProvStep(w, id, HDrop(held), e); ProvGood(w, w', id, HDrop(held), q)
  {
    match held
    case None => ProvLocal(w, id, HDrop(held), HGet);
    case Some(ref) =>
      TerminateKeepsWorld(w, id, ref);
      ProvTerminates(w, id, HDrop(held), HGet, ref);
  }

  lemma HandlerFails(w: World, id: string, snap: Row, row: Row)
    requires WorldOk(w) && ProvOk(w, id, HFail(snap)) && w.rows[id].state == snap.state
    requires row == w.rows[id].(state := Failed, updatedAt := row.updatedAt, failure := row.failure)
    requires OneActive(w.rows[id := row])
    ensures ProvGood(w, w.(rows := w.rows[id := row]), id, HFail(snap), PExit)
  {
    var w' := w.(rows := w.rows[id := row]);
    assert RowOk(w, id);
    assert RowOk(w', id);
    ProvWrites(w, w', id, HFail(snap), PExit, row);
  }

  lemma HandlerFailGood(w: World, id: string, snap: Row, e: Env)
    requires WorldOk(w) && ProvOk(w, id, HFail(snap))
    ensures var (w', q) := ProvStep(w, id, HFail(snap), e); ProvGood(w, w', id, HFail(snap), q)
  {
    var q := ProvStep(w, id, HFail(snap), e).1;
    assert w.rows[id].id == id by { assert RowOk(w, id); }
    assert Failed in AllowedFrom(snap.state);
    var r := Transition(w.rows, snap, Failed, None, None, Some(e.reason), e.now);
    TransitionKeeps(w.rows, snap, Failed, None, None, Some(e.reason), e.now);
    if !e.raises && r.Moved? {
      HandlerFails(w, id, snap, r.row);
    } else {
      ProvLocal(w, id, HFail(snap), q);
    }
  }

  lemma GetGood(w: World, id: string, e: Env)
    requires WorldOk(w) && ProvOk(w, id, PGet)
    ensures var (w', q) := ProvStep(w, id, PGet, e); ProvGood(w, w', id, PGet, q)
  {
    assert RowOk(w, id);
    ProvLocal(w, id, PGet, ProvStep(w, id, PGet, e).1);
  }

  lemma AbortGood(w: World, id: string, ref: string, e: Env)
    requires WorldOk(w) && ProvOk(w, id, PAbort(ref))
    ensures var (w', q) := ProvStep(w, id, PAbort(ref), e); ProvGood(w, w', id, PAbort(ref), q)
  {
    ProvTerminates(w, id, PAbort(ref), PExit, ref);
  }

  lemma HandlerGetGood(w: World, id: string, e: Env)
    requires WorldOk(w) && ProvOk(w, id, HGet)
    ensures var (w', q) := ProvStep(w, id, HGet, e); ProvGood(w, w', id, HGet, q)
  {
    assert RowOk(w, id);
    ProvLocal(w, id, HGet, ProvStep(w, id, HGet, e).1);
  }

  lemma PollGood(w: World, id: string, snap: Row, ref: string, e: Env)
    requires WorldOk(w) && ProvOk(w, id, PPoll(snap, ref))
    ensures var (w', q) := ProvStep(w, id, PPoll(snap, ref), e); ProvGood(w, w', id, PPoll(snap, ref), q)
  {
    ProvLocal(w, id, PPoll(snap, ref), ProvStep(w, id, PPoll(snap, ref), e).1);
  }

  lemma MainStepGood(w: World, id: string, p: ProvPc, e: Env)
    requires WorldOk(w) && ProvOk(w, id, p) && (p.PGet? || p.PClaim? || p.PCreate? || p.PRecheck? || p.PDrop?
                                                || p.PMarkStopped?)
    ensures var (w', q) := ProvStep(w, id, p, e); ProvGood(w, w', id, p, q)
  {
    match p
    case PGet => GetGood(w, id, e);
    case PClaim(snap) => ClaimGood(w, id, snap, e);
    case PCreate(snap) => CreateGood(w, id, snap, e);
    case PRecheck(ref) => RecheckGood(w, id, ref, e);
    case PDrop(current, ref) => DropGood(w, id, current, ref, e);
    case PMarkStopped(snap, ref) => MarkStoppedGood(w, id, snap, ref, e);
  }

  lemma BindStepGood(w: World, id: string, p: ProvPc, e: Env)
    requires WorldOk(w) && ProvOk(w, id, p) && (p.PBind? || p.PPoll? || p.PReady? || p.PAbort?)
    ensures var (w', q) := ProvStep(w, id, p, e); ProvGood(w, w', id, p, q)
  {
    match p
    case PBind(snap, ref) => BindGood(w, id, snap, ref, e);
    case PPoll(snap, ref) => PollGood(w, id, snap, ref, e);
    case PReady(snap, ref) => ReadyGood(w, id, snap, ref, e);
    case PAbort(ref) => AbortGood(w, id, ref, e);
  }

  lemma HandlerStepGood(w: World, id: string, p: ProvPc, e: Env)
    requires WorldOk(w) && ProvOk(w, id, p) && (p.HDrop? || p.HGet? || p.HFail?)
    ensures var (w', q) := ProvStep(w, id, p, e); ProvGood(w, w', id, p, q)
  {
    match p
    case HDrop(held) => HandlerDropGood(w, id, held, e);
    case HGet => HandlerGetGood(w, id, e);
    case HFail(snap) => HandlerFailGood(w, id, snap, e);
  }

  lemma ProvStepGood(w: World, id: string, p: ProvPc, e: Env)
    requires WorldOk(w) && ProvOk(w, id, p) && p != PExit
    ensures ProvGood(w, ProvStep(w, id, p, e).0, id, p, ProvStep(w, id, p, e).1)
  {
    if p.HDrop? || p.HGet? || p.HFail? {
      HandlerStepGood(w, id, p, e);
    } else if p.PBind? || p.PPoll? || p.PReady? || p.PAbort? {
      BindStepGood(w, id, p, e);
    } else {
      MainStepGood(w, id, p, e);
    }
  }

  // ---------------------------------------------------------------------------------------------
  // Steps of request_stop and ensure_user_runtime.

  /** What a step of a request thread must achieve. */
  ghost predicate RequestGood(w: World, w': World, pc: Pc, pc': Pc) {
    && WorldOk(w') && Evolves(w, w') && ThreadOk(w', pc')
    && (forall other :: LeavesToOwner(w, w', other))
    && w'.live <= w.live
    && (forall c :: Holding(pc) == Some(c) ==> c !in w'.live)
    && (forall c :: Serving(w, c) ==> Serving(w', c) || Holding(pc') == Some(c) || c !in w'.live)
  }

  lemma StopTerminated(w: World, snap: Row)
    requires WorldOk(w) && StopOk(w, SDrop(snap))
    ensures StopOk(Terminate(w, snap.ref), SFinish(snap))
  {
    assert RowOk(w, snap.id);
  }

  lemma StopTerminates(w: World, snap: Row)
    requires WorldOk(w) && StopOk(w, SDrop(snap))
    ensures RequestGood(w, Terminate(w, snap.ref), Stop(SDrop(snap)), Stop(SFinish(snap)))
  {
    StopTerminated(w, snap);
    if snap.ref.Some? {
      StopTerminatesRef(w, snap, snap.ref.value);
    } else {
      RequestLocal(w, Stop(SDrop(snap)), Stop(SFinish(snap)));
    }
  }

  lemma StopTerminatesRef(w: World, snap: Row, ref: string)
    requires WorldOk(w) && StopOk(w, SDrop(snap)) && snap.ref == Some(ref)
    requires StopOk(Terminate(w, Some(ref)), SFinish(snap))
    ensures RequestGood(w, Terminate(w, Some(ref)), Stop(SDrop(snap)), Stop(SFinish(snap)))
  {
    assert RowOk(w, snap.id);
    TerminateKeepsWorld(w, snap.id, ref);
    TerminateKeepsServing(w, snap.id, ref);
    TerminateLeaves(w, snap.id, ref);
  }

  /** Terminating the container bound to an ended row takes nothing from its owner. */
  lemma TerminateLeaves(w: World, id: string, ref: string)
    requires id in w.rows && w.rows[id].ref == Some(ref) && Ended(w, id) && Owns(w, id, ref)
    ensures forall other :: LeavesToOwner(w, Terminate(w, Some(ref)), other)
  {
  }

  lemma StopLeaves(w: World, w': World, row: Row)
    requires row.id in w.rows && w' == w.(rows := w.rows[row.id := row])
    requires Advances(w.rows[row.id], row) && row.ref == w.rows[row.id].ref && row.state in {Stopping, Stopped}
    ensures Evolves(w, w')
    ensures forall other :: LeavesToOwner(w, w', other)
    ensures forall c :: Serving(w, c) ==> Serving(w', c) || row.ref == Some(c)
  {
  }

  /** request_stop writes STOPPING over its row, or STOPPED over a STOPPING row. */
  lemma StopWrites(w: World, w': World, row: Row, pc: Pc, pc': Pc)
    requires WorldOk(w) && row.id in w.rows && w' == w.(rows := w.rows[row.id := row])
    requires Advances(w.rows[row.id], row) && row.ref == w.rows[row.id].ref
    requires row.state == Stopping || (row.state == Stopped && (row.ref.Some? ==> row.ref.value !in w.live))
    requires OneActive(w'.rows) && ThreadOk(w', pc') && Holding(pc).None?
    requires row.ref.Some? && row.ref.value in w.live ==> Holding(pc') == row.ref
    ensures RequestGood(w, w', pc, pc')
  {
    assert RowOk(w, row.id);
    WriteKeepsWorld(w, w', row.id, row);
    StopLeaves(w, w', row);
  }

  /** A request thread that changes nothing shared. */
  lemma RequestLocal(w: World, pc: Pc, pc': Pc)
    requires WorldOk(w) && ThreadOk(w, pc') && Holding(pc).None?
    ensures RequestGood(w, w, pc, pc')
  {
  }

  /** A lost compare-and-set of the stop loop is paid for by the drop of its row's rank. */
  lemma LostMore(w: World, snap: Row, lost: multiset<string>)
    requires StopOk(w, SWrite(snap, lost)) && Rank(w.rows[snap.id].state) < Rank(snap.state)
    ensures LostOk(w, snap.owner, lost + multiset{snap.id})
  {
  }

  lemma StopWriteMoves(w: World, snap: Row, lost: multiset<string>, row: Row, pc: Pc)
    requires WorldOk(w) && StopOk(w, SWrite(snap, lost)) && snap.id in w.rows && row.id == snap.id
    requires row == w.rows[snap.id].(state := Stopping, desired := WantStopped, updatedAt := row.updatedAt,
                                     failure := None)
    requires w.rows[snap.id].state == snap.state && OneActive(w.rows[row.id := row])
    requires pc == (if w.hasProvider then Stop(SDrop(row)) else Done(Some(row)))
    ensures RequestGood(w, w.(rows := w.rows[row.id := row]), Stop(SWrite(snap, lost)), pc)
  {
    var w' := w.(rows := w.rows[row.id := row]);
    assert RowOk(w, snap.id);
    if w.hasProvider {
      assert StopOk(w', SDrop(row));
    } else {
      assert w.rows[snap.id].ref.None?;
    }
    StopWrites(w, w', row, Stop(SWrite(snap, lost)), pc);
  }

  lemma StopWriteGood(w: World, snap: Row, lost: multiset<string>, e: Env)
    requires WorldOk(w) && StopOk(w, SWrite(snap, lost))
    ensures var (w', pc) := StopStep(w, SWrite(snap, lost), e); RequestGood(w, w', Stop(SWrite(snap, lost)), pc)
  {
    var pc := StopStep(w, SWrite(snap, lost), e).1;
    assert RowOk(w, snap.id);
    StopTransitionKeeps(w.rows, snap, e.now);
    var r := Transition(w.rows, snap, Stopping, None, None, None, e.now);
    if !e.raises && r.Moved? {
      StopWriteMoves(w, snap, lost, r.row, pc);
    } else {
      if !e.raises {
        LostMore(w, snap, lost);
      }
      RequestLocal(w, Stop(SWrite(snap, lost)), pc);
    }
  }

  lemma StopFinishGood(w: World, snap: Row, e: Env)
    requires WorldOk(w) && StopOk(w, SFinish(snap))
    ensures var (w', pc) := StopStep(w, SFinish(snap), e); RequestGood(w, w', Stop(SFinish(snap)), pc)
  {
    var p := Stop(SFinish(snap));
    var (w', pc) := StopStep(w, SFinish(snap), e);
    assert RowOk(w, snap.id);
    TransitionKeeps(w.rows, snap, Stopped, None, None, None, e.now);
    var r := Transition(w.rows, snap, Stopped, None, None, None, e.now);
    if !e.raises && r.Moved? {
      StopWrites(w, w', r.row, p, pc);
    } else {
      RequestLocal(w, p, pc);
    }
  }

  lemma FoundWrites(w: World, user: string, lost: multiset<string>, row: Row)
    requires StopOk(w, SFind(user, lost)) && row.id in w.rows && w.rows[row.id] == row && row.owner == user
    requires Active(row.state) && row.state != Stopping && RowOk(w, row.id)
    ensures StopOk(w, SWrite(row.(desired := WantStopped), lost))
  {
    assert row.(desired := WantStopped).(desired := WantRunning) == row;
    assert row.id in lost ==> lost[row.id] + Rank(w.rows[row.id].state) <= 6;
  }

  lemma StopFindGood(w: World, user: string, lost: multiset<string>, e: Env)
    requires WorldOk(w) && StopOk(w, SFind(user, lost))
    ensures var (w', pc) := StopStep(w, SFind(user, lost), e); RequestGood(w, w', Stop(SFind(user, lost)), pc)
  {
    var pc := StopStep(w, SFind(user, lost), e).1;
    assert ThreadOk(w, pc) by {
      var found := FindActive(w.rows, user);
      if found.Some? {
        FoundRow(w, user);
        if found.value.state != Stopping {
          FoundWrites(w, user, lost, found.value);
        }
      }
    }
    RequestLocal(w, Stop(SFind(user, lost)), pc);
  }

  lemma FoundRow(w: World, user: string)
    requires WorldOk(w) && FindActive(w.rows, user).Some?
    ensures var row := FindActive(w.rows, user).value;
            && row.id in w.rows && w.rows[row.id] == row && row.owner == user
            && Active(row.state) && RowOk(w, row.id)
  {
    var row := FindActive(w.rows, user).value;
    var id :| IsNewestActive(w.rows, user, id) && w.rows[id] == row;
    assert RowOk(w, id);
  }

  lemma StopStepGood(w: World, s: StopPc, e: Env)
    requires WorldOk(w) && StopOk(w, s)
    ensures var (w', pc) := StopStep(w, s, e); RequestGood(w, w', Stop(s), pc)
  {
    match s
    case SFind(user, lost) => StopFindGood(w, user, lost, e);
    case SWrite(snap, lost) => StopWriteGood(w, snap, lost, e);
    case SDrop(snap) => StopTerminates(w, snap);
    case SFinish(snap) => StopFinishGood(w, snap, e);
  }

  lemma InsertLeaves(w: World, draft: Row)
    requires WorldOk(w) && Insert(w.rows, draft).Some?
    ensures forall other :: LeavesToOwner(w, w.(rows := Insert(w.rows, draft).value), other)
    ensures forall c :: Serving(w, c) ==> Serving(w.(rows := Insert(w.rows, draft).value), c)
  {
  }

  lemma InsertGood(w: World, draft: Row, pc: Pc)
    requires WorldOk(w) && EnsureOk(w, EInsert(draft)) && Insert(w.rows, draft).Some?
    requires ThreadOk(w.(rows := Insert(w.rows, draft).value), pc)
    ensures RequestGood(w, w.(rows := Insert(w.rows, draft).value), Ensure(EInsert(draft)), pc)
  {
    InsertKeepsWorld(w, draft);
    InsertLeaves(w, draft);
  }

  lemma LockKeepsWorld(w: World, provisioning: set<string>)
    requires WorldOk(w)
    ensures WorldOk(w.(provisioning := provisioning))
  {
    var w' := w.(provisioning := provisioning);
    forall id | id in w'.rows
      ensures RowOk(w', id)
    {
      assert RowOk(w, id);
    }
  }

  lemma LockLeaves(w: World, provisioning: set<string>)
    ensures Evolves(w, w.(provisioning := provisioning))
    ensures forall other :: LeavesToOwner(w, w.(provisioning := provisioning), other)
    ensures forall c :: Serving(w, c) ==> Serving(w.(provisioning := provisioning), c)
  {
  }

  lemma LockGood(w: World, mine: Row)
    requires WorldOk(w) && EnsureOk(w, ELock(mine))
    ensures RequestGood(w, w.(provisioning := w.provisioning + {mine.id}), Ensure(ELock(mine)), Ensure(ESpawn(mine)))
  {
    LockKeepsWorld(w, w.provisioning + {mine.id});
    LockLeaves(w, w.provisioning + {mine.id});
  }

  lemma EnsureStepGood(w: World, p: EnsurePc, e: Env)
    requires WorldOk(w) && EnsureOk(w, p)
    ensures var (w', pc) := EnsureStep(w, p, e); RequestGood(w, w', Ensure(p), pc)
  {
    var pc := EnsureStep(w, p, e).1;
    match p
    case EFind(user, profile) =>
      if FindActive(w.rows, user).Some? {
        FoundRow(w, user);
      }
      RequestLocal(w, Ensure(p), pc);
    case EInsert(draft) =>
      if !e.raises && Insert(w.rows, draft).Some? {
        InsertGood(w, draft, pc);
      } else {
        RequestLocal(w, Ensure(p), pc);
      }
    case ERefind(user) => RequestLocal(w, Ensure(p), pc);
    case ELock(mine) =>
      if mine.id in w.provisioning {
        RequestLocal(w, Ensure(p), pc);
      } else {
        LockGood(w, mine);
      }
    case ESpawn(mine) => RequestLocal(w, Ensure(p), pc);
  }
}
