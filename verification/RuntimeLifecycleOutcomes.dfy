/** What the runtime service's requests achieve, in every run. */
module RuntimeLifecycleOutcomes {
  import opened Common
  import opened RuntimeTable
  import opened RuntimeLifecycle
  import opened RuntimeLifecycleProofs
  import opened RuntimeLifecycleRuns
  import opened RuntimeLifecycleTheorems

  // ---------------------------------------------------------------------------------------------
  // Runs.

  lemma ExecMore(s: State, a: seq<Action>, x: Action)
    ensures Exec(s, a + [x]) == Step(Exec(s, a), x)
  {
    assert (a + [x])[..|a|] == a;
  }

  lemma StepProvider(s: State, a: Action)
    ensures Step(s, a).world.hasProvider == s.world.hasProvider
  {
  }

  lemma {:induction false} ProviderStays(hasProvider: bool, actions: seq<Action>)
    ensures Exec(Init(hasProvider), actions).world.hasProvider == hasProvider
    decreases |actions|
  {
    if actions != [] {
      ProviderStays(hasProvider, actions[..|actions| - 1]);
      StepProvider(Exec(Init(hasProvider), actions[..|actions| - 1]), actions[|actions| - 1]);
    }
  }

  /** A step that is not thread `t`'s own leaves it alone. */
  lemma OthersStay(s: State, a: Action, t: nat)
    requires t in s.threads && !(a.Advance? && a.thread == t)
    ensures t in Step(s, a).threads && Step(s, a).threads[t] == s.threads[t]
  {
  }

  // ---------------------------------------------------------------------------------------------
  // A stop.

  /** A runtime of the user that no longer runs and will not. */
  ghost predicate Halted(w: World, row: Row, user: string) {
    && row.owner == user && row.id in w.rows && w.rows[row.id].owner == user
    && w.rows[row.id].state in (if w.hasProvider then {Failed, Stopped} else {Stopping, Failed, Stopped})
  }

  /** What a thread begun as a stop for the user works on at each point, and has achieved when it is done. */
  ghost predicate StopFor(w: World, pc: Pc, user: string) {
    match pc
    case Stop(SFind(u, _)) => u == user
    case Stop(SWrite(snap, _)) => snap.owner == user
    case Stop(SDrop(snap)) => snap.owner == user && w.hasProvider
    case Stop(SFinish(snap)) => snap.owner == user && w.hasProvider
    case Done(None) => true
    case Done(Some(row)) => Halted(w, row, user)
    case _ => false
  }

  lemma StopForStable(w: World, w': World, pc: Pc, user: string)
    requires StopFor(w, pc, user) && RowsAdvance(w.rows, w'.rows) && w'.hasProvider == w.hasProvider
    ensures StopFor(w', pc, user)
  {
  }

  lemma FoundFor(w: World, user: string, lost: multiset<string>, e: Env)
    requires WorldOk(w)
    ensures var (w', pc) := StopStep(w, SFind(user, lost), e); StopFor(w', pc, user)
  {
    if FindActive(w.rows, user).Some? {
      FoundRow(w, user);
    }
  }

  lemma WrittenFor(w: World, snap: Row, lost: multiset<string>, e: Env)
    requires WorldOk(w) && StopOk(w, SWrite(snap, lost))
    ensures var (w', pc) := StopStep(w, SWrite(snap, lost), e); StopFor(w', pc, snap.owner)
  {
    assert RowOk(w, snap.id);
    StopTransitionKeeps(w.rows, snap, e.now);
  }

  lemma FinishedFor(w: World, snap: Row, e: Env)
    requires WorldOk(w) && StopOk(w, SFinish(snap))
    ensures var (w', pc) := StopStep(w, SFinish(snap), e); StopFor(w', pc, snap.owner)
  {
    assert RowOk(w, snap.id);
    TransitionKeeps(w.rows, snap, Stopped, None, None, None, e.now);
  }

  lemma StopForStep(w: World, p: StopPc, e: Env, user: string)
    requires WorldOk(w) && StopOk(w, p) && StopFor(w, Stop(p), user)
    ensures var (w', pc) := StopStep(w, p, e); StopFor(w', pc, user)
  {
    match p
    case SFind(_, lost) => FoundFor(w, user, lost, e);
    case SWrite(snap, lost) => WrittenFor(w, snap, lost, e);
    case SDrop(_) =>
    case SFinish(snap) => FinishedFor(w, snap, e);
  }

  lemma StopForAction(hasProvider: bool, actions: seq<Action>, a: Action, t: nat, user: string)
    requires t in Exec(Init(hasProvider), actions).threads
    requires var s := Exec(Init(hasProvider), actions); StopFor(s.world, s.threads[t], user)
    ensures var s' := Step(Exec(Init(hasProvider), actions), a);
            t in s'.threads && StopFor(s'.world, s'.threads[t], user)
  {
    var s := Exec(Init(hasProvider), actions);
    ReachableInv(hasProvider, actions);
    assert ThreadOk(s.world, s.threads[t]);
    if a.Advance? && a.thread == t && s.threads[t].Stop? {
      StopForStep(s.world, s.threads[t].s, a.env, user);
      StopAdvance(s, t, s.threads[t].s, a.env);
    } else if !(a.Advance? && a.thread == t) {
      OthersStay(s, a, t);
      StepRows(hasProvider, actions, a);
      StepProvider(s, a);
      StopForStable(s.world, Step(s, a).world, s.threads[t], user);
    }
  }

  /** The thread was begun by action `k` as a stop for the user. */
  ghost predicate BegunStop(hasProvider: bool, actions: seq<Action>, k: nat, t: nat, user: string) {
    k < |actions| && actions[k] == BeginStop(t, user) && t !in Exec(Init(hasProvider), actions[..k]).threads
  }

  lemma {:induction false} StopThroughout(hasProvider: bool, actions: seq<Action>, k: nat, t: nat, user: string)
    requires BegunStop(hasProvider, actions, k, t, user)
    ensures var s := Exec(Init(hasProvider), actions);
            t in s.threads && StopFor(s.world, s.threads[t], user)
    decreases |actions|
  {
    var n := |actions| - 1;
    if k < n {
      assert actions[..n][..k] == actions[..k];
      StopThroughout(hasProvider, actions[..n], k, t, user);
      StopForAction(hasProvider, actions[..n], actions[n], t, user);
    }
  }

  lemma HaltedContainers(hasProvider: bool, actions: seq<Action>, id: string)
    requires id in Exec(Init(hasProvider), actions).world.rows
    requires Exec(Init(hasProvider), actions).world.rows[id].state in {Failed, Stopped}
    ensures var s := Exec(Init(hasProvider), actions);
            forall c :: c in s.world.live ==>
              && c in s.world.made && s.world.rows[id].ref != Some(c)
              && (s.world.made[c] == id ==> HeldFor(s, c, id))
  {
    ReachableInv(hasProvider, actions);
    var s := Exec(Init(hasProvider), actions);
    assert RowOk(s.world, id);
    forall c | c in s.world.live
      ensures c in s.world.made && s.world.rows[id].ref != Some(c) && (s.world.made[c] == id ==> HeldFor(s, c, id))
    {
      ContainerAccounting(hasProvider, actions, c);
    }
  }

  /** What a stop has achieved when it answers with a row: a runtime of that user, which is ended for good; no
      container is bound to it, and one made for it that is still alive is in the hands of its provisioning
      thread. Without a provider the runtime may stay in STOPPING. */
  lemma StopAchieves(hasProvider: bool, actions: seq<Action>, k: nat, t: nat, user: string, row: Row)
    requires BegunStop(hasProvider, actions, k, t, user) && t in Exec(Init(hasProvider), actions).threads
    requires Exec(Init(hasProvider), actions).threads[t] == Done(Some(row))
    ensures var s := Exec(Init(hasProvider), actions);
            && row.owner == user && row.id in s.world.rows && s.world.rows[row.id].owner == user
            && s.world.rows[row.id].state in {Stopping, Failed, Stopped}
            && (hasProvider ==>
                  && s.world.rows[row.id].state in {Failed, Stopped}
                  && forall c :: c in s.world.live ==>
                       && c in s.world.made && s.world.rows[row.id].ref != Some(c)
                       && (s.world.made[c] == row.id ==> HeldFor(s, c, row.id)))
  {
    StopThroughout(hasProvider, actions, k, t, user);
    ProviderStays(hasProvider, actions);
    if hasProvider {
      HaltedContainers(hasProvider, actions, row.id);
    }
  }

  predicate NoActive(rows: Table, user: string) {
    forall id :: id in rows && rows[id].owner == user ==> !Active(rows[id].state)
  }

  lemma GivesUpExactly(w: World, p: StopPc, e: Env)
    requires WorldOk(w) && StopOk(w, p)
    ensures StopStep(w, p, e).1 == Done(None) <==>
            || (e.raises && !p.SDrop?)
            || (p.SFind? && NoActive(w.rows, p.user))
            || (p.SFinish? && w.rows[p.snap.id].state != Stopping)
  {
    match p
    case SFind(user, _) => FoundNone(w.rows, user);
    case SWrite(snap, _) => assert RowOk(w, snap.id); StopTransitionKeeps(w.rows, snap, e.now);
    case SDrop(_) =>
    case SFinish(snap) =>
      assert RowOk(w, snap.id);
      TransitionKeeps(w.rows, snap, Stopped, None, None, None, e.now);
  }

  lemma FoundNone(rows: Table, user: string)
    ensures FindActive(rows, user).None? <==> NoActive(rows, user)
  {
    if FindActive(rows, user).Some? {
      var id :| IsNewestActive(rows, user, id) && rows[id] == FindActive(rows, user).value;
    }
  }

  /** A stop for the user ends without a row exactly when its step raises, or it reads the table while the
      user has no active row, or it comes to its last transition after the row has left STOPPING. */
  lemma StopGivesUpExactly(hasProvider: bool, actions: seq<Action>, k: nat, t: nat, user: string, e: Env)
    requires BegunStop(hasProvider, actions, k, t, user) && t in Exec(Init(hasProvider), actions).threads
    requires Exec(Init(hasProvider), actions).threads[t].Stop?
    ensures var s := Exec(Init(hasProvider), actions);
            var p := s.threads[t].s;
            && (p.SFinish? ==> p.snap.id in s.world.rows && p.snap.owner == user)
            && (Step(s, Advance(t, e)).threads[t] == Done(None) <==>
                || (e.raises && !p.SDrop?)
                || (p.SFind? && NoActive(s.world.rows, user))
                || (p.SFinish? && s.world.rows[p.snap.id].state != Stopping))
  {
    StopThroughout(hasProvider, actions, k, t, user);
    ReachableInv(hasProvider, actions);
    var s := Exec(Init(hasProvider), actions);
    assert ThreadOk(s.world, s.threads[t]);
    GivesUpExactly(s.world, s.threads[t].s, e);
    StopAdvance(s, t, s.threads[t].s, e);
  }

  // ---------------------------------------------------------------------------------------------
  // A stop that nothing disturbs.

  lemma OnlyActive(rows: Table, user: string, id: string)
    requires OneActive(rows) && id in rows && rows[id].owner == user && Active(rows[id].state)
    ensures FindActive(rows, user) == Some(rows[id])
  {
    assert FindActive(rows, user).Some?;
    var found :| IsNewestActive(rows, user, found) && rows[found] == FindActive(rows, user).value;
    assert rows[found].owner == rows[id].owner && Active(rows[found].state);
  }

  function HaltedRow(row: Row, e: Env): Row {
    row.(state := Stopping, desired := WantStopped, updatedAt := e.now, failure := None)
  }

  function EndedRow(row: Row, e: Env): Row {
    row.(state := Stopped, updatedAt := e.now, failure := None)
  }

  lemma FindIs(w: World, user: string, id: string, e: Env)
    requires WorldOk(w) && id in w.rows && w.rows[id].owner == user && Active(w.rows[id].state) && !e.raises
    ensures var row := w.rows[id];
            StopStep(w, SFind(user, multiset{}), e) ==
            (w, if row.state != Stopping then Stop(SWrite(row.(desired := WantStopped), multiset{}))
                else if w.hasProvider then Stop(SDrop(row)) else Done(Some(row)))
  {
    OnlyActive(w.rows, user, id);
  }

  lemma WriteIs(w: World, row: Row, e: Env)
    requires WorldOk(w) && row.id in w.rows && w.rows[row.id] == row && !e.raises
    requires Active(row.state) && row.state != Stopping
    ensures StopStep(w, SWrite(row.(desired := WantStopped), multiset{}), e) ==
            (w.(rows := w.rows[row.id := HaltedRow(row, e)]),
             if w.hasProvider then Stop(SDrop(HaltedRow(row, e))) else Done(Some(HaltedRow(row, e))))
  {
    assert RowOk(w, row.id);
    assert row.(desired := WantStopped).(desired := WantRunning) == row;
    StopTransitionKeeps(w.rows, row.(desired := WantStopped), e.now);
  }

  lemma FinishIs(w: World, row: Row, e: Env)
    requires OneActive(w.rows) && row.id in w.rows && w.rows[row.id] == row && row.state == Stopping && !e.raises
    ensures StopStep(w, SFinish(row), e) ==
            (w.(rows := w.rows[row.id := EndedRow(row, e)]), Done(Some(EndedRow(row, e))))
  {
    TransitionKeeps(w.rows, row, Stopped, None, None, None, e.now);
  }

  function LiveWithout(w: World, ref: Option<string>): set<string> {
    w.live - if ref.Some? then {ref.value} else {}
  }

  /** From the termination of the container to the end. */
  lemma DropThenFinish(s: State, t: nat, row: Row, e: Env)
    requires t in s.threads && s.threads[t] == Stop(SDrop(row)) && OneActive(s.world.rows) && !e.raises
    requires row.id in s.world.rows && s.world.rows[row.id] == row && row.state == Stopping
    ensures Step(Step(s, Advance(t, e)), Advance(t, e)) ==
            State(s.world.(rows := s.world.rows[row.id := EndedRow(row, e)], live := LiveWithout(s.world, row.ref)),
                  s.threads[t := Done(Some(EndedRow(row, e)))])
  {
    StopAdvance(s, t, SDrop(row), e);
    var w := Terminate(s.world, row.ref);
    var s1 := Step(s, Advance(t, e));
    assert s1 == State(w, s.threads[t := Stop(SFinish(row))]);
    StopAdvance(s1, t, SFinish(row), e);
    FinishIs(w, row, e);
    assert s.threads[t := Stop(SFinish(row))][t := Done(Some(EndedRow(row, e)))] ==
           s.threads[t := Done(Some(EndedRow(row, e)))];
  }

  lemma DoneStays(s: State, t: nat, e: Env)
    requires t in s.threads && s.threads[t].Done?
    ensures Step(s, Advance(t, e)) == s
  {
  }

  /** The row after an undisturbed stop. */
  function StoppedRow(row: Row, hasProvider: bool, e: Env): Row {
    if hasProvider then
      row.(state := Stopped, desired := if row.state == Stopping then row.desired else WantStopped,
           updatedAt := e.now, failure := None)
    else if row.state == Stopping then row
    else HaltedRow(row, e)
  }

  /** The state after an undisturbed stop: the row ended, its container gone, nothing else touched. */
  function StoppedState(s: State, t: nat, id: string, e: Env): State
    requires id in s.world.rows
  {
    var w, row := s.world, s.world.rows[id];
    var row' := StoppedRow(row, w.hasProvider, e);
    State(w.(rows := w.rows[id := row'],
             live := if w.hasProvider then LiveWithout(w, row.ref) else w.live),
          s.threads[t := Done(Some(row'))])
  }

  /** Two steps of the thread: the row is in STOPPING. */
  lemma FindThenWrite(s: State, t: nat, user: string, id: string, e: Env)
    requires WorldOk(s.world) && t in s.threads && s.threads[t] == Stop(SFind(user, multiset{})) && !e.raises
    requires id in s.world.rows && s.world.rows[id].owner == user && Active(s.world.rows[id].state)
    requires s.world.rows[id].state != Stopping
    ensures var row := HaltedRow(s.world.rows[id], e);
            Step(Step(s, Advance(t, e)), Advance(t, e)) ==
            State(s.world.(rows := s.world.rows[id := row]),
                  s.threads[t := if s.world.hasProvider then Stop(SDrop(row)) else Done(Some(row))])
  {
    var row := s.world.rows[id];
    assert RowOk(s.world, id);
    StopAdvance(s, t, SFind(user, multiset{}), e);
    FindIs(s.world, user, id, e);
    var write := SWrite(row.(desired := WantStopped), multiset{});
    var s1 := Step(s, Advance(t, e));
    assert s1 == State(s.world, s.threads[t := Stop(write)]);
    StopAdvance(s1, t, write, e);
    WriteIs(s.world, row, e);
    var pc := if s.world.hasProvider then Stop(SDrop(HaltedRow(row, e))) else Done(Some(HaltedRow(row, e)));
    assert s.threads[t := Stop(write)][t := pc] == s.threads[t := pc];
  }

  lemma HaltedFinishes(s: State, t: nat, id: string, e: Env)
    requires WorldOk(s.world) && s.world.hasProvider && id in s.world.rows && Active(s.world.rows[id].state)
    requires s.world.rows[id].state != Stopping && s.world.rows[id].id == id && !e.raises
    ensures var row, go := HaltedRow(s.world.rows[id], e), Advance(t, e);
            var s2 := State(s.world.(rows := s.world.rows[id := row]), s.threads[t := Stop(SDrop(row))]);
            Step(Step(s2, go), go) == StoppedState(s, t, id, e)
  {
    var w, row := s.world, HaltedRow(s.world.rows[id], e);
    var s2 := State(w.(rows := w.rows[id := row]), s.threads[t := Stop(SDrop(row))]);
    HaltedActive(w, id, e);
    DropThenFinish(s2, t, row, e);
    assert w.rows[id := row][id := EndedRow(row, e)] == w.rows[id := EndedRow(row, e)];
    assert s2.threads[t := Done(Some(EndedRow(row, e)))] == s.threads[t := Done(Some(EndedRow(row, e)))];
  }

  lemma FourSteps(s: State, t: nat, user: string, id: string, e: Env)
    requires WorldOk(s.world) && t in s.threads && s.threads[t] == Stop(SFind(user, multiset{})) && !e.raises
    requires id in s.world.rows && s.world.rows[id].owner == user && Active(s.world.rows[id].state)
    requires s.world.rows[id].state != Stopping
    ensures var go := Advance(t, e); Step(Step(Step(Step(s, go), go), go), go) == StoppedState(s, t, id, e)
  {
    assert RowOk(s.world, id);
    FindThenWrite(s, t, user, id, e);
    if s.world.hasProvider {
      HaltedFinishes(s, t, id, e);
    } else {
      DoneStays(StoppedState(s, t, id, e), t, e);
    }
  }

  lemma HaltedActive(w: World, id: string, e: Env)
    requires OneActive(w.rows) && id in w.rows && Active(w.rows[id].state)
    ensures OneActive(w.rows[id := HaltedRow(w.rows[id], e)])
  {
  }

  lemma StoppingSteps(s: State, t: nat, user: string, id: string, e: Env)
    requires WorldOk(s.world) && t in s.threads && s.threads[t] == Stop(SFind(user, multiset{})) && !e.raises
    requires id in s.world.rows && s.world.rows[id].owner == user && s.world.rows[id].state == Stopping
    ensures var go := Advance(t, e); Step(Step(Step(Step(s, go), go), go), go) == StoppedState(s, t, id, e)
  {
    var row := s.world.rows[id];
    assert RowOk(s.world, id);
    FindIs(s.world, user, id, e);
    StopAdvance(s, t, SFind(user, multiset{}), e);
    var pc := if s.world.hasProvider then Stop(SDrop(row)) else Done(Some(row));
    var s1 := State(s.world, s.threads[t := pc]);
    if s.world.hasProvider {
      DropThenFinish(s1, t, row, e);
      assert s.threads[t := pc][t := Done(Some(EndedRow(row, e)))] == s.threads[t := Done(Some(EndedRow(row, e)))];
      DoneStays(Step(Step(s1, Advance(t, e)), Advance(t, e)), t, e);
    } else {
      assert s.world.rows[id := row] == s.world.rows;
      DoneStays(s1, t, e);
    }
  }

  lemma ExecFive(s: State, a: seq<Action>, x: Action, go: Action)
    ensures Exec(s, a + [x] + [go] + [go] + [go] + [go]) == Step(Step(Step(Step(Step(Exec(s, a), x), go), go), go), go)
  {
    ExecMore(s, a, x);
    ExecMore(s, a + [x], go);
    ExecMore(s, a + [x] + [go], go);
    ExecMore(s, a + [x] + [go] + [go], go);
    ExecMore(s, a + [x] + [go] + [go] + [go], go);
  }

  lemma StopBegins(s: State, t: nat, user: string, id: string, e: Env)
    requires WorldOk(s.world) && t !in s.threads && id in s.world.rows && s.world.rows[id].owner == user
    requires Active(s.world.rows[id].state) && !e.raises
    ensures var go := Advance(t, e);
            Step(Step(Step(Step(Step(s, BeginStop(t, user)), go), go), go), go) == StoppedState(s, t, id, e)
  {
    var s1 := State(s.world, s.threads[t := Stop(SFind(user, multiset{}))]);
    assert Step(s, BeginStop(t, user)) == s1;
    if s.world.rows[id].state == Stopping {
      StoppingSteps(s1, t, user, id, e);
    } else {
      FourSteps(s1, t, user, id, e);
    }
    var pc := Done(Some(StoppedRow(s.world.rows[id], s.world.hasProvider, e)));
    assert s1.threads[t := pc] == s.threads[t := pc];
  }

  /** In every reachable state, a stop that nothing disturbs ends the active runtime of its user: STOPPED, with
      its container terminated (STOPPING without a provider), and answers with that row. */
  lemma UndisturbedStop(hasProvider: bool, actions: seq<Action>, t: nat, user: string, id: string, e: Env)
    requires var s := Exec(Init(hasProvider), actions);
             && t !in s.threads && id in s.world.rows && s.world.rows[id].owner == user
             && Active(s.world.rows[id].state)
    requires !e.raises
    ensures var go := Advance(t, e);
            Exec(Init(hasProvider), actions + [BeginStop(t, user)] + [go] + [go] + [go] + [go]) ==
            StoppedState(Exec(Init(hasProvider), actions), t, id, e)
  {
    ReachableInv(hasProvider, actions);
    ExecFive(Init(hasProvider), actions, BeginStop(t, user), Advance(t, e));
    StopBegins(Exec(Init(hasProvider), actions), t, user, id, e);
  }

  // ---------------------------------------------------------------------------------------------
  // An ensure.

  /** The row was an active runtime of the user when it was read or inserted. */
  ghost predicate Found(w: World, row: Row, user: string) {
    && row.owner == user && Active(row.state) && row.id in w.rows && w.rows[row.id].owner == user
    && Rank(w.rows[row.id].state) <= Rank(row.state)
  }

  /** What a thread begun by ensure_user_runtime works on at each point, and has achieved when it is done. */
  ghost predicate EnsureFor(w: World, pc: Pc, user: string, profile: string) {
    match pc
    case Ensure(EFind(u, p)) => u == user && p == profile
    case Ensure(EInsert(draft)) => draft.owner == user && draft.profile == profile && draft.state == Requested
    case Ensure(ERefind(u)) => u == user
    case Ensure(ELock(mine)) => Found(w, mine, user) && mine.state == Requested
    case Ensure(ESpawn(mine)) => Found(w, mine, user) && mine.state == Requested
    case Done(None) => true
    case Done(Some(row)) => Found(w, row, user)
    case _ => false
  }

  lemma EnsureForStable(w: World, w': World, pc: Pc, user: string, profile: string)
    requires EnsureFor(w, pc, user, profile) && RowsAdvance(w.rows, w'.rows)
    ensures EnsureFor(w', pc, user, profile)
  {
  }

  lemma EnsureForStep(w: World, p: EnsurePc, e: Env, user: string, profile: string)
    requires WorldOk(w) && EnsureFor(w, Ensure(p), user, profile)
    ensures var (w', pc) := EnsureStep(w, p, e); EnsureFor(w', pc, user, profile)
  {
    if p.EFind? || p.ERefind? {
      if FindActive(w.rows, user).Some? {
        FoundRow(w, user);
      }
    }
  }

  lemma EnsureForAction(hasProvider: bool, actions: seq<Action>, a: Action, t: nat, user: string, profile: string)
    requires t in Exec(Init(hasProvider), actions).threads
    requires var s := Exec(Init(hasProvider), actions); EnsureFor(s.world, s.threads[t], user, profile)
    ensures var s' := Step(Exec(Init(hasProvider), actions), a);
            t in s'.threads && EnsureFor(s'.world, s'.threads[t], user, profile)
  {
    var s := Exec(Init(hasProvider), actions);
    ReachableInv(hasProvider, actions);
    if a.Advance? && a.thread == t {
      if s.threads[t].Ensure? {
        EnsureForStep(s.world, s.threads[t].e, a.env, user, profile);
        EnsureMoves(s, t, s.threads[t].e, a.env);
      }
    } else {
      OthersStay(s, a, t);
      StepRows(hasProvider, actions, a);
      EnsureForStable(s.world, Step(s, a).world, s.threads[t], user, profile);
    }
  }

  lemma EnsureMoves(s: State, t: nat, p: EnsurePc, e: Env)
    requires t in s.threads && s.threads[t] == Ensure(p)
    ensures var s', (w', pc) := Step(s, Advance(t, e)), EnsureStep(s.world, p, e);
            t in s'.threads && (s' == s || (s'.world == w' && s'.threads[t] == pc))
  {
  }

  ghost predicate BegunEnsure(hasProvider: bool, actions: seq<Action>, k: nat, t: nat, user: string, profile: string) {
    k < |actions| && actions[k] == BeginEnsure(t, user, profile) && t !in Exec(Init(hasProvider), actions[..k]).threads
  }

  lemma {:induction false} EnsureThroughout(hasProvider: bool, actions: seq<Action>, k: nat, t: nat, user: string,
                                            profile: string)
    requires BegunEnsure(hasProvider, actions, k, t, user, profile)
    ensures var s := Exec(Init(hasProvider), actions);
            t in s.threads && EnsureFor(s.world, s.threads[t], user, profile)
    decreases |actions|
  {
    var n := |actions| - 1;
    if k < n {
      assert actions[..n][..k] == actions[..k];
      EnsureThroughout(hasProvider, actions[..n], k, t, user, profile);
      EnsureForAction(hasProvider, actions[..n], actions[n], t, user, profile);
    }
  }

  /** An ensure answers with a runtime of its user that was active when it was found or created; it is in the
      table, in that state or a later one. */
  lemma EnsureAnswers(hasProvider: bool, actions: seq<Action>, k: nat, t: nat, user: string, profile: string, row: Row)
    requires BegunEnsure(hasProvider, actions, k, t, user, profile) && t in Exec(Init(hasProvider), actions).threads
    requires Exec(Init(hasProvider), actions).threads[t] == Done(Some(row))
    ensures var rows := Exec(Init(hasProvider), actions).world.rows;
            && row.owner == user && Active(row.state) && row.id in rows && rows[row.id].owner == user
            && Rank(rows[row.id].state) <= Rank(row.state)
  {
    EnsureThroughout(hasProvider, actions, k, t, user, profile);
  }

  ghost predicate Provisions(s: State, id: string) {
    id in s.world.provisioning && exists u :: u in s.threads && Claim(s.threads[u]) == Some(id)
  }

  lemma StartsOrRefinds(s: State, t: nat, p: EnsurePc, e: Env, row: Row)
    requires t in s.threads && s.threads[t] == Ensure(p) && EnsureStep(s.world, p, e).1 == Done(Some(row))
    requires p.ESpawn? ==> p.mine.id in s.world.provisioning
    ensures s.world.hasProvider && row.state == Requested && !p.ERefind? ==>
              row.id in EnsureStep(s.world, p, e).0.provisioning
  {
  }

  /** With a provider an ensure does not answer with a REQUESTED runtime before its provisioning is under way,
      unless it has lost the race to insert it and left that to the winner. */
  lemma EnsureStarts(hasProvider: bool, actions: seq<Action>, t: nat, e: Env, row: Row)
    requires t in Exec(Init(hasProvider), actions).threads && Exec(Init(hasProvider), actions).threads[t].Ensure?
    requires !Exec(Init(hasProvider), actions).threads[t].e.ERefind?
    requires Step(Exec(Init(hasProvider), actions), Advance(t, e)).threads[t] == Done(Some(row))
    requires hasProvider && row.state == Requested
    ensures Provisions(Step(Exec(Init(hasProvider), actions), Advance(t, e)), row.id)
  {
    var s := Exec(Init(hasProvider), actions);
    ProviderStays(hasProvider, actions);
    ReachableInv(hasProvider, actions);
    EnsureMoves(s, t, s.threads[t].e, e);
    assert s.threads[t].e.ESpawn? ==> Claim(s.threads[t]) == Some(s.threads[t].e.mine.id);
    StartsOrRefinds(s, t, s.threads[t].e, e, row);
    StepInv(s, Advance(t, e));
  }

  lemma RefusesExactly(w: World, p: EnsurePc, e: Env)
    ensures EnsureStep(w, p, e).1 == Done(None) <==>
            || (e.raises && (p.EFind? || p.EInsert? || p.ERefind?))
            || (p.ERefind? && NoActive(w.rows, p.user))
  {
    if p.ERefind? {
      FoundNone(w.rows, p.user);
    }
  }

  /** An ensure ends without a row exactly when a database call of it raises, or the row that kept it from
      inserting its own is no longer active when it looks for it. */
  lemma EnsureGivesUpExactly(hasProvider: bool, actions: seq<Action>, k: nat, t: nat, user: string, profile: string,
                             e: Env)
    requires BegunEnsure(hasProvider, actions, k, t, user, profile) && t in Exec(Init(hasProvider), actions).threads
    requires Exec(Init(hasProvider), actions).threads[t].Ensure?
    ensures var s := Exec(Init(hasProvider), actions);
            var p := s.threads[t].e;
            Step(s, Advance(t, e)).threads[t] == Done(None) <==>
            || (e.raises && (p.EFind? || p.EInsert? || p.ERefind?))
            || (p.ERefind? && NoActive(s.world.rows, user))
  {
    EnsureThroughout(hasProvider, actions, k, t, user, profile);
    var s := Exec(Init(hasProvider), actions);
    RefusesExactly(s.world, s.threads[t].e, e);
    EnsureMoves(s, t, s.threads[t].e, e);
  }

  // ---------------------------------------------------------------------------------------------
  // Where rows come from.

  predicate Asks(a: Action, user: string, profile: string) {
    a.BeginEnsure? && a.user == user && a.profile == profile
  }

  predicate Asked(actions: seq<Action>, user: string, profile: string) {
    exists k :: 0 <= k < |actions| && Asks(actions[k], user, profile)
  }

  lemma AskedMore(actions: seq<Action>, a: Action, user: string, profile: string)
    requires Asked(actions, user, profile) || Asks(a, user, profile)
    ensures Asked(actions + [a], user, profile)
  {
    var all := actions + [a];
    if k :| 0 <= k < |actions| && Asks(actions[k], user, profile) {
      assert all[k] == actions[k];
    } else {
      assert all[|actions|] == a;
    }
  }

  ghost predicate AllAsked(s: State, actions: seq<Action>) {
    && (forall id :: id in s.world.rows ==> Asked(actions, s.world.rows[id].owner, s.world.rows[id].profile))
    && (forall t :: t in s.threads && s.threads[t].Ensure? ==> DraftAsked(s.threads[t].e, actions))
  }

  predicate DraftAsked(p: EnsurePc, actions: seq<Action>) {
    match p
    case EFind(user, profile) => Asked(actions, user, profile)
    case EInsert(draft) => Asked(actions, draft.owner, draft.profile)
    case _ => true
  }

  lemma SameOwner(hasProvider: bool, actions: seq<Action>, a: Action, id: string)
    requires a.Advance? && id in Exec(Init(hasProvider), actions).world.rows
    ensures var s := Exec(Init(hasProvider), actions);
            var s' := Step(s, a);
            && id in s'.world.rows && s'.world.rows[id].owner == s.world.rows[id].owner
            && s'.world.rows[id].profile == s.world.rows[id].profile
  {
    NoLostUpdate(hasProvider, actions, a.thread, a.env);
  }

  lemma NewRow(s: State, a: Action, id: string)
    requires id in Step(s, a).world.rows && id !in s.world.rows
    ensures a.Advance? && a.thread in s.threads && s.threads[a.thread].Ensure? && s.threads[a.thread].e.EInsert?
            && Step(s, a).world.rows[id] == s.threads[a.thread].e.draft
  {
    assert a.Advance? && a.thread in s.threads;
    match s.threads[a.thread]
    case Ensure(p) => EnsureMoves(s, a.thread, p, a.env); InsertsDraft(s.world, p, a.env, id);
    case Prov(pid, p) => ProvStepKeys(s, a.thread, a.env);
    case Stop(p) => StopAdvance(s, a.thread, p, a.env); StopSameKeys(s.world, p, a.env);
    case Done(_) =>
  }

  lemma InsertsDraft(w: World, p: EnsurePc, e: Env, id: string)
    requires id in EnsureStep(w, p, e).0.rows && id !in w.rows
    ensures p.EInsert? && EnsureStep(w, p, e).0.rows[id] == p.draft
  {
  }

  lemma ProvStepKeys(s: State, t: nat, e: Env)
    requires t in s.threads && s.threads[t].Prov?
    ensures Step(s, Advance(t, e)).world.rows.Keys == s.world.rows.Keys
  {
    var id, p := s.threads[t].id, s.threads[t].p;
    if p == PExit {
      ProvExit(s, t, id, e);
    } else {
      ProvAdvance(s, t, id, p, e);
      ProvSameKeys(s.world, id, p, e);
    }
  }

  lemma MovedKeys(rows: Table, snap: Row, to: RuntimeState, provider: Option<string>, ref: Option<string>,
                  failure: Option<string>, now: int)
    ensures var r := Transition(rows, snap, to, provider, ref, failure, now); r.Moved? ==> r.rows.Keys == rows.Keys
  {
  }

  lemma ProvSameKeys(w: World, id: string, p: ProvPc, e: Env)
    ensures ProvStep(w, id, p, e).0.rows.Keys == w.rows.Keys
  {
    ProvRows(w, id, p, e);
    match p
    case PClaim(snap) => MovedKeys(w.rows, snap, Provisioning, Some("docker"), None, None, e.now);
    case PMarkStopped(snap, _) => MovedKeys(w.rows, snap, Stopped, None, None, None, e.now);
    case PBind(snap, ref) => MovedKeys(w.rows, snap, Starting, None, Some(ref), None, e.now);
    case PReady(snap, _) => MovedKeys(w.rows, snap, Ready, None, None, None, e.now);
    case HFail(snap) => MovedKeys(w.rows, snap, Failed, None, None, Some(e.reason), e.now);
    case _ =>
  }

  lemma StopSameKeys(w: World, p: StopPc, e: Env)
    ensures StopStep(w, p, e).0.rows.Keys == w.rows.Keys
  {
    StopRows(w, p, e);
    match p
    case SWrite(snap, _) => MovedKeys(w.rows, snap, Stopping, None, None, None, e.now);
    case SFinish(snap) => MovedKeys(w.rows, snap, Stopped, None, None, None, e.now);
    case _ =>
  }

  lemma DraftsAsked(s: State, actions: seq<Action>, a: Action, t: nat)
    requires AllAsked(s, actions) && t in Step(s, a).threads && Step(s, a).threads[t].Ensure?
    ensures DraftAsked(Step(s, a).threads[t].e, actions + [a])
  {
    if t in s.threads && !(a.Advance? && a.thread == t) {
      OthersStay(s, a, t);
      var p := s.threads[t].e;
      if p.EFind? { AskedMore(actions, a, p.user, p.profile); }
      if p.EInsert? { AskedMore(actions, a, p.draft.owner, p.draft.profile); }
    } else if a.BeginEnsure? {
      AskedMore(actions, a, a.user, a.profile);
    } else if t in s.threads && s.threads[t].Ensure? {
      var p := s.threads[t].e;
      EnsureMoves(s, t, p, a.env);
      if p.EFind? { AskedMore(actions, a, p.user, p.profile); }
      if p.EInsert? { AskedMore(actions, a, p.draft.owner, p.draft.profile); }
    }
  }

  /** Every row was asked for: its owner and profile are those of some request. */
  lemma {:induction false} RowsWereAskedFor(hasProvider: bool, actions: seq<Action>)
    ensures AllAsked(Exec(Init(hasProvider), actions), actions)
    decreases |actions|
  {
    if actions != [] {
      var front, a := actions[..|actions| - 1], actions[|actions| - 1];
      assert actions == front + [a];
      RowsWereAskedFor(hasProvider, front);
      AskedStep(hasProvider, front, a);
    }
  }

  lemma AskedStep(hasProvider: bool, front: seq<Action>, a: Action)
    requires AllAsked(Exec(Init(hasProvider), front), front)
    ensures AllAsked(Step(Exec(Init(hasProvider), front), a), front + [a])
  {
    var s := Exec(Init(hasProvider), front);
    var s' := Step(s, a);
    ReachableInv(hasProvider, front);
    forall id | id in s'.world.rows
      ensures Asked(front + [a], s'.world.rows[id].owner, s'.world.rows[id].profile)
    {
      if id !in s.world.rows {
        NewRow(s, a, id);
      } else if a.Advance? {
        SameOwner(hasProvider, front, a, id);
      }
      AskedMore(front, a, s'.world.rows[id].owner, s'.world.rows[id].profile);
    }
    forall t | t in s'.threads && s'.threads[t].Ensure?
      ensures DraftAsked(s'.threads[t].e, front + [a])
    {
      DraftsAsked(s, front, a, t);
    }
  }
}
