/** What provisioning achieves: no row is abandoned halfway, and an undisturbed one becomes READY. */
module RuntimeLifecycleProvisioning {
  import opened Common
  import opened RuntimeTable
  import opened RuntimeLifecycle
  import opened RuntimeLifecycleProofs
  import opened RuntimeLifecycleRuns
  import opened RuntimeLifecycleTheorems
  import opened RuntimeLifecycleOutcomes

  // ---------------------------------------------------------------------------------------------
  // No row is abandoned.

  predicate Halfway(row: Row) {
    row.state in {Provisioning, Starting}
  }

  /** The provisioning thread is between claiming its row and ending it. */
  predicate Busy(p: ProvPc) {
    p.PCreate? || p.PRecheck? || p.PBind? || p.PPoll? || p.PReady? || p.HDrop? || p.HGet? || p.HFail?
  }

  /** Nobody but its provisioning thread carries a row on: an older snapshot is of the same state, or the row
      was stopped. */
  ghost predicate HandlerOk(w: World, p: ProvPc) {
    p.HFail? && p.snap.id in w.rows ==>
      w.rows[p.snap.id].state == p.snap.state || w.rows[p.snap.id].state in {Stopping, Failed, Stopped}
  }

  ghost predicate Attended(s: State, id: string) {
    exists t :: t in s.threads && s.threads[t].Prov? && s.threads[t].id == id && Busy(s.threads[t].p)
  }

  ghost predicate Settles(s: State) {
    && (forall id :: id in s.world.rows && Halfway(s.world.rows[id]) ==> Attended(s, id))
    && (forall t :: t in s.threads && s.threads[t].Prov? ==> HandlerOk(s.world, s.threads[t].p))
  }

  /** The step does not raise in the reads and writes of the error handler. */
  predicate HandlerRuns(s: State, a: Action) {
    a.Advance? && a.thread in s.threads && s.threads[a.thread].Prov? ==>
      (s.threads[a.thread].p.HGet? || s.threads[a.thread].p.HFail? ==> !a.env.raises)
  }

  /** After a step of the thread of `id`: the row is settled or the thread goes on with it. */
  ghost predicate Carried(w': World, id: string, q: ProvPc) {
    && (id in w'.rows && Halfway(w'.rows[id]) ==> Busy(q))
    && HandlerOk(w', q)
  }

  lemma ClaimCarries(w: World, id: string, snap: Row, e: Env)
    requires WorldOk(w) && ProvOk(w, id, PClaim(snap))
    ensures var (w', q) := ProvStep(w, id, PClaim(snap), e); Carried(w', id, q)
  {
    assert RowOk(w, id);
    TransitionKeeps(w.rows, snap, Provisioning, Some("docker"), None, None, e.now);
  }

  lemma BindCarries(w: World, id: string, snap: Row, ref: string, e: Env)
    requires WorldOk(w) && ProvOk(w, id, PBind(snap, ref))
    ensures var (w', q) := ProvStep(w, id, PBind(snap, ref), e); Carried(w', id, q)
  {
    assert RowOk(w, id);
    TransitionKeeps(w.rows, snap, Starting, None, Some(ref), None, e.now);
  }

  lemma ReadyCarries(w: World, id: string, snap: Row, ref: string, e: Env)
    requires WorldOk(w) && ProvOk(w, id, PReady(snap, ref))
    ensures var (w', q) := ProvStep(w, id, PReady(snap, ref), e); Carried(w', id, q)
  {
    assert RowOk(w, id);
    TransitionKeeps(w.rows, snap, Ready, None, None, None, e.now);
  }

  lemma MarkCarries(w: World, id: string, snap: Row, ref: string, e: Env)
    requires WorldOk(w) && ProvOk(w, id, PMarkStopped(snap, ref))
    ensures var (w', q) := ProvStep(w, id, PMarkStopped(snap, ref), e); Carried(w', id, q)
  {
    assert RowOk(w, id);
    TransitionKeeps(w.rows, snap, Stopped, None, None, None, e.now);
  }

  lemma HandlerCarries(w: World, id: string, snap: Row, e: Env)
    requires WorldOk(w) && ProvOk(w, id, HFail(snap)) && HandlerOk(w, HFail(snap)) && !e.raises
    ensures var (w', q) := ProvStep(w, id, HFail(snap), e); Carried(w', id, q)
  {
    assert RowOk(w, id);
    TransitionKeeps(w.rows, snap, Failed, None, None, Some(e.reason), e.now);
  }

  /** A thread that is not busy has a row that is not halfway. */
  ghost predicate Idle(w: World, id: string, p: ProvPc) {
    id in w.rows && Halfway(w.rows[id]) ==> Busy(p)
  }

  lemma ReadCarries(w: World, id: string, p: ProvPc, e: Env)
    requires WorldOk(w) && ProvOk(w, id, p) && HandlerOk(w, p) && Idle(w, id, p)
    requires p.PGet? || p.PRecheck? || p.HGet?
    requires p.HGet? ==> !e.raises
    ensures var (w', q) := ProvStep(w, id, p, e); Carried(w', id, q)
  {
    assert RowOk(w, id);
  }

  lemma CallCarries(w: World, id: string, p: ProvPc, e: Env)
    requires WorldOk(w) && ProvOk(w, id, p) && HandlerOk(w, p) && Idle(w, id, p)
    requires p.PCreate? || p.PDrop? || p.PPoll? || p.PAbort? || p.HDrop? || p.PExit?
    ensures var (w', q) := ProvStep(w, id, p, e); Carried(w', id, q)
  {
  }

  lemma StepCarries(w: World, id: string, p: ProvPc, e: Env)
    requires WorldOk(w) && ProvOk(w, id, p) && HandlerOk(w, p) && Idle(w, id, p)
    requires p.HGet? || p.HFail? ==> !e.raises
    ensures var (w', q) := ProvStep(w, id, p, e); Carried(w', id, q)
  {
    match p
    case PGet => ReadCarries(w, id, p, e);
    case PClaim(snap) => ClaimCarries(w, id, snap, e);
    case PRecheck(_) => ReadCarries(w, id, p, e);
    case PMarkStopped(snap, ref) => MarkCarries(w, id, snap, ref, e);
    case PBind(snap, ref) => BindCarries(w, id, snap, ref, e);
    case PReady(snap, ref) => ReadyCarries(w, id, snap, ref, e);
    case HGet => ReadCarries(w, id, p, e);
    case HFail(snap) => HandlerCarries(w, id, snap, e);
    case _ => CallCarries(w, id, p, e);
  }

  /** What the steps of others do to a row. */
  ghost predicate LeftAlone(w: World, w': World, id: string) {
    id in w'.rows ==>
      if id in w.rows then w'.rows[id] == w.rows[id] || w'.rows[id].state in {Stopping, Stopped}
      else w'.rows[id].state == Requested
  }

  lemma StillAttended(s: State, w': World, t: nat, pc': Pc, id: string)
    requires Attended(s, id) && (t in s.threads && s.threads[t].Prov? ==> s.threads[t].id != id)
    ensures Attended(State(w', s.threads[t := pc']), id)
  {
    var u :| u in s.threads && s.threads[u].Prov? && s.threads[u].id == id && Busy(s.threads[u].p);
    var s' := State(w', s.threads[t := pc']);
    assert u in s'.threads && s'.threads[u] == s.threads[u];
  }

  lemma HandlerStays(w: World, w': World, id: string, p: ProvPc)
    requires ProvOk(w, id, p) && HandlerOk(w, p) && LeftAlone(w, w', id)
    ensures HandlerOk(w', p)
  {
  }

  /** A step of a request thread, which leaves every row to its provisioning thread. */
  lemma RequestSettles(s: State, w': World, t: nat, pc': Pc)
    requires Inv(s) && Settles(s) && (t in s.threads ==> !s.threads[t].Prov?)
    requires !pc'.Prov? || pc'.p == PGet
    requires forall id :: LeftAlone(s.world, w', id)
    ensures Settles(State(w', s.threads[t := pc']))
  {
    var s' := State(w', s.threads[t := pc']);
    forall id | id in w'.rows && Halfway(w'.rows[id])
      ensures Attended(s', id)
    {
      assert LeftAlone(s.world, w', id);
      StillAttended(s, w', t, pc', id);
    }
    forall u | u in s'.threads && s'.threads[u].Prov?
      ensures HandlerOk(w', s'.threads[u].p)
    {
      if u != t {
        assert ThreadOk(s.world, s.threads[u]);
        HandlerStays(s.world, w', s.threads[u].id, s.threads[u].p);
      }
    }
  }

  lemma AttendedByOwn(s: State, t: nat, id: string, p: ProvPc)
    requires Inv(s) && Settles(s) && t in s.threads && s.threads[t] == Prov(id, p)
    ensures Idle(s.world, id, p)
  {
    if id in s.world.rows && Halfway(s.world.rows[id]) {
      var u :| u in s.threads && s.threads[u].Prov? && s.threads[u].id == id && Busy(s.threads[u].p);
      assert Claim(s.threads[u]) == Claim(s.threads[t]) == Some(id);
    }
  }

  /** A step of the provisioning thread of `id`. */
  lemma OwnerSettles(s: State, w': World, t: nat, id: string, p: ProvPc, pc': Pc)
    requires Inv(s) && Settles(s) && t in s.threads && s.threads[t] == Prov(id, p)
    requires forall other :: other != id ==> LeftAlone(s.world, w', other)
    requires if pc' == Done(None) then id in w'.rows ==> !Halfway(w'.rows[id])
             else pc'.Prov? && pc'.id == id && Carried(w', id, pc'.p)
    ensures Settles(State(w', s.threads[t := pc']))
  {
    var s' := State(w', s.threads[t := pc']);
    forall other | other in w'.rows && Halfway(w'.rows[other])
      ensures Attended(s', other)
    {
      if other == id {
        assert t in s'.threads && s'.threads[t] == pc';
      } else {
        assert LeftAlone(s.world, w', other);
        StillAttended(s, w', t, pc', other);
      }
    }
    forall u | u in s'.threads && s'.threads[u].Prov?
      ensures HandlerOk(w', s'.threads[u].p)
    {
      if u != t {
        assert Claim(s.threads[u]) != Claim(s.threads[t]);
        assert ThreadOk(s.world, s.threads[u]);
        HandlerStays(s.world, w', s.threads[u].id, s.threads[u].p);
      }
    }
  }

  lemma ProvKeepsOthers(w: World, id: string, p: ProvPc, e: Env)
    requires WorldOk(w) && ProvOk(w, id, p) && p != PExit
    ensures forall other :: other != id ==> LeftAlone(w, ProvStep(w, id, p, e).0, other)
  {
    ProvStepGood(w, id, p, e);
    ProvSameKeys(w, id, p, e);
    var w' := ProvStep(w, id, p, e).0;
    forall other | other != id
      ensures LeftAlone(w, w', other)
    {
      assert LeavesToOwner(w, w', other);
    }
  }

  lemma StopKeepsAll(w: World, p: StopPc, e: Env)
    requires WorldOk(w) && StopOk(w, p)
    ensures forall id :: LeftAlone(w, StopStep(w, p, e).0, id)
  {
    StopStepGood(w, p, e);
    StopSameKeys(w, p, e);
    var w' := StopStep(w, p, e).0;
    forall id
      ensures LeftAlone(w, w', id)
    {
      assert LeavesToOwner(w, w', id);
    }
  }

  lemma EnsureKeepsAll(w: World, p: EnsurePc, e: Env)
    requires EnsureOk(w, p)
    ensures forall id :: LeftAlone(w, EnsureStep(w, p, e).0, id)
  {
  }

  lemma ProvSettles(s: State, t: nat, e: Env)
    requires Inv(s) && Settles(s) && t in s.threads && s.threads[t].Prov? && HandlerRuns(s, Advance(t, e))
    ensures Settles(Step(s, Advance(t, e)))
  {
    var id, p := s.threads[t].id, s.threads[t].p;
    assert ThreadOk(s.world, s.threads[t]);
    AttendedByOwn(s, t, id, p);
    if p == PExit {
      ProvExit(s, t, id, e);
      OwnerSettles(s, s.world.(provisioning := s.world.provisioning - {id}), t, id, p, Done(None));
    } else {
      ProvAdvance(s, t, id, p, e);
      StepCarries(s.world, id, p, e);
      ProvKeepsOthers(s.world, id, p, e);
      OwnerSettles(s, ProvStep(s.world, id, p, e).0, t, id, p, Prov(id, ProvStep(s.world, id, p, e).1));
    }
  }

  lemma EnsureSettles(s: State, t: nat, e: Env)
    requires Inv(s) && Settles(s) && t in s.threads && s.threads[t].Ensure?
    ensures Settles(Step(s, Advance(t, e)))
  {
    var p := s.threads[t].e;
    assert ThreadOk(s.world, s.threads[t]);
    EnsureKeepsAll(s.world, p, e);
    if p.ESpawn? {
      SpawnAdvance(s, t, p.mine, e);
      if e.spawn !in s.threads {
        SpawnedInv(s, t, e.spawn, p.mine);
        RequestSettles(s, s.world, t, Done(Some(p.mine)));
        SpawnSettles(s, t, e.spawn, p.mine);
      }
    } else {
      EnsureAdvance(s, t, p, e);
      EnsureShapeProv(s.world, p, e);
      RequestSettles(s, EnsureStep(s.world, p, e).0, t, EnsureStep(s.world, p, e).1);
    }
  }

  lemma EnsureShapeProv(w: World, p: EnsurePc, e: Env)
    ensures !EnsureStep(w, p, e).1.Prov?
  {
  }

  lemma SpawnSettles(s: State, t: nat, spawn: nat, mine: Row)
    requires Settles(State(s.world, s.threads[t := Done(Some(mine))])) && spawn !in s.threads && t in s.threads
    ensures Settles(State(s.world, s.threads[spawn := Prov(mine.id, PGet)][t := Done(Some(mine))]))
  {
    var a := State(s.world, s.threads[t := Done(Some(mine))]);
    var b := State(s.world, s.threads[spawn := Prov(mine.id, PGet)][t := Done(Some(mine))]);
    assert b.threads == a.threads[spawn := Prov(mine.id, PGet)];
    forall id | id in b.world.rows && Halfway(b.world.rows[id])
      ensures Attended(b, id)
    {
      StillAttended(a, s.world, spawn, Prov(mine.id, PGet), id);
    }
  }

  lemma StopSettles(s: State, t: nat, e: Env)
    requires Inv(s) && Settles(s) && t in s.threads && s.threads[t].Stop?
    ensures Settles(Step(s, Advance(t, e)))
  {
    var p := s.threads[t].s;
    assert ThreadOk(s.world, s.threads[t]);
    StopKeepsAll(s.world, p, e);
    StopAdvance(s, t, p, e);
    StopShapeProv(s.world, p, e);
    RequestSettles(s, StopStep(s.world, p, e).0, t, StopStep(s.world, p, e).1);
  }

  lemma StopShapeProv(w: World, p: StopPc, e: Env)
    ensures !StopStep(w, p, e).1.Prov?
  {
  }

  lemma StepSettles(s: State, a: Action)
    requires Inv(s) && Settles(s) && HandlerRuns(s, a)
    ensures Settles(Step(s, a))
  {
    match a
    case BeginEnsure(t, user, profile) =>
      if t !in s.threads { RequestSettles(s, s.world, t, Ensure(EFind(user, profile))); }
    case BeginStop(t, user) =>
      if t !in s.threads { RequestSettles(s, s.world, t, Stop(SFind(user, multiset{}))); }
    case Advance(t, e) =>
      if t in s.threads {
        match s.threads[t]
        case Ensure(_) => EnsureSettles(s, t, e);
        case Prov(_, _) => ProvSettles(s, t, e);
        case Stop(_) => StopSettles(s, t, e);
        case Done(_) =>
      }
  }

  /** No step of the run raises inside the error handler. */
  ghost predicate HandlersRun(hasProvider: bool, actions: seq<Action>) {
    forall j :: 0 <= j < |actions| ==> HandlerRuns(Exec(Init(hasProvider), actions[..j]), actions[j])
  }

  lemma {:induction false} RunSettles(hasProvider: bool, actions: seq<Action>)
    requires HandlersRun(hasProvider, actions)
    ensures Settles(Exec(Init(hasProvider), actions))
    decreases |actions|
  {
    if actions != [] {
      var n := |actions| - 1;
      var front := actions[..n];
      forall j | 0 <= j < n
        ensures HandlerRuns(Exec(Init(hasProvider), front[..j]), front[j])
      {
        assert front[..j] == actions[..j] && front[j] == actions[j];
        assert HandlerRuns(Exec(Init(hasProvider), actions[..j]), actions[j]);
      }
      RunSettles(hasProvider, front);
      ReachableInv(hasProvider, front);
      assert HandlerRuns(Exec(Init(hasProvider), actions[..n]), actions[n]);
      StepSettles(Exec(Init(hasProvider), front), actions[n]);
    }
  }

  /** Whatever raises, except in the error handler itself: a row in PROVISIONING or STARTING has a live thread
      working on it, so when no thread is live none is left in those states. */
  lemma NothingAbandoned(hasProvider: bool, actions: seq<Action>, id: string)
    requires HandlersRun(hasProvider, actions) && id in Exec(Init(hasProvider), actions).world.rows
    ensures var s := Exec(Init(hasProvider), actions);
            && (s.world.rows[id].state in {Provisioning, Starting} ==>
                  exists t :: t in s.threads && s.threads[t].Prov? && s.threads[t].id == id)
            && (Quiescent(s) ==> s.world.rows[id].state in {Requested, Ready, Stopping, Failed, Stopped})
  {
    RunSettles(hasProvider, actions);
    RowShape(hasProvider, actions, id);
    var s := Exec(Init(hasProvider), actions);
    if Halfway(s.world.rows[id]) {
      assert Attended(s, id);
    }
  }

  // ---------------------------------------------------------------------------------------------
  // A provisioning that nothing disturbs.

  /** Every call succeeds, and the container is ready when it is asked. */
  predicate Smooth(e: Env) {
    !e.raises && e.ready && !e.expired
  }

  function AskedRow(user: string, profile: string, e: Env): Row {
    Row(e.uuid, user, profile, Requested, WantRunning, "unassigned", None, e.now, e.now, e.now, None)
  }

  function ClaimedRow(user: string, profile: string, e: Env): Row {
    AskedRow(user, profile, e).(state := Provisioning, provider := "docker")
  }

  function BoundRow(user: string, profile: string, e: Env): Row {
    ClaimedRow(user, profile, e).(state := Starting, ref := Some(e.container))
  }

  function ReadyRow(user: string, profile: string, e: Env): Row {
    BoundRow(user, profile, e).(state := Ready)
  }

  /** The world with one more row, which is being provisioned. */
  function Grown(w: World, row: Row): World {
    w.(rows := w.rows[row.id := row], provisioning := w.provisioning + {row.id})
  }

  /** And with its container. */
  function Running(w: World, row: Row, container: string): World {
    Grown(w, row).(live := w.live + {container}, made := w.made[container := row.id],
                   attempts := w.attempts + multiset{row.id})
  }

  /** Where an undisturbed provisioning may begin. */
  ghost predicate Free(w: World, user: string, e: Env) {
    w.hasProvider && NoActive(w.rows, user) && e.uuid !in w.rows && e.container !in w.made && Smooth(e)
  }

  lemma FreeMoves(rows: Table, row: Row, to: RuntimeState, provider: Option<string>, ref: Option<string>, now: int)
    requires NoActive(rows, row.owner) && row.id !in rows && to in AllowedFrom(row.state)
    ensures var next := row.(state := to, updatedAt := now, failure := None,
                             provider := if provider.Some? then provider.value else row.provider,
                             ref := if ref.Some? then ref else row.ref);
            Transition(rows[row.id := row], row, to, provider, ref, None, now) == Moved(rows[row.id := next], next)
  {
    assert !SlotTaken(rows[row.id := row], row.owner, row.id);
    var next := row.(state := to, updatedAt := now, failure := None,
                     provider := if provider.Some? then provider.value else row.provider,
                     ref := if ref.Some? then ref else row.ref);
    assert rows[row.id := row][row.id := next] == rows[row.id := next];
  }

  lemma Claims(w: World, user: string, profile: string, e: Env)
    requires Free(w, user, e)
    ensures var row := AskedRow(user, profile, e);
            && ProvStep(Grown(w, row), row.id, PGet, e) == (Grown(w, row), PClaim(row))
            && ProvStep(Grown(w, row), row.id, PClaim(row), e) ==
               (Grown(w, ClaimedRow(user, profile, e)), PCreate(ClaimedRow(user, profile, e)))
  {
    FreeMoves(w.rows, AskedRow(user, profile, e), Provisioning, Some("docker"), None, e.now);
  }

  lemma Creates(w: World, user: string, profile: string, e: Env)
    requires Free(w, user, e)
    ensures var row := ClaimedRow(user, profile, e);
            && ProvStep(Grown(w, row), row.id, PCreate(row), e) == (Running(w, row, e.container), PRecheck(e.container))
            && ProvStep(Running(w, row, e.container), row.id, PRecheck(e.container), e) ==
               (Running(w, row, e.container), PBind(row, e.container))
  {
  }

  lemma BindsAndPolls(w: World, user: string, profile: string, e: Env)
    requires Free(w, user, e)
    ensures var row, bound := ClaimedRow(user, profile, e), BoundRow(user, profile, e);
            && ProvStep(Running(w, row, e.container), row.id, PBind(row, e.container), e) ==
               (Running(w, bound, e.container), PPoll(bound, e.container))
            && ProvStep(Running(w, bound, e.container), row.id, PPoll(bound, e.container), e) ==
               (Running(w, bound, e.container), PReady(bound, e.container))
  {
    FreeMoves(w.rows, ClaimedRow(user, profile, e), Starting, None, Some(e.container), e.now);
  }

  lemma BecomesReady(w: World, user: string, profile: string, e: Env)
    requires Free(w, user, e)
    ensures var bound, up := BoundRow(user, profile, e), ReadyRow(user, profile, e);
            ProvStep(Running(w, bound, e.container), bound.id, PReady(bound, e.container), e) ==
            (Running(w, up, e.container), PExit)
  {
    FreeMoves(w.rows, BoundRow(user, profile, e), Ready, None, None, e.now);
  }

  /** Two steps of the provisioning thread. */
  lemma ProvTwice(s: State, u: nat, id: string, p: ProvPc, q: ProvPc, r: ProvPc, w1: World, w2: World, e: Env)
    requires u in s.threads && s.threads[u] == Prov(id, p) && p != PExit && q != PExit
    requires ProvStep(s.world, id, p, e) == (w1, q) && ProvStep(w1, id, q, e) == (w2, r)
    ensures Step(Step(s, Advance(u, e)), Advance(u, e)) == State(w2, s.threads[u := Prov(id, r)])
  {
    ProvAdvance(s, u, id, p, e);
    var s1 := State(w1, s.threads[u := Prov(id, q)]);
    ProvAdvance(s1, u, id, q, e);
    assert s1.threads[u := Prov(id, r)] == s.threads[u := Prov(id, r)];
  }

  /** The last step: the thread leaves `_provisioning_ids`. */
  function AtRest(w: World, row: Row, container: string): World {
    Running(w, row, container).(provisioning := w.provisioning)
  }

  lemma ReadyThenExit(s: State, w: World, u: nat, user: string, profile: string, e: Env)
    requires Free(w, user, e) && e.uuid !in w.provisioning && u in s.threads
    requires var bound := BoundRow(user, profile, e);
             s.world == Running(w, bound, e.container) && s.threads[u] == Prov(e.uuid, PReady(bound, e.container))
    ensures Step(Step(s, Advance(u, e)), Advance(u, e)) ==
            State(AtRest(w, ReadyRow(user, profile, e), e.container), s.threads[u := Done(None)])
  {
    var bound, up := BoundRow(user, profile, e), ReadyRow(user, profile, e);
    BecomesReady(w, user, profile, e);
    ProvAdvance(s, u, e.uuid, PReady(bound, e.container), e);
    var s1 := State(Running(w, up, e.container), s.threads[u := Prov(e.uuid, PExit)]);
    ProvExit(s1, u, e.uuid, e);
    assert s1.threads[u := Done(None)] == s.threads[u := Done(None)];
    assert w.provisioning + {e.uuid} - {e.uuid} == w.provisioning;
  }

  lemma ExecTwo(s: State, a: seq<Action>, go: Action)
    ensures Exec(s, a + [go] + [go]) == Step(Step(Exec(s, a), go), go)
  {
    ExecMore(s, a, go);
    ExecMore(s, a + [go], go);
  }

  function Eight(go: Action): seq<Action> {
    [go] + [go] + [go] + [go] + [go] + [go] + [go] + [go]
  }

  /** The eight steps of the provisioning thread. */
  lemma ProvisionsSmoothly(s: State, w: World, u: nat, user: string, profile: string, e: Env)
    requires Free(w, user, e) && e.uuid !in w.provisioning && u in s.threads && s.threads[u] == Prov(e.uuid, PGet)
    requires s.world == Grown(w, AskedRow(user, profile, e))
    ensures var go := Advance(u, e);
            Step(Step(Step(Step(Step(Step(Step(Step(s, go), go), go), go), go), go), go), go) ==
            State(AtRest(w, ReadyRow(user, profile, e), e.container), s.threads[u := Done(None)])
  {
    var asked, claimed := AskedRow(user, profile, e), ClaimedRow(user, profile, e);
    Claims(w, user, profile, e);
    ProvTwice(s, u, e.uuid, PGet, PClaim(asked), PCreate(claimed), s.world, Grown(w, claimed), e);
    var s2 := State(Grown(w, claimed), s.threads[u := Prov(e.uuid, PCreate(claimed))]);
    CreatesThenReady(s2, w, u, user, profile, e);
    assert s2.threads[u := Done(None)] == s.threads[u := Done(None)];
  }

  lemma CreatesThenReady(s: State, w: World, u: nat, user: string, profile: string, e: Env)
    requires Free(w, user, e) && e.uuid !in w.provisioning && u in s.threads
    requires var row := ClaimedRow(user, profile, e);
             s.threads[u] == Prov(e.uuid, PCreate(row)) && s.world == Grown(w, row)
    ensures var go := Advance(u, e);
            Step(Step(Step(Step(Step(Step(s, go), go), go), go), go), go) ==
            State(AtRest(w, ReadyRow(user, profile, e), e.container), s.threads[u := Done(None)])
  {
    var c, claimed := e.container, ClaimedRow(user, profile, e);
    Creates(w, user, profile, e);
    ProvTwice(s, u, e.uuid, PCreate(claimed), PRecheck(c), PBind(claimed, c), Running(w, claimed, c),
              Running(w, claimed, c), e);
    var s2 := State(Running(w, claimed, c), s.threads[u := Prov(e.uuid, PBind(claimed, c))]);
    BindsThenReady(s2, w, u, user, profile, e);
    assert s2.threads[u := Done(None)] == s.threads[u := Done(None)];
  }

  lemma BindsThenReady(s: State, w: World, u: nat, user: string, profile: string, e: Env)
    requires Free(w, user, e) && e.uuid !in w.provisioning && u in s.threads
    requires var row := ClaimedRow(user, profile, e);
             s.threads[u] == Prov(e.uuid, PBind(row, e.container)) && s.world == Running(w, row, e.container)
    ensures var go := Advance(u, e);
            Step(Step(Step(Step(s, go), go), go), go) ==
            State(AtRest(w, ReadyRow(user, profile, e), e.container), s.threads[u := Done(None)])
  {
    var c, claimed, bound := e.container, ClaimedRow(user, profile, e), BoundRow(user, profile, e);
    BindsAndPolls(w, user, profile, e);
    ProvTwice(s, u, e.uuid, PBind(claimed, c), PPoll(bound, c), PReady(bound, c), Running(w, bound, c),
              Running(w, bound, c), e);
    var s2 := State(Running(w, bound, c), s.threads[u := Prov(e.uuid, PReady(bound, c))]);
    ReadyThenExit(s2, w, u, user, profile, e);
    assert s2.threads[u := Done(None)] == s.threads[u := Done(None)];
  }

  /** The four steps of the requesting thread. */
  lemma RequestsSmoothly(s: State, t: nat, user: string, profile: string, e: Env)
    requires Free(s.world, user, e) && e.uuid !in s.world.provisioning && t !in s.threads
    requires e.spawn !in s.threads && e.spawn != t
    ensures var go, row := Advance(t, e), AskedRow(user, profile, e);
            Step(Step(Step(Step(Step(s, BeginEnsure(t, user, profile)), go), go), go), go) ==
            State(Grown(s.world, row), s.threads[t := Done(Some(row))][e.spawn := Prov(row.id, PGet)])
  {
    var w, row := s.world, AskedRow(user, profile, e);
    FoundNone(w.rows, user);
    var s1 := State(w, s.threads[t := Ensure(EFind(user, profile))]);
    EnsureAdvance(s1, t, EFind(user, profile), e);
    var s2 := State(w, s.threads[t := Ensure(EInsert(row))]);
    assert Step(s1, Advance(t, e)) == s2;
    Inserts(w, row);
    EnsureAdvance(s2, t, EInsert(row), e);
    var s3 := State(w.(rows := w.rows[row.id := row]), s.threads[t := Ensure(ELock(row))]);
    assert Step(s2, Advance(t, e)) == s3;
    LocksAndSpawns(s3, t, row, e);
    assert s3.threads[t := Done(Some(row))] == s.threads[t := Done(Some(row))];
  }

  lemma Inserts(w: World, row: Row)
    requires NoActive(w.rows, row.owner) && row.id !in w.rows
    ensures Insert(w.rows, row) == Some(w.rows[row.id := row])
  {
  }

  lemma LocksAndSpawns(s: State, t: nat, row: Row, e: Env)
    requires t in s.threads && s.threads[t] == Ensure(ELock(row)) && row.id !in s.world.provisioning
    requires e.spawn !in s.threads
    ensures Step(Step(s, Advance(t, e)), Advance(t, e)) ==
            State(s.world.(provisioning := s.world.provisioning + {row.id}),
                  s.threads[t := Done(Some(row))][e.spawn := Prov(row.id, PGet)])
  {
    EnsureAdvance(s, t, ELock(row), e);
    var s1 := State(s.world.(provisioning := s.world.provisioning + {row.id}), s.threads[t := Ensure(ESpawn(row))]);
    SpawnAdvance(s1, t, row, e);
    assert s1.threads[e.spawn := Prov(row.id, PGet)][t := Done(Some(row))] ==
           s.threads[t := Done(Some(row))][e.spawn := Prov(row.id, PGet)];
  }

  /** The ids in `_provisioning_ids` are those of rows. */
  lemma ProvisioningHasRow(hasProvider: bool, actions: seq<Action>, id: string)
    requires id in Exec(Init(hasProvider), actions).world.provisioning
    ensures id in Exec(Init(hasProvider), actions).world.rows
  {
    ReachableInv(hasProvider, actions);
    var s := Exec(Init(hasProvider), actions);
    var t :| t in s.threads && Claim(s.threads[t]) == Some(id);
    assert ThreadOk(s.world, s.threads[t]);
  }

  lemma {:induction false} ExecCat(s: State, a: seq<Action>, b: seq<Action>)
    ensures Exec(s, a + b) == Exec(Exec(s, a), b)
    decreases |b|
  {
    if b == [] {
      assert a + b == a;
    } else {
      assert (a + b)[..|a + b| - 1] == a + b[..|b| - 1];
      ExecCat(s, a, b[..|b| - 1]);
    }
  }

  lemma ExecEight(s: State, go: Action)
    ensures Exec(s, Eight(go)) == Step(Step(Step(Step(Step(Step(Step(Step(s, go), go), go), go), go), go), go), go)
  {
    assert [go][..0] == [];
    assert Exec(s, [go]) == Step(s, go);
    ExecMore(s, [go], go);
    ExecTwo(s, [go] + [go], go);
    ExecTwo(s, [go] + [go] + [go] + [go], go);
    ExecTwo(s, [go] + [go] + [go] + [go] + [go] + [go], go);
  }

  /** The state after an undisturbed ensure and provisioning: one more READY row for the user, as it was asked
      for, with a live container of its own; both threads are done, and nothing else has changed. */
  function ReadiedState(s: State, t: nat, user: string, profile: string, e: Env): State {
    State(AtRest(s.world, ReadyRow(user, profile, e), e.container),
          s.threads[t := Done(Some(AskedRow(user, profile, e)))][e.spawn := Done(None)])
  }

  lemma FromRequestToReady(s: State, t: nat, user: string, profile: string, e: Env)
    requires Free(s.world, user, e) && e.uuid !in s.world.provisioning && t !in s.threads
    requires e.spawn !in s.threads && e.spawn != t
    ensures var go, next := Advance(t, e), Advance(e.spawn, e);
            var s' := Step(Step(Step(Step(Step(s, BeginEnsure(t, user, profile)), go), go), go), go);
            Step(Step(Step(Step(Step(Step(Step(Step(s', next), next), next), next), next), next), next), next) ==
            ReadiedState(s, t, user, profile, e)
  {
    var row := AskedRow(user, profile, e);
    RequestsSmoothly(s, t, user, profile, e);
    var threads: map<nat, Pc> := s.threads[t := Done(Some(row))];
    ProvisionsSmoothly(State(Grown(s.world, row), threads[e.spawn := Prov(row.id, PGet)]), s.world, e.spawn, user,
                       profile, e);
    assert threads[e.spawn := Prov(row.id, PGet)][e.spawn := Done(None)] == threads[e.spawn := Done(None)];
  }

  /** In every reachable state: a user without an active runtime who asks for one gets it. */
  lemma UndisturbedEnsure(actions: seq<Action>, t: nat, user: string, profile: string, e: Env)
    requires var s := Exec(Init(true), actions);
             && NoActive(s.world.rows, user) && e.uuid !in s.world.rows && e.container !in s.world.made && Smooth(e)
             && t !in s.threads && e.spawn !in s.threads && e.spawn != t
    ensures var go := Advance(t, e);
            Exec(Init(true), actions + [BeginEnsure(t, user, profile)] + [go] + [go] + [go] + [go]
                             + Eight(Advance(e.spawn, e))) ==
            ReadiedState(Exec(Init(true), actions), t, user, profile, e)
  {
    var s, go := Exec(Init(true), actions), Advance(t, e);
    var begun := actions + [BeginEnsure(t, user, profile)] + [go] + [go] + [go] + [go];
    ProviderStays(true, actions);
    if e.uuid in s.world.provisioning {
      ProvisioningHasRow(true, actions, e.uuid);
    }
    ExecFive(Init(true), actions, BeginEnsure(t, user, profile), go);
    ExecCat(Init(true), begun, Eight(Advance(e.spawn, e)));
    ExecEight(Exec(Init(true), begun), Advance(e.spawn, e));
    FromRequestToReady(s, t, user, profile, e);
  }

  // ---------------------------------------------------------------------------------------------
  // Provisioning that goes wrong, in every reachable state.

  /** `finally`: the thread has left. */
  function Left(s: State, w: World, u: nat, id: string): State {
    State(w.(provisioning := w.provisioning - {id}), s.threads[u := Done(None)])
  }

  lemma StepThenExit(s: State, u: nat, id: string, p: ProvPc, w1: World, e: Env)
    requires u in s.threads && s.threads[u] == Prov(id, p) && p != PExit && ProvStep(s.world, id, p, e) == (w1, PExit)
    ensures Step(Step(s, Advance(u, e)), Advance(u, e)) == Left(s, w1, u, id)
  {
    ProvAdvance(s, u, id, p, e);
    var s1 := State(w1, s.threads[u := Prov(id, PExit)]);
    ProvExit(s1, u, id, e);
    assert s1.threads[u := Done(None)] == s.threads[u := Done(None)];
  }

  lemma TerminatesAs(w: World, ref: Option<string>)
    ensures Terminate(w, ref) == w.(live := LiveWithout(w, ref))
  {
    assert ref.None? ==> w.live - {} == w.live;
  }

  /** The world with the container of the runtime gone and its row moved. */
  function EndedWorld(w: World, id: string, ref: Option<string>, row: Row): World {
    w.(live := LiveWithout(w, ref), rows := w.rows[id := row])
  }

  /** What a row's own thread needs of the table to move it. */
  ghost predicate Sole(w: World, id: string) {
    OneActive(w.rows) && id in w.rows && w.rows[id].id == id
  }

  lemma MovesOwn(w: World, id: string, to: RuntimeState, failure: Option<string>, now: int)
    requires Sole(w, id) && to in AllowedFrom(w.rows[id].state)
    ensures Transition(w.rows, w.rows[id], to, None, None, failure, now) ==
            var row := w.rows[id].(state := to, updatedAt := now, failure := failure);
            Moved(w.rows[id := row], row)
  {
    TransitionKeeps(w.rows, w.rows[id], to, None, None, failure, now);
  }

  lemma DropsAndMarks(w: World, id: string, ref: string, e: Env)
    requires Sole(w, id) && w.rows[id].state == Stopping && !e.raises
    ensures var row := w.rows[id];
            var dropped := w.(live := LiveWithout(w, Some(ref)));
            && ProvStep(w, id, PRecheck(ref), e) == (w, PDrop(Some(row), ref))
            && ProvStep(w, id, PDrop(Some(row), ref), e) == (dropped, PMarkStopped(row, ref))
            && ProvStep(dropped, id, PMarkStopped(row, ref), e) ==
               (EndedWorld(w, id, Some(ref), row.(state := Stopped, updatedAt := e.now, failure := None)), PExit)
  {
    TerminatesAs(w, Some(ref));
    MovesOwn(w, id, Stopped, None, e.now);
  }

  lemma NoticesStopFrom(s: State, u: nat, id: string, ref: string, e: Env)
    requires Sole(s.world, id) && s.world.rows[id].state == Stopping && !e.raises
    requires u in s.threads && s.threads[u] == Prov(id, PRecheck(ref))
    ensures var go := Advance(u, e);
            var row := s.world.rows[id].(state := Stopped, updatedAt := e.now, failure := None);
            Step(Step(Step(Step(s, go), go), go), go) == Left(s, EndedWorld(s.world, id, Some(ref), row), u, id)
  {
    var w, row := s.world, s.world.rows[id];
    var dropped := w.(live := LiveWithout(w, Some(ref)));
    DropsAndMarks(w, id, ref, e);
    ProvTwice(s, u, id, PRecheck(ref), PDrop(Some(row), ref), PMarkStopped(row, ref), w, dropped, e);
    var s2 := State(dropped, s.threads[u := Prov(id, PMarkStopped(row, ref))]);
    var ended := EndedWorld(w, id, Some(ref), row.(state := Stopped, updatedAt := e.now, failure := None));
    StepThenExit(s2, u, id, PMarkStopped(row, ref), ended, e);
    assert s2.threads[u := Done(None)] == s.threads[u := Done(None)];
  }

  lemma IsSole(hasProvider: bool, actions: seq<Action>, id: string)
    requires id in Exec(Init(hasProvider), actions).world.rows
    ensures Sole(Exec(Init(hasProvider), actions).world, id)
  {
    ReachableInv(hasProvider, actions);
    assert RowOk(Exec(Init(hasProvider), actions).world, id);
  }

  /** A thread that finds its row in STOPPING when its container has been created: it terminates the container and
      marks the row STOPPED. */
  lemma NoticesStop(hasProvider: bool, actions: seq<Action>, u: nat, id: string, ref: string, e: Env)
    requires var s := Exec(Init(hasProvider), actions);
             && u in s.threads && s.threads[u] == Prov(id, PRecheck(ref)) && id in s.world.rows
             && s.world.rows[id].state == Stopping
    requires !e.raises
    ensures var s, go := Exec(Init(hasProvider), actions), Advance(u, e);
            var row := s.world.rows[id].(state := Stopped, updatedAt := e.now, failure := None);
            Step(Step(Step(Step(s, go), go), go), go) == Left(s, EndedWorld(s.world, id, Some(ref), row), u, id)
  {
    IsSole(hasProvider, actions, id);
    NoticesStopFrom(Exec(Init(hasProvider), actions), u, id, ref, e);
  }

  lemma HandlerReads(w: World, id: string, held: Option<string>, e: Env)
    requires id in w.rows && w.rows[id].state !in {Failed, Stopped} && !e.raises
    ensures ProvStep(w, id, HDrop(held), e) == (w.(live := LiveWithout(w, held)), HGet)
    ensures ProvStep(w.(live := LiveWithout(w, held)), id, HGet, e) ==
            (w.(live := LiveWithout(w, held)), HFail(w.rows[id]))
  {
    TerminatesAs(w, held);
  }

  lemma HandlerMarks(w: World, id: string, held: Option<string>, e: Env)
    requires Sole(w, id) && w.rows[id].state !in {Failed, Stopped} && !e.raises
    ensures var dropped := w.(live := LiveWithout(w, held));
            var row := w.rows[id].(state := Failed, updatedAt := e.now, failure := Some(e.reason));
            ProvStep(dropped, id, HFail(w.rows[id]), e) == (EndedWorld(w, id, held, row), PExit)
  {
    assert Failed in AllowedFrom(w.rows[id].state);
    MovesOwn(w, id, Failed, Some(e.reason), e.now);
  }

  /** The error handler: it terminates the container, if there is one, and marks an active row FAILED with the
      reason. */
  lemma HandlerEnds(s: State, u: nat, id: string, held: Option<string>, e: Env)
    requires Sole(s.world, id) && u in s.threads && s.threads[u] == Prov(id, HDrop(held))
    requires s.world.rows[id].state !in {Failed, Stopped} && !e.raises
    ensures var go := Advance(u, e);
            var row := s.world.rows[id].(state := Failed, updatedAt := e.now, failure := Some(e.reason));
            Step(Step(Step(Step(s, go), go), go), go) == Left(s, EndedWorld(s.world, id, held, row), u, id)
  {
    var w, row := s.world, s.world.rows[id];
    var dropped := w.(live := LiveWithout(w, held));
    HandlerReads(w, id, held, e);
    ProvTwice(s, u, id, HDrop(held), HGet, HFail(row), dropped, dropped, e);
    var s2 := State(dropped, s.threads[u := Prov(id, HFail(row))]);
    HandlerMarks(w, id, held, e);
    var ended := EndedWorld(w, id, held, row.(state := Failed, updatedAt := e.now, failure := Some(e.reason)));
    StepThenExit(s2, u, id, HFail(row), ended, e);
    assert s2.threads[u := Done(None)] == s.threads[u := Done(None)];
  }

  /** What makes a poll give up: a call that raises, the deadline, or a container that has stopped before it was
      ready. */
  predicate GivesUp(e: Env) {
    e.raises || e.expired || (!e.ready && !e.running)
  }

  lemma PollsExactly(s: State, u: nat, id: string, snap: Row, ref: string, e: Env)
    requires u in s.threads && s.threads[u] == Prov(id, PPoll(snap, ref))
    ensures var s' := Step(s, Advance(u, e));
            && s'.world == s.world && s'.threads == s.threads[u := s'.threads[u]]
            && (s'.threads[u] == Prov(id, HDrop(Some(ref))) <==> GivesUp(e))
            && (s'.threads[u] == Prov(id, PReady(snap, ref)) <==> !GivesUp(e) && e.ready)
            && (s'.threads[u] == s.threads[u] <==> !GivesUp(e) && !e.ready)
  {
    ProvAdvance(s, u, id, PPoll(snap, ref), e);
  }

  /** A step into the error handler, and the handler's own. */
  lemma FailsFrom(s: State, u: nat, id: string, p: ProvPc, w: World, held: Option<string>, e: Env, next: Env)
    requires u in s.threads && s.threads[u] == Prov(id, p) && p != PExit
    requires ProvStep(s.world, id, p, e) == (w, HDrop(held))
    requires Sole(w, id) && w.rows[id].state !in {Failed, Stopped} && !next.raises
    ensures var go := Advance(u, next);
            var row := w.rows[id].(state := Failed, updatedAt := next.now, failure := Some(next.reason));
            Step(Step(Step(Step(Step(s, Advance(u, e)), go), go), go), go) ==
            Left(s, EndedWorld(w, id, held, row), u, id)
  {
    ProvAdvance(s, u, id, p, e);
    var s1 := State(w, s.threads[u := Prov(id, HDrop(held))]);
    HandlerEnds(s1, u, id, held, next);
    assert s1.threads[u := Done(None)] == s.threads[u := Done(None)];
  }

  /** A runtime that does not become ready, because its container stops, its time is up or a call raises, ends in
      FAILED with the reason, and its container is gone. */
  lemma StartFails(hasProvider: bool, actions: seq<Action>, u: nat, id: string, snap: Row, ref: string, e: Env,
                   next: Env)
    requires var s := Exec(Init(hasProvider), actions);
             && u in s.threads && s.threads[u] == Prov(id, PPoll(snap, ref)) && id in s.world.rows
             && s.world.rows[id].state == Starting
    requires GivesUp(e) && !next.raises
    ensures var s, go := Exec(Init(hasProvider), actions), Advance(u, next);
            var row := s.world.rows[id].(state := Failed, updatedAt := next.now, failure := Some(next.reason));
            Step(Step(Step(Step(Step(s, Advance(u, e)), go), go), go), go) ==
            Left(s, EndedWorld(s.world, id, Some(ref), row), u, id)
  {
    var s := Exec(Init(hasProvider), actions);
    IsSole(hasProvider, actions, id);
    FailsFrom(s, u, id, PPoll(snap, ref), s.world, Some(ref), e, next);
  }

  /** And so does one whose container could not be created. */
  lemma CreateFails(hasProvider: bool, actions: seq<Action>, u: nat, id: string, snap: Row, e: Env, next: Env)
    requires var s := Exec(Init(hasProvider), actions);
             && u in s.threads && s.threads[u] == Prov(id, PCreate(snap)) && id in s.world.rows
             && s.world.rows[id].state == Provisioning
    requires e.raises && !next.raises
    ensures var s, go := Exec(Init(hasProvider), actions), Advance(u, next);
            var row := s.world.rows[id].(state := Failed, updatedAt := next.now, failure := Some(next.reason));
            var tried := s.world.(attempts := s.world.attempts + multiset{id});
            Step(Step(Step(Step(Step(s, Advance(u, e)), go), go), go), go) ==
            Left(s, EndedWorld(tried, id, None, row), u, id)
  {
    var s := Exec(Init(hasProvider), actions);
    IsSole(hasProvider, actions, id);
    FailsFrom(s, u, id, PCreate(snap), s.world.(attempts := s.world.attempts + multiset{id}), None, e, next);
  }
}
