/** What every run of the runtime service keeps. `Exec(Init(h), actions)` ranges over all reachable
    states: any number of requests and threads, in any interleaving, with calls raising at any point. */
module RuntimeLifecycleTheorems {
  import opened Common
  import opened RuntimeTable
  import opened RuntimeLifecycle
  import opened RuntimeLifecycleProofs
  import opened RuntimeLifecycleRuns

  // ---------------------------------------------------------------------------------------------
  // Containers.

  /** The container is the local `ref` of the live provisioning thread of `id`. */
  ghost predicate HeldFor(s: State, c: string, id: string) {
    exists t :: t in s.threads && s.threads[t].Prov? && s.threads[t].id == id && HeldBy(s.threads[t].p) == Some(c)
  }

  predicate Bound(w: World, c: string, id: string) {
    id in w.rows && w.rows[id].ref == Some(c) && w.rows[id].state in {Starting, Ready, Stopping}
  }

  lemma HeldOrBound(s: State, c: string, t: nat)
    requires Inv(s) && c in s.world.live && t in s.threads && Holding(s.threads[t]) == Some(c)
    ensures c in s.world.made && (HeldFor(s, c, s.world.made[c]) || Bound(s.world, c, s.world.made[c]))
  {
    assert ThreadOk(s.world, s.threads[t]);
    if s.threads[t].Prov? {
      assert s.threads[t].id == s.world.made[c] && HeldBy(s.threads[t].p) == Some(c);
    } else {
      assert RowOk(s.world, s.threads[t].s.snap.id);
    }
  }

  /** Each container created and not yet terminated is the local `ref` of the live provisioning thread of the
      runtime it was created for, or bound to that runtime's row in STARTING, READY or STOPPING. */
  lemma ContainerAccounting(hasProvider: bool, actions: seq<Action>, c: string)
    requires c in Exec(Init(hasProvider), actions).world.live
    ensures var s := Exec(Init(hasProvider), actions);
            && c in s.world.made
            && (HeldFor(s, c, s.world.made[c]) || Bound(s.world, c, s.world.made[c]))
  {
    ReachableInv(hasProvider, actions);
    var s := Exec(Init(hasProvider), actions);
    assert Accounted(s, c);
    if !Serving(s.world, c) {
      var t :| t in s.threads && Holding(s.threads[t]) == Some(c);
      HeldOrBound(s, c, t);
    }
  }

  ghost predicate Quiescent(s: State) {
    forall t :: t in s.threads ==> s.threads[t].Done?
  }

  /** When no thread is live, the surviving containers are exactly those bound to READY rows, and no id
      is left behind in `_provisioning_ids`. */
  lemma QuiescentContainers(hasProvider: bool, actions: seq<Action>)
    requires Quiescent(Exec(Init(hasProvider), actions))
    ensures var w := Exec(Init(hasProvider), actions).world;
            && (forall c :: c in w.live <==> exists id :: id in w.rows && w.rows[id].state == Ready
                                                  && w.rows[id].ref == Some(c))
            && w.provisioning == {}
  {
    ReachableInv(hasProvider, actions);
    var s := Exec(Init(hasProvider), actions);
    var w := s.world;
    forall c
      ensures c in w.live <==> exists id :: id in w.rows && w.rows[id].state == Ready && w.rows[id].ref == Some(c)
    {
      if c in w.live {
        assert Accounted(s, c) && Serving(w, c);
        assert w.made[c] in w.rows && w.rows[w.made[c]].state == Ready && w.rows[w.made[c]].ref == Some(c);
      }
      if id :| id in w.rows && w.rows[id].state == Ready && w.rows[id].ref == Some(c) {
        assert RowOk(w, id);
      }
    }
  }

  /** So each user has at most one container then. */
  lemma QuiescentOneContainerPerUser(hasProvider: bool, actions: seq<Action>, c: string, d: string)
    requires Quiescent(Exec(Init(hasProvider), actions))
    requires c in Exec(Init(hasProvider), actions).world.live && d in Exec(Init(hasProvider), actions).world.live
    ensures var w := Exec(Init(hasProvider), actions).world;
            && c in w.made && d in w.made && w.made[c] in w.rows && w.made[d] in w.rows
            && (w.rows[w.made[c]].owner == w.rows[w.made[d]].owner ==> c == d)
  {
    ReachableInv(hasProvider, actions);
    var s := Exec(Init(hasProvider), actions);
    assert Accounted(s, c) && Accounted(s, d);
    assert Serving(s.world, c) && Serving(s.world, d);
  }

  /** provider.create is called at most once per runtime id. */
  lemma CreateAtMostOnce(hasProvider: bool, actions: seq<Action>, id: string)
    ensures Exec(Init(hasProvider), actions).world.attempts[id] <= 1
  {
    ReachableInv(hasProvider, actions);
    var w := Exec(Init(hasProvider), actions).world;
    assert ContainersOk(w);
    assert id in w.attempts || w.attempts[id] == 0;
  }

  /** A connection goes to the container made for that very runtime, and it is alive when the row is read. */
  lemma ConnectionTarget(hasProvider: bool, actions: seq<Action>, id: string)
    requires id in Exec(Init(hasProvider), actions).world.rows
    requires Exec(Init(hasProvider), actions).world.rows[id].state == Ready
    ensures var w := Exec(Init(hasProvider), actions).world;
            && w.rows[id].ref.Some? && w.rows[id].ref.value in w.live
            && w.rows[id].ref.value in w.made && w.made[w.rows[id].ref.value] == id
  {
    ReachableInv(hasProvider, actions);
    assert RowOk(Exec(Init(hasProvider), actions).world, id);
  }

  // ---------------------------------------------------------------------------------------------
  // Rows.

  /** At most one active row per user. */
  lemma OneActivePerUser(hasProvider: bool, actions: seq<Action>, a: string, b: string)
    requires a in Exec(Init(hasProvider), actions).world.rows && b in Exec(Init(hasProvider), actions).world.rows
    ensures var rows := Exec(Init(hasProvider), actions).world.rows;
            rows[a].owner == rows[b].owner && Active(rows[a].state) && Active(rows[b].state) ==> a == b
  {
    ReachableInv(hasProvider, actions);
  }

  /** STARTING and READY rows have a container bound; before STOPPING the desired state is RUNNING. */
  lemma RowShape(hasProvider: bool, actions: seq<Action>, id: string)
    requires id in Exec(Init(hasProvider), actions).world.rows
    ensures var row := Exec(Init(hasProvider), actions).world.rows[id];
            && row.id == id && row.state != Queued
            && (row.state in {Starting, Ready} ==> row.ref.Some?)
            && (row.state in {Requested, Provisioning} ==> row.ref.None?)
            && (Active(row.state) && row.state != Stopping ==> row.desired == WantRunning)
  {
    ReachableInv(hasProvider, actions);
    assert RowOk(Exec(Init(hasProvider), actions).world, id);
  }

  /** What one step may write over a row: the transition's own columns, and of the others only the one
      the call names. Every other column keeps what is in the table, whatever snapshot the writer held. */
  ghost predicate Rewrites(a: Row, b: Row, now: int) {
    && b.state in AllowedFrom(a.state)
    && b == a.(state := b.state, updatedAt := now, failure := b.failure,
               provider := b.provider, ref := b.ref, desired := b.desired)
    && (b.state != Provisioning ==> b.provider == a.provider)
    && (b.state != Starting ==> b.ref == a.ref)
    && (b.state == Starting ==> a.ref.None?)
    && (b.state != Stopping ==> b.desired == a.desired)
    && (b.state != Failed ==> b.failure.None?)
  }

  ghost predicate OnlyRewrites(rows: Table, rows': Table, now: int) {
    && (forall id :: id in rows ==> id in rows' && (rows'[id] == rows[id] || Rewrites(rows[id], rows'[id], now)))
    && (forall a, b :: a in rows && b in rows && rows'[a] != rows[a] && rows'[b] != rows[b] ==> a == b)
  }

  /** The transition a thread is about to make. */
  function ProvAttempt(w: World, p: ProvPc, e: Env): Option<TransitionResult> {
    match p
    case PClaim(snap) => Some(Transition(w.rows, snap, Provisioning, Some("docker"), None, None, e.now))
    case PMarkStopped(snap, _) => Some(Transition(w.rows, snap, Stopped, None, None, None, e.now))
    case PBind(snap, ref) => Some(Transition(w.rows, snap, Starting, None, Some(ref), None, e.now))
    case PReady(snap, _) => Some(Transition(w.rows, snap, Ready, None, None, None, e.now))
    case HFail(snap) => Some(Transition(w.rows, snap, Failed, None, None, Some(e.reason), e.now))
    case _ => None
  }

  function StopAttempt(w: World, s: StopPc, e: Env): Option<TransitionResult> {
    match s
    case SWrite(snap, _) => Some(Transition(w.rows, snap, Stopping, None, None, None, e.now))
    case SFinish(snap) => Some(Transition(w.rows, snap, Stopped, None, None, None, e.now))
    case _ => None
  }

  function Attempt(w: World, pc: Pc, e: Env): Option<TransitionResult> {
    match pc
    case Prov(_, p) => ProvAttempt(w, p, e)
    case Stop(s) => StopAttempt(w, s, e)
    case _ => None
  }

  /** The attempt either moves its row, writing over it what it may write, or loses the compare-and-set. */
  ghost predicate SoundAttempt(w: World, r: Option<TransitionResult>, now: int) {
    r.Some? ==> (r.value.Moved? && OnlyRewrites(w.rows, r.value.rows, now)) || r.value.Concurrent?
  }

  lemma MoveRewrites(rows: Table, snap: Row, to: RuntimeState, provider: Option<string>, ref: Option<string>,
                     failure: Option<string>, now: int)
    requires SnapOk(rows, snap) && OneActive(rows) && rows[snap.id].id == snap.id && to in AllowedFrom(snap.state)
    requires provider.Some? ==> to == Provisioning
    requires ref.Some? ==> to == Starting
    requires to == Starting ==> rows[snap.id].ref.None?
    requires failure.Some? ==> to == Failed
    ensures var r := Transition(rows, snap, to, provider, ref, failure, now);
            (r.Moved? && OnlyRewrites(rows, r.rows, now)) || r.Concurrent?
  {
    TransitionKeeps(rows, snap, to, provider, ref, failure, now);
  }

  lemma ProvAttemptSound(w: World, id: string, p: ProvPc, e: Env)
    requires WorldOk(w) && ProvOk(w, id, p)
    ensures SoundAttempt(w, ProvAttempt(w, p, e), e.now)
  {
    assert RowOk(w, id);
    match p
    case PClaim(snap) => MoveRewrites(w.rows, snap, Provisioning, Some("docker"), None, None, e.now);
    case PMarkStopped(snap, ref) => MoveRewrites(w.rows, snap, Stopped, None, None, None, e.now);
    case PBind(snap, ref) => MoveRewrites(w.rows, snap, Starting, None, Some(ref), None, e.now);
    case PReady(snap, ref) => MoveRewrites(w.rows, snap, Ready, None, None, None, e.now);
    case HFail(snap) =>
      assert Failed in AllowedFrom(snap.state);
      MoveRewrites(w.rows, snap, Failed, None, None, Some(e.reason), e.now);
    case _ =>
  }

  lemma StopMoveRewrites(rows: Table, snap: Row, now: int)
    requires OneActive(rows) && SnapOk(rows, snap.(desired := WantRunning)) && rows[snap.id].id == snap.id
    requires snap.desired == WantStopped && Active(snap.state) && snap.state != Stopping
    ensures var r := Transition(rows, snap, Stopping, None, None, None, now);
            (r.Moved? && OnlyRewrites(rows, r.rows, now)) || r.Concurrent?
  {
    StopTransitionKeeps(rows, snap, now);
  }

  lemma StopAttemptSound(w: World, s: StopPc, e: Env)
    requires WorldOk(w) && StopOk(w, s)
    ensures SoundAttempt(w, StopAttempt(w, s, e), e.now)
  {
    match s
    case SWrite(snap, lost) => assert RowOk(w, snap.id); StopMoveRewrites(w.rows, snap, e.now);
    case SFinish(snap) => assert RowOk(w, snap.id); MoveRewrites(w.rows, snap, Stopped, None, None, None, e.now);
    case _ =>
  }

  /** A step of a provisioning or a stop thread changes rows only through its attempt. */
  lemma ProvRows(w: World, id: string, p: ProvPc, e: Env)
    ensures var r := ProvAttempt(w, p, e); var rows := ProvStep(w, id, p, e).0.rows;
            rows == w.rows || (r.Some? && r.value.Moved? && rows == r.value.rows)
  {
  }

  lemma StopRows(w: World, s: StopPc, e: Env)
    ensures var r := StopAttempt(w, s, e); var rows := StopStep(w, s, e).0.rows;
            rows == w.rows || (r.Some? && r.value.Moved? && rows == r.value.rows)
  {
  }

  /** InvalidRuntimeTransition and a violation of the unique index are never raised: each transition
      either moves its row or loses the compare-and-set. And although the UPDATE writes the whole row
      from a snapshot and compares the state column alone, it discards nothing another thread wrote. */
  lemma TransitionsSound(hasProvider: bool, actions: seq<Action>, t: nat, e: Env)
    requires t in Exec(Init(hasProvider), actions).threads
    ensures var s := Exec(Init(hasProvider), actions);
            SoundAttempt(s.world, Attempt(s.world, s.threads[t], e), e.now)
  {
    ReachableInv(hasProvider, actions);
    var s := Exec(Init(hasProvider), actions);
    assert ThreadOk(s.world, s.threads[t]);
    match s.threads[t]
    case Prov(id, p) => ProvAttemptSound(s.world, id, p, e);
    case Stop(p) => StopAttemptSound(s.world, p, e);
    case _ =>
  }

  lemma EnsureRows(w: World, p: EnsurePc, e: Env)
    ensures OnlyRewrites(w.rows, EnsureStep(w, p, e).0.rows, e.now)
  {
  }

  /** No lost update, for every step of every interleaving. */
  lemma NoLostUpdate(hasProvider: bool, actions: seq<Action>, t: nat, e: Env)
    ensures var s := Exec(Init(hasProvider), actions);
            OnlyRewrites(s.world.rows, Step(s, Advance(t, e)).world.rows, e.now)
  {
    var s := Exec(Init(hasProvider), actions);
    if t in s.threads {
      TransitionsSound(hasProvider, actions, t, e);
      match s.threads[t]
      case Ensure(p) => EnsureRows(s.world, p, e);
      case Prov(id, p) => ProvRows(s.world, id, p, e);
      case Stop(p) => StopRows(s.world, p, e);
      case Done(_) =>
    }
  }

  lemma StepRows(hasProvider: bool, actions: seq<Action>, a: Action)
    ensures var s := Exec(Init(hasProvider), actions);
            RowsAdvance(s.world.rows, Step(s, a).world.rows)
  {
    if a.Advance? {
      NoLostUpdate(hasProvider, actions, a.thread, a.env);
    }
  }

  /** Along a run rows are never deleted or handed over, states only go down the transition graph (so
      after STOPPING never READY again, and an inactive row stays inactive), and a bound container
      stays the row's container. */
  lemma {:induction false} RowsOnlyDescend(hasProvider: bool, actions: seq<Action>, k: nat, id: string)
    requires k <= |actions| && id in Exec(Init(hasProvider), actions[..k]).world.rows
    ensures var rows := Exec(Init(hasProvider), actions[..k]).world.rows;
            var rows' := Exec(Init(hasProvider), actions).world.rows;
            && id in rows' && rows'[id].owner == rows[id].owner
            && Rank(rows'[id].state) <= Rank(rows[id].state)
            && (rows[id].ref.Some? ==> rows'[id].ref == rows[id].ref)
            && (rows[id].state == Stopping ==> rows'[id].state in {Stopping, Failed, Stopped})
            && (!Active(rows[id].state) ==> !Active(rows'[id].state))
    decreases |actions|
  {
    if k == |actions| {
      assert actions[..k] == actions;
    } else {
      var front := actions[..|actions| - 1];
      assert front[..k] == actions[..k];
      RowsOnlyDescend(hasProvider, front, k, id);
      StepRows(hasProvider, front, actions[|actions| - 1]);
    }
  }

  // ---------------------------------------------------------------------------------------------
  // The stop loop.

  /** The last transition of request_stop succeeds exactly while the row is still STOPPING. Otherwise
      somebody else has ended the row, as FAILED or STOPPED; either way no container stays bound to it. */
  lemma StopOutcome(hasProvider: bool, actions: seq<Action>, t: nat, snap: Row, e: Env)
    requires t in Exec(Init(hasProvider), actions).threads
    requires Exec(Init(hasProvider), actions).threads[t] == Stop(SFinish(snap)) && !e.raises
    ensures var s := Exec(Init(hasProvider), actions);
            var s' := Step(s, Advance(t, e));
            && snap.id in s.world.rows && snap.id in s'.world.rows
            && (s'.threads[t].Done? && (s'.threads[t].result.Some? <==> s.world.rows[snap.id].state == Stopping))
            && s'.world.rows[snap.id].state in {Failed, Stopped}
            && (s.world.rows[snap.id].state == Stopping ==> s'.world.rows[snap.id].state == Stopped)
            && (s'.world.rows[snap.id].ref.Some? ==> s'.world.rows[snap.id].ref.value !in s'.world.live)
  {
    ReachableInv(hasProvider, actions);
    var s := Exec(Init(hasProvider), actions);
    assert ThreadOk(s.world, s.threads[t]);
    assert RowOk(s.world, snap.id);
    TransitionKeeps(s.world.rows, snap, Stopped, None, None, None, e.now);
  }

  function RowsOf(rows: Table, user: string): set<string> {
    set id | id in rows && rows[id].owner == user
  }

  /** A multiset over a set of ids that holds each at most four times. */
  lemma {:induction false} BoundedMultiset(m: multiset<string>, ids: set<string>)
    requires forall id :: id in m ==> id in ids && m[id] <= 4
    ensures |m| <= 4 * |ids|
    decreases ids
  {
    if ids == {} {
      assert m == multiset{};
    } else {
      var id :| id in ids;
      var rest, fewer := m[id := 0], ids - {id};
      assert |ids| == |fewer| + 1;
      BoundedMultiset(rest, fewer);
    }
  }

  /** The number of compare-and-sets a stop request has lost so far. */
  function Lost(pc: Pc): nat {
    match pc
    case Stop(SFind(_, lost)) => |lost|
    case Stop(SWrite(_, lost)) => |lost|
    case _ => 0
  }

  function LostUser(pc: Pc): string {
    match pc
    case Stop(SFind(user, _)) => user
    case Stop(SWrite(snap, _)) => snap.owner
    case _ => ""
  }

  /** The retry loop of request_stop loses at most four compare-and-sets per row of its user: it can go
      on only while rows are being created for that user. */
  lemma StopRetriesBounded(hasProvider: bool, actions: seq<Action>, t: nat)
    requires t in Exec(Init(hasProvider), actions).threads
    ensures var s := Exec(Init(hasProvider), actions);
            Lost(s.threads[t]) <= 4 * |RowsOf(s.world.rows, LostUser(s.threads[t]))|
  {
    ReachableInv(hasProvider, actions);
    var s := Exec(Init(hasProvider), actions);
    assert ThreadOk(s.world, s.threads[t]);
    match s.threads[t]
    case Stop(SFind(user, lost)) => BoundedMultiset(lost, RowsOf(s.world.rows, user));
    case Stop(SWrite(snap, lost)) => BoundedMultiset(lost, RowsOf(s.world.rows, snap.owner));
    case _ =>
  }

  lemma LostStep(s: State, t: nat, e: Env, snap: Row, lost: multiset<string>)
    requires WorldOk(s.world) && t in s.threads && s.threads[t] == Stop(SWrite(snap, lost)) && !e.raises
    requires StopOk(s.world, SWrite(snap, lost))
    ensures snap.id in s.world.rows
    ensures Step(s, Advance(t, e)).threads[t] == Stop(SFind(snap.owner, lost + multiset{snap.id}))
            <==> Rank(s.world.rows[snap.id].state) < Rank(snap.state)
  {
    assert s.world.rows[snap.id].id == snap.id by { assert RowOk(s.world, snap.id); }
    StopTransitionKeeps(s.world.rows, snap, e.now);
    StopAdvance(s, t, SWrite(snap, lost), e);
  }

  /** Each lost compare-and-set witnesses a strict drop of the row below the snapshot. */
  lemma LostMeansDropped(hasProvider: bool, actions: seq<Action>, t: nat, e: Env, snap: Row, lost: multiset<string>)
    requires t in Exec(Init(hasProvider), actions).threads
    requires Exec(Init(hasProvider), actions).threads[t] == Stop(SWrite(snap, lost)) && !e.raises
    ensures var s := Exec(Init(hasProvider), actions);
            && snap.id in s.world.rows
            && (Step(s, Advance(t, e)).threads[t] == Stop(SFind(snap.owner, lost + multiset{snap.id}))
                <==> Rank(s.world.rows[snap.id].state) < Rank(snap.state))
  {
    ReachableInv(hasProvider, actions);
    var s := Exec(Init(hasProvider), actions);
    assert ThreadOk(s.world, s.threads[t]);
    LostStep(s, t, e, snap, lost);
  }
}
