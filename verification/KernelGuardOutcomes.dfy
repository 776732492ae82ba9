/** What a kernel creation achieves, in every run: nobody is turned away, and nobody waits without cause. */
module KernelGuardOutcomes {
  import opened Common
  import opened Json
  import opened KernelGuard
  import opened KernelGuardProofs

  /** Python's falsy values of JSON. */
  lemma FalsySpelt(value: Json)
    ensures !Truthy(value) <==> value in {Null, Bool(false), Int(0), Float(0.0), Str(""), Arr([]), Obj(map[])}
  {
  }

  // ---------------------------------------------------------------------------------------------
  // Every creation that is not cancelled is served.

  /** Some recording of a truthy object stands for the key. */
  ghost predicate HasReusable(log: seq<Event>, key: Key) {
    exists i :: Standing(log, key, i) && Truthy(log[i].kernel) && log[i].kernel.Obj?
  }

  /** What the upstream's answer adds to the log. */
  function Recording(key: Key, answer: Option<Json>): seq<Event> {
    if answer.Some? then [Recorded(key, answer.value)] else []
  }

  /** In step `j` the task, holding the guard of its key, either finds a truthy object standing recorded or gets
      its creation answered. */
  ghost predicate ServedAt(actions: seq<Action>, j: nat, t: nat, key: Key) {
    && j < |actions| && actions[j].Advance? && actions[j].task == t
    && var s := Exec(INIT, actions[..j]);
    && t in s.tasks && Inside(s.tasks[t]) && s.tasks[t].key == key
    && (|| (s.tasks[t].Check? && HasReusable(s.log, key))
        || (s.tasks[t].Create? && Step(s, actions[j]).log == s.log + Recording(key, actions[j].env.answer)))
  }

  ghost predicate Served(actions: seq<Action>, k: nat, t: nat, key: Key) {
    exists j :: k < j && ServedAt(actions, j, t, key)
  }

  ghost predicate Begun(actions: seq<Action>, k: nat, t: nat, key: Key) {
    k < |actions| && actions[k] == BeginCreate(t, key) && t !in Exec(INIT, actions[..k]).tasks
  }

  predicate NeverCancelled(actions: seq<Action>, t: nat) {
    forall j :: 0 <= j < |actions| && actions[j].Advance? && actions[j].task == t ==> !actions[j].env.cancelled
  }

  /** Where the task of a creation may be, before and after it has been served. */
  predicate Stage(pc: Pc, key: Key, served: bool) {
    match pc
    case Enter(k) => k == key
    case Wait(k, _) => k == key
    case Check(k, _) => k == key
    case Create(k, _) => k == key
    case Unlock(k, _) => k == key && served
    case Leave(k, _) => k == key && served
    case Done => served
    case Dead(k, _) => k == key
    case _ => false
  }

  lemma ServedMore(actions: seq<Action>, a: Action, k: nat, t: nat, key: Key)
    requires Served(actions, k, t, key)
    ensures Served(actions + [a], k, t, key)
  {
    var j :| k < j && ServedAt(actions, j, t, key);
    var all := actions + [a];
    assert all[..j] == actions[..j] && all[j] == actions[j];
    assert ServedAt(all, j, t, key);
  }

  lemma ServedNow(actions: seq<Action>, a: Action, k: nat, t: nat, key: Key)
    requires k < |actions| && a.Advance? && a.task == t
    requires var s := Exec(INIT, actions);
             && t in s.tasks && Inside(s.tasks[t]) && s.tasks[t].key == key
             && (|| (s.tasks[t].Check? && HasReusable(s.log, key))
                 || (s.tasks[t].Create? && Step(s, a).log == s.log + Recording(key, a.env.answer)))
    ensures Served(actions + [a], k, t, key)
  {
    var all := actions + [a];
    assert all[..|actions|] == actions && all[|actions|] == a;
    assert ServedAt(all, |actions|, t, key);
  }

  /** A step of the task, apart from the two in which it may be served. */
  lemma StageStep(s: State, t: nat, pc: Pc, e: Env, key: Key, served: bool)
    requires t in s.tasks && s.tasks[t] == pc && Stage(pc, key, served) && !e.cancelled
    requires !pc.Check? && !pc.Create?
    ensures t in TaskStep(s, t, pc, e).tasks && Stage(TaskStep(s, t, pc, e).tasks[t], key, served)
  {
    match pc
    case Enter(_) =>
    case Wait(_, _) =>
    case Unlock(_, _) =>
    case Leave(_, _) =>
    case Dead(_, _) => Settled(s, t, pc, e);
    case Done => Settled(s, t, pc, e);
  }

  lemma CheckStage(actions: seq<Action>, t: nat, e: Env, key: Key)
    requires t in Exec(INIT, actions).tasks && Exec(INIT, actions).tasks[t].Check?
    requires Exec(INIT, actions).tasks[t].key == key
    ensures var s := Exec(INIT, actions);
            Stage(Step(s, Advance(t, e)).tasks[t], key, HasReusable(s.log, key))
  {
    ReusedExactlyWhenTruthy(actions, t, e);
    CheckDecides(Exec(INIT, actions), t, e);
  }

  lemma CreateStage(s: State, t: nat, e: Env, key: Key)
    requires t in s.tasks && s.tasks[t].Create? && s.tasks[t].key == key && !e.cancelled
    ensures var s' := Step(s, Advance(t, e));
            s'.log == s.log + Recording(key, e.answer) && t in s'.tasks && Stage(s'.tasks[t], key, true)
  {
  }

  lemma StageMore(actions: seq<Action>, a: Action, k: nat, t: nat, key: Key)
    requires k < |actions| && t in Exec(INIT, actions).tasks
    requires Stage(Exec(INIT, actions).tasks[t], key, Served(actions, k, t, key))
    requires a.Advance? && a.task == t ==> !a.env.cancelled
    ensures var s' := Step(Exec(INIT, actions), a);
            t in s'.tasks && Stage(s'.tasks[t], key, Served(actions + [a], k, t, key))
  {
    var s := Exec(INIT, actions);
    if Served(actions, k, t, key) {
      ServedMore(actions, a, k, t, key);
    }
    if !(a.Advance? && a.task == t) {
      OthersStay(s, a, t);
    } else if s.tasks[t].Check? {
      CheckStage(actions, t, a.env, key);
      if HasReusable(s.log, key) {
        ServedNow(actions, a, k, t, key);
      }
    } else if s.tasks[t].Create? {
      CreateStage(s, t, a.env, key);
      ServedNow(actions, a, k, t, key);
    } else {
      StageStep(s, t, s.tasks[t], a.env, key, Served(actions, k, t, key));
    }
  }

  /** Where the task is after the actions. */
  ghost predicate Staged(actions: seq<Action>, k: nat, t: nat, key: Key) {
    var s := Exec(INIT, actions);
    t in s.tasks && Stage(s.tasks[t], key, Served(actions, k, t, key))
  }

  lemma StagedMore(front: seq<Action>, a: Action, k: nat, t: nat, key: Key)
    requires k < |front| && Staged(front, k, t, key) && (a.Advance? && a.task == t ==> !a.env.cancelled)
    ensures Staged(front + [a], k, t, key)
  {
    StageMore(front, a, k, t, key);
    ExecMore(INIT, front, a);
  }

  lemma StagedFirst(actions: seq<Action>, t: nat, key: Key)
    requires actions != [] && Begun(actions, |actions| - 1, t, key)
    ensures Staged(actions, |actions| - 1, t, key)
  {
    assert Exec(INIT, actions).tasks[t] == Enter(key);
  }

  lemma {:induction false} StageThroughout(actions: seq<Action>, k: nat, t: nat, key: Key)
    requires Begun(actions, k, t, key) && NeverCancelled(actions, t)
    ensures Staged(actions, k, t, key)
    decreases |actions|
  {
    var n := |actions| - 1;
    if k < n {
      var front := actions[..n];
      assert front[..k] == actions[..k];
      StageThroughout(front, k, t, key);
      StagedMore(front, actions[n], k, t, key);
      assert actions == front + [actions[n]];
    } else {
      StagedFirst(actions, t, key);
    }
  }

  /** A creation that is never cancelled is done only after it held the guard of its key and either found a
      truthy object standing recorded or got its creation answered. */
  lemma CreationIsServed(actions: seq<Action>, k: nat, t: nat, key: Key)
    requires Begun(actions, k, t, key) && NeverCancelled(actions, t)
    requires t in Exec(INIT, actions).tasks && Exec(INIT, actions).tasks[t].Done?
    ensures exists j :: k < j && ServedAt(actions, j, t, key)
  {
    StageThroughout(actions, k, t, key);
  }

  // ---------------------------------------------------------------------------------------------
  // Nobody waits without cause.

  /** Some other task is inside the guard that the task waits for. */
  ghost predicate Blocked(s: State, t: nat) {
    && t in s.tasks && s.tasks[t].Wait?
    && exists u :: u in s.tasks && u != t && Inside(s.tasks[u]) && s.tasks[u].key == s.tasks[t].key
  }

  lemma LockedByAnother(s: State, t: nat)
    requires Inv(s) && t in s.tasks && s.tasks[t].Wait?
    ensures s.tasks[t].guard in s.guards && (s.guards[s.tasks[t].guard].locked <==> Blocked(s, t))
  {
    var g := s.tasks[t].guard;
    assert Refers(s.tasks[t]) == Some(g);
    if s.guards[g].locked {
      var u :| u in s.tasks && Inside(s.tasks[u]) && s.tasks[u].guard == g;
      assert Refers(s.tasks[u]) == Some(g);
      assert s.entries[s.tasks[u].key] == s.entries[s.tasks[t].key];
    }
    if Blocked(s, t) {
      var u :| u in s.tasks && u != t && Inside(s.tasks[u]) && s.tasks[u].key == s.tasks[t].key;
      assert Refers(s.tasks[u]) == Some(s.tasks[u].guard);
    }
  }

  lemma MovesOn(s: State, t: nat, pc: Pc, e: Env)
    requires t in s.tasks && s.tasks[t] == pc && !e.cancelled && e.created !in s.guards && ItemsOf(e.items, s.kernels)
    requires !pc.Done? && !pc.Dead? && !pc.Wait? && (pc.Unlock? ==> pc.guard in s.guards)
    ensures TaskStep(s, t, pc, e).tasks[t] != pc
  {
    match pc
    case Enter(_) =>
    case GiveUp(_, _) =>
    case Check(key, g) => CheckIs(s, t, key, g, e);
    case Create(_, _) =>
    case Unlock(_, _) =>
    case Leave(_, _) =>
    case Delete(_, _, _) =>
  }

  /** In every reachable state: a step that is not cancelled carries its task on, unless the task is finished, has
      died, or waits for a guard that another task is inside. */
  lemma MovesExactlyUnlessBlocked(actions: seq<Action>, t: nat, e: Env)
    requires t in Exec(INIT, actions).tasks && !e.cancelled && e.created !in Exec(INIT, actions).guards
    requires ItemsOf(e.items, Exec(INIT, actions).kernels)
    ensures var s := Exec(INIT, actions);
            t in Step(s, Advance(t, e)).tasks
    ensures var s := Exec(INIT, actions);
            Step(s, Advance(t, e)).tasks[t] != s.tasks[t] <==>
            !s.tasks[t].Done? && !s.tasks[t].Dead? && !Blocked(s, t)
  {
    ReachableInv(actions);
    var s := Exec(INIT, actions);
    var pc := s.tasks[t];
    StaysInTable(s, t, e);
    if pc.Done? || pc.Dead? {
      Settled(s, t, pc, e);
    } else if pc.Wait? {
      LockedByAnother(s, t);
      WaitIs(s, t, pc.key, pc.guard, e);
    } else {
      assert pc.Unlock? ==> Refers(pc) == Some(pc.guard);
      MovesOn(s, t, pc, e);
    }
  }

  lemma WaitIs(s: State, t: nat, key: Key, g: nat, e: Env)
    requires t in s.tasks && s.tasks[t] == Wait(key, g) && g in s.guards && !e.cancelled
    ensures TaskStep(s, t, Wait(key, g), e).tasks[t] == if s.guards[g].locked then Wait(key, g) else Check(key, g)
  {
  }

  /** The task can take a step that carries it on. */
  ghost predicate CanMove(s: State, t: nat) {
    && t in s.tasks
    && exists e: Env :: !e.cancelled && t in Step(s, Advance(t, e)).tasks
                        && Step(s, Advance(t, e)).tasks[t] != s.tasks[t]
  }

  lemma {:induction false} FreshFor(used: set<nat>) returns (n: nat)
    ensures forall u <- used :: u < n
    decreases used
  {
    if used == {} {
      n := 0;
    } else {
      var u :| u in used;
      var m := FreshFor(used - {u});
      n := if u < m then m else u + 1;
      assert forall v <- used :: v == u || v in used - {u};
    }
  }

  lemma {:induction false} Listing(kernels: map<Key, Json>) returns (items: seq<(Key, Json)>)
    ensures ItemsOf(items, kernels)
    decreases |kernels.Keys|
  {
    if kernels == map[] {
      items := [];
    } else {
      var k :| k in kernels;
      assert (kernels - {k}).Keys == kernels.Keys - {k};
      var rest := Listing(kernels - {k});
      items := rest + [(k, kernels[k])];
      ListingMore(kernels, k, rest);
    }
  }

  lemma ListingMore(kernels: map<Key, Json>, k: Key, rest: seq<(Key, Json)>)
    requires k in kernels && ItemsOf(rest, kernels - {k})
    ensures ItemsOf(rest + [(k, kernels[k])], kernels)
  {
    var items := rest + [(k, kernels[k])];
    assert items[|rest|] == (k, kernels[k]);
    forall j | j in kernels
      ensures exists i :: 0 <= i < |items| && items[i].0 == j
    {
      if j != k {
        assert j in kernels - {k};
        var i :| 0 <= i < |rest| && rest[i].0 == j;
        assert items[i].0 == j;
      }
    }
  }

  lemma MovesSomehow(actions: seq<Action>, t: nat)
    requires t in Exec(INIT, actions).tasks
    requires var s := Exec(INIT, actions); !s.tasks[t].Done? && !s.tasks[t].Dead? && !Blocked(s, t)
    ensures CanMove(Exec(INIT, actions), t)
  {
    var s := Exec(INIT, actions);
    var created := FreshFor(s.guards.Keys);
    var items := Listing(s.kernels);
    var e := Env(created, false, None, items);
    MovesExactlyUnlessBlocked(actions, t, e);
    assert !e.cancelled && Step(s, Advance(t, e)).tasks[t] != s.tasks[t];
  }

  lemma StaysInTable(s: State, t: nat, e: Env)
    requires t in s.tasks
    ensures t in Step(s, Advance(t, e)).tasks
  {
    StillThere(s, t, s.tasks[t], e);
  }

  lemma StillThere(s: State, t: nat, pc: Pc, e: Env)
    requires t in s.tasks
    ensures t in TaskStep(s, t, pc, e).tasks
  {
    match pc
    case Dead(_, _) => Settled(s, t, pc, e);
    case Done => Settled(s, t, pc, e);
    case _ =>
  }

  /** No deadlock: as long as nobody has died under a guard, some unfinished task can go on. */
  lemma SomebodyMoves(actions: seq<Action>, t: nat)
    requires t in Exec(INIT, actions).tasks && !Exec(INIT, actions).tasks[t].Done?
    requires forall u :: u in Exec(INIT, actions).tasks ==> !Exec(INIT, actions).tasks[u].Dead?
    ensures exists u :: CanMove(Exec(INIT, actions), u)
  {
    var s := Exec(INIT, actions);
    if Blocked(s, t) {
      var u :| u in s.tasks && u != t && Inside(s.tasks[u]) && s.tasks[u].key == s.tasks[t].key;
      MovesSomehow(actions, u);
    } else {
      MovesSomehow(actions, t);
    }
  }

  // ---------------------------------------------------------------------------------------------
  // Cancellation.

  lemma CancelledWait(s: State, t: nat, key: Key, g: nat, e: Env)
    requires t in s.tasks && s.tasks[t] == Wait(key, g) && e.cancelled
    ensures Step(s, Advance(t, e)) == Goto(s, t, GiveUp(key, g))
  {
  }

  lemma GivesUp(s: State, t: nat, key: Key, g: nat, e: Env)
    requires t in s.tasks && s.tasks[t] == GiveUp(key, g) && g in s.guards && key in s.entries && s.entries[key] == g
    ensures var left := s.guards[g].references - 1;
            Step(s, Advance(t, e)) ==
            State(if left == 0 then s.entries - {key} else s.entries, s.guards[g := s.guards[g].(references := left)],
                  s.kernels, s.tasks[t := Done], s.log)
  {
    DropIs(s, t, key, g, false);
  }

  lemma WaiterRefers(s: State, t: nat)
    requires TasksOk(s) && t in s.tasks && s.tasks[t].Wait?
    ensures var key, g := s.tasks[t].key, s.tasks[t].guard; g in s.guards && key in s.entries && s.entries[key] == g
  {
    assert Refers(s.tasks[t]) == Some(s.tasks[t].guard);
  }

  /** What a waiter leaves behind when it gives up. */
  function GivenUp(s: State, t: nat, key: Key, g: nat): State
    requires g in s.guards
  {
    var left := s.guards[g].references - 1;
    State(if left == 0 then s.entries - {key} else s.entries, s.guards[g := s.guards[g].(references := left)],
          s.kernels, s.tasks[t := Done], s.log)
  }

  lemma CancelledThenGone(s: State, t: nat, key: Key, g: nat, e: Env, next: Env)
    requires t in s.tasks && s.tasks[t] == Wait(key, g) && e.cancelled
    requires g in s.guards && key in s.entries && s.entries[key] == g
    ensures Step(Step(s, Advance(t, e)), Advance(t, next)) == GivenUp(s, t, key, g)
  {
    CancelledWait(s, t, key, g, e);
    GivesUp(Goto(s, t, GiveUp(key, g)), t, key, g, next);
    assert Goto(s, t, GiveUp(key, g)).tasks[t := Done] == s.tasks[t := Done];
  }

  /** A waiting task that is cancelled gives its reference back, takes the entry away if it was the last, and is done;
      it changes nothing else. */
  lemma CancelledWaiterLeaves(actions: seq<Action>, t: nat, e: Env, next: Env)
    requires t in Exec(INIT, actions).tasks && Exec(INIT, actions).tasks[t].Wait? && e.cancelled
    ensures var s := Exec(INIT, actions);
            var key, g := s.tasks[t].key, s.tasks[t].guard;
            && g in s.guards && key in s.entries && s.entries[key] == g
            && Step(Step(s, Advance(t, e)), Advance(t, next)) == GivenUp(s, t, key, g)
  {
    ReachableInv(actions);
    var s := Exec(INIT, actions);
    WaiterRefers(s, t);
    CancelledThenGone(s, t, s.tasks[t].key, s.tasks[t].guard, e, next);
  }

  /** A task that is cancelled before it has a guard is done at once, and one that is cancelled while the upstream
      creates its kernel records nothing and goes on to give its guard back. */
  lemma CancelledElsewhere(s: State, t: nat, e: Env)
    requires t in s.tasks && e.cancelled
    ensures s.tasks[t].Enter? ==> Step(s, Advance(t, e)) == Goto(s, t, Done)
    ensures s.tasks[t].Create? ==>
              Step(s, Advance(t, e)) == Goto(s, t, Unlock(s.tasks[t].key, s.tasks[t].guard))
  {
  }

  // ---------------------------------------------------------------------------------------------
  // Two creations at once.

  /** The table while tasks share the guard `g` of the key. */
  function Shared(s: State, key: Key, g: nat, guard: Guard, tasks: map<nat, Pc>): State {
    State(s.entries[key := g], s.guards[g := guard], s.kernels, tasks, s.log)
  }

  /** And after the first creation was recorded. */
  function SharedAfter(s: State, key: Key, g: nat, guard: Guard, tasks: map<nat, Pc>, kernel: Json): State {
    Shared(s, key, g, guard, tasks).(kernels := s.kernels[key := kernel], log := s.log + [Recorded(key, kernel)])
  }

  function Pair(s: State, t: nat, p: Pc, u: nat, q: Pc): map<nat, Pc> {
    s.tasks[t := p][u := q]
  }

  function Go(t: nat, g: nat, kernel: Json): Action {
    Advance(t, Env(g, false, Some(kernel), []))
  }

  lemma FirstToCreate(s: State, t: nat, g: nat, key: Key, kernel: Json)
    requires t !in s.tasks && g !in s.guards && key !in s.entries && Absent(s.kernels, key)
    ensures var go := Go(t, g, kernel);
            Exec(s, [BeginCreate(t, key)] + [go] + [go] + [go]) ==
            Shared(s, key, g, Guard(true, 1), s.tasks[t := Create(key, g)])
  {
    var go := Go(t, g, kernel);
    UndisturbedWaits(s, t, g, key, go);
    ExecMore(s, [BeginCreate(t, key)] + [go] + [go], go);
    StepCheck(Checking(s, t, g, key), t, g, key, go);
    assert s.tasks[t := Check(key, g)][t := Create(key, g)] == s.tasks[t := Create(key, g)];
  }

  /** The second one takes a reference to the same guard, and cannot take its lock. */
  lemma SecondJoins(s: State, t: nat, u: nat, g: nat, key: Key, kernel: Json)
    requires t !in s.tasks && u !in s.tasks && t != u && g !in s.guards && key !in s.entries
    ensures var go, s0 := Go(u, g, kernel), Shared(s, key, g, Guard(true, 1), s.tasks[t := Create(key, g)]);
            Step(Step(Step(s0, BeginCreate(u, key)), go), go) ==
            Shared(s, key, g, Guard(true, 2), Pair(s, t, Create(key, g), u, Wait(key, g)))
  {
    var go, s0 := Go(u, g, kernel), Shared(s, key, g, Guard(true, 1), s.tasks[t := Create(key, g)]);
    var s1 := Shared(s, key, g, Guard(true, 1), Pair(s, t, Create(key, g), u, Enter(key)));
    assert Step(s0, BeginCreate(u, key)) == s1;
    var s2 := Shared(s, key, g, Guard(true, 2), Pair(s, t, Create(key, g), u, Wait(key, g)));
    Joins(s1, u, g, key, go);
    assert s1.entries[key := g] == s1.entries && s1.guards[g := Guard(true, 2)] == s2.guards;
    assert s1.tasks[u := Wait(key, g)] == s2.tasks;
    Waits(s2, u, g, key, go);
  }

  lemma Joins(s: State, u: nat, g: nat, key: Key, go: Action)
    requires Goes(go, u, g) && u in s.tasks && s.tasks[u] == Enter(key) && key in s.entries && s.entries[key] == g
    requires g in s.guards
    ensures var guard := s.guards[g].(references := s.guards[g].references + 1);
            Step(s, go) ==
            State(s.entries[key := g], s.guards[g := guard], s.kernels, s.tasks[u := Wait(key, g)], s.log)
  {
  }

  lemma Waits(s: State, u: nat, g: nat, key: Key, go: Action)
    requires Goes(go, u, g) && u in s.tasks && s.tasks[u] == Wait(key, g) && g in s.guards && s.guards[g].locked
    ensures Step(s, go) == s
  {
  }

  /** One step of a task of the key, once the kernel is recorded. */
  lemma UnlocksShared(s: State, key: Key, g: nat, n: int, tasks: map<nat, Pc>, kernel: Json, t: nat, go: Action)
    requires Goes(go, t, g) && t in tasks && tasks[t] == Unlock(key, g)
    ensures Step(SharedAfter(s, key, g, Guard(true, n), tasks, kernel), go) ==
            SharedAfter(s, key, g, Guard(false, n), tasks[t := Leave(key, g)], kernel)
  {
    var s0 := SharedAfter(s, key, g, Guard(true, n), tasks, kernel);
    StepUnlock(s0, t, g, key, go);
    assert s0.guards[g := Guard(false, n)] == s.guards[g := Guard(false, n)];
  }

  lemma LeavesShared(s: State, key: Key, g: nat, tasks: map<nat, Pc>, kernel: Json, t: nat, go: Action)
    requires Goes(go, t, g) && t in tasks && tasks[t] == Leave(key, g)
    ensures Step(SharedAfter(s, key, g, Guard(false, 2), tasks, kernel), go) ==
            SharedAfter(s, key, g, Guard(false, 1), tasks[t := Done], kernel)
  {
    var s0 := SharedAfter(s, key, g, Guard(false, 2), tasks, kernel);
    DropIs(s0, t, key, g, true);
    assert s0.guards[g := Guard(false, 1)] == s.guards[g := Guard(false, 1)];
  }

  lemma LastLeaves(s: State, key: Key, g: nat, tasks: map<nat, Pc>, kernel: Json, t: nat, go: Action)
    requires Goes(go, t, g) && t in tasks && tasks[t] == Leave(key, g) && key !in s.entries
    ensures Step(SharedAfter(s, key, g, Guard(false, 1), tasks, kernel), go) ==
            State(s.entries, s.guards[g := Guard(false, 0)], s.kernels[key := kernel], tasks[t := Done],
                  s.log + [Recorded(key, kernel)])
  {
    var s0 := SharedAfter(s, key, g, Guard(false, 1), tasks, kernel);
    StepLeave(s0, t, g, key, go);
    assert s0.guards[g := Guard(false, 0)] == s.guards[g := Guard(false, 0)];
    assert s.entries[key := g] - {key} == s.entries;
  }

  lemma RecordsShared(s: State, key: Key, g: nat, tasks: map<nat, Pc>, kernel: Json, t: nat, go: Action)
    requires Goes(go, t, g) && go.env.answer == Some(kernel) && t in tasks && tasks[t] == Create(key, g)
    ensures Step(Shared(s, key, g, Guard(true, 2), tasks), go) ==
            SharedAfter(s, key, g, Guard(true, 2), tasks[t := Unlock(key, g)], kernel)
  {
    StepCreate(Shared(s, key, g, Guard(true, 2), tasks), t, g, key, go);
  }

  lemma MovedFirst(s: State, t: nat, u: nat, p: Pc, p': Pc, q: Pc)
    requires t != u
    ensures Pair(s, t, p, u, q)[t := p'] == Pair(s, t, p', u, q)
    ensures Pair(s, t, q, u, p)[u := p'] == Pair(s, t, q, u, p')
  {
  }

  /** The first one records its kernel, gives the lock back and leaves; the guard stays in the table. */
  lemma FirstLeaves(s: State, t: nat, u: nat, g: nat, key: Key, kernel: Json)
    requires t != u
    ensures var go := Go(t, g, kernel);
            var s0 := Shared(s, key, g, Guard(true, 2), Pair(s, t, Create(key, g), u, Wait(key, g)));
            Step(Step(Step(s0, go), go), go) ==
            SharedAfter(s, key, g, Guard(false, 1), Pair(s, t, Done, u, Wait(key, g)), kernel)
  {
    var go, wait := Go(t, g, kernel), Wait(key, g);
    RecordsShared(s, key, g, Pair(s, t, Create(key, g), u, wait), kernel, t, go);
    MovedFirst(s, t, u, Create(key, g), Unlock(key, g), wait);
    UnlocksShared(s, key, g, 2, Pair(s, t, Unlock(key, g), u, wait), kernel, t, go);
    MovedFirst(s, t, u, Unlock(key, g), Leave(key, g), wait);
    LeavesShared(s, key, g, Pair(s, t, Leave(key, g), u, wait), kernel, t, go);
    MovedFirst(s, t, u, Leave(key, g), Done, wait);
  }

  lemma TakesShared(s: State, key: Key, g: nat, tasks: map<nat, Pc>, kernel: Json, t: nat, go: Action)
    requires Goes(go, t, g) && t in tasks && tasks[t] == Wait(key, g)
    ensures Step(SharedAfter(s, key, g, Guard(false, 1), tasks, kernel), go) ==
            SharedAfter(s, key, g, Guard(true, 1), tasks[t := Check(key, g)], kernel)
  {
    var s0 := SharedAfter(s, key, g, Guard(false, 1), tasks, kernel);
    StepWait(s0, t, g, key, go);
    assert s0.guards[g := Guard(true, 1)] == s.guards[g := Guard(true, 1)];
  }

  lemma ReusesShared(s: State, key: Key, g: nat, tasks: map<nat, Pc>, kernel: Json, t: nat, go: Action)
    requires Goes(go, t, g) && t in tasks && tasks[t] == Check(key, g) && Truthy(kernel) && kernel.Obj?
    ensures Step(SharedAfter(s, key, g, Guard(true, 1), tasks, kernel), go) ==
            SharedAfter(s, key, g, Guard(true, 1), tasks[t := Unlock(key, g)], kernel)
  {
    StepCheck(SharedAfter(s, key, g, Guard(true, 1), tasks, kernel), t, g, key, go);
  }

  /** Now the second one takes the lock, finds the kernel and leaves without creating another. */
  lemma SecondReuses(s: State, t: nat, u: nat, g: nat, key: Key, kernel: Json)
    requires t != u && key !in s.entries && Truthy(kernel) && kernel.Obj?
    ensures var go := Go(u, g, kernel);
            var s0 := SharedAfter(s, key, g, Guard(false, 1), Pair(s, t, Done, u, Wait(key, g)), kernel);
            Step(Step(Step(Step(s0, go), go), go), go) ==
            State(s.entries, s.guards[g := Guard(false, 0)], s.kernels[key := kernel], Pair(s, t, Done, u, Done),
                  s.log + [Recorded(key, kernel)])
  {
    var go := Go(u, g, kernel);
    TakesShared(s, key, g, Pair(s, t, Done, u, Wait(key, g)), kernel, u, go);
    MovedFirst(s, t, u, Wait(key, g), Check(key, g), Done);
    ReusesShared(s, key, g, Pair(s, t, Done, u, Check(key, g)), kernel, u, go);
    MovedFirst(s, t, u, Check(key, g), Unlock(key, g), Done);
    UnlocksShared(s, key, g, 1, Pair(s, t, Done, u, Unlock(key, g)), kernel, u, go);
    MovedFirst(s, t, u, Unlock(key, g), Leave(key, g), Done);
    LastLeaves(s, key, g, Pair(s, t, Done, u, Leave(key, g)), kernel, u, go);
    MovedFirst(s, t, u, Leave(key, g), Done, Done);
  }

  /** The thirteen actions: the second creation comes while the first one waits for its answer, and tries in vain
      to go on before that. */
  function TwoAtOnce(t: nat, u: nat, g: nat, key: Key, kernel: Json): seq<Action> {
    var first, second := Go(t, g, kernel), Go(u, g, kernel);
    [BeginCreate(t, key)] + [first] + [first] + [first]
    + ([BeginCreate(u, key)] + [second] + [second])
    + ([first] + [first] + [first])
    + ([second] + [second] + [second] + [second])
  }

  lemma ExecThree(s: State, x: Action, y: Action, z: Action)
    ensures Exec(s, [x] + [y] + [z]) == Step(Step(Step(s, x), y), z)
  {
    assert [x][..0] == [];
    assert Exec(s, [x]) == Step(s, x);
    ExecMore(s, [x], y);
    ExecMore(s, [x] + [y], z);
  }

  /** Of two creations for one key the second waits for the first and reuses its kernel: one kernel is recorded,
      and no guard is left. */
  lemma SecondWaitsAndReuses(s: State, t: nat, u: nat, g: nat, key: Key, kernel: Json)
    requires t !in s.tasks && u !in s.tasks && t != u && g !in s.guards && key !in s.entries && Absent(s.kernels, key)
    requires Truthy(kernel) && kernel.Obj?
    ensures Exec(s, TwoAtOnce(t, u, g, key, kernel)) ==
            State(s.entries, s.guards[g := Guard(false, 0)], s.kernels[key := kernel], Pair(s, t, Done, u, Done),
                  s.log + [Recorded(key, kernel)])
  {
    var first, second := Go(t, g, kernel), Go(u, g, kernel);
    var a := [BeginCreate(t, key)] + [first] + [first] + [first];
    var b := [BeginCreate(u, key)] + [second] + [second];
    var c := [first] + [first] + [first];
    var d := [second] + [second] + [second] + [second];
    FirstToCreate(s, t, g, key, kernel);
    ExecCat(s, a, b);
    ExecThree(Exec(s, a), BeginCreate(u, key), second, second);
    SecondJoins(s, t, u, g, key, kernel);
    ExecCat(s, a + b, c);
    ExecThree(Exec(s, a + b), first, first, first);
    FirstLeaves(s, t, u, g, key, kernel);
    ExecCat(s, a + b + c, d);
    ExecThree(Exec(s, a + b + c), second, second, second);
    ExecMore(Exec(s, a + b + c), [second] + [second] + [second], second);
    SecondReuses(s, t, u, g, key, kernel);
  }
}
