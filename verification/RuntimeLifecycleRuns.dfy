/** The invariant over whole runs of the runtime service, and what it says. */
module RuntimeLifecycleRuns {
  import opened Common
  import opened RuntimeTable
  import opened RuntimeLifecycle
  import opened RuntimeLifecycleProofs

  ghost predicate ThreadsOk(w: World, threads: map<nat, Pc>) {
    forall t :: t in threads ==> ThreadOk(w, threads[t])
  }

  /** The other threads' assertions survive a step of `t` that keeps its hands off their runtimes. */
  lemma OthersStable(s: State, w': World, t: nat, pc': Pc)
    requires WorldOk(s.world) && ThreadsOk(s.world, s.threads) && Evolves(s.world, w') && ThreadOk(w', pc')
    requires forall u :: u in s.threads && u != t && s.threads[u].Prov? ==> LeavesToOwner(s.world, w', s.threads[u].id)
    ensures ThreadsOk(w', s.threads[t := pc'])
  {
    forall u | u in s.threads && u != t
      ensures ThreadOk(w', s.threads[u])
    {
      ThreadStable(s.world, w', s.threads[u]);
    }
  }

  /** Claims are unaffected by a step that keeps the thread's own claim. */
  lemma ClaimsKept(s: State, w': World, t: nat, pc': Pc)
    requires Exclusive(s) && t in s.threads && w'.provisioning == s.world.provisioning
    requires Claim(pc') == Claim(s.threads[t])
    ensures Exclusive(State(w', s.threads[t := pc']))
  {
    var s' := State(w', s.threads[t := pc']);
    assert forall u :: u in s.threads ==> Claim(s'.threads[u]) == Claim(s.threads[u]);
    forall id | id in w'.provisioning
      ensures exists u :: u in s'.threads && Claim(s'.threads[u]) == Some(id)
    {
      var u :| u in s.threads && Claim(s.threads[u]) == Some(id);
      assert u in s'.threads && Claim(s'.threads[u]) == Some(id);
    }
  }

  /** Containers stay accounted for when the stepping thread passes on what it holds. */
  lemma AccountKept(s: State, w': World, t: nat, pc': Pc)
    requires t in s.threads
    requires forall c :: c in s.world.live ==> Accounted(s, c)
    requires forall c :: c in w'.live && c !in s.world.live ==> Holding(pc') == Some(c)
    requires forall c :: Holding(s.threads[t]) == Some(c) && c in w'.live ==> Holding(pc') == Some(c) || Serving(w', c)
    requires forall c :: Serving(s.world, c) ==> Serving(w', c) || Holding(pc') == Some(c) || c !in w'.live
    ensures forall c :: c in w'.live ==> Accounted(State(w', s.threads[t := pc']), c)
  {
    var s' := State(w', s.threads[t := pc']);
    forall c | c in w'.live
      ensures Accounted(s', c)
    {
      if Holding(pc') == Some(c) {
        assert t in s'.threads && Holding(s'.threads[t]) == Some(c);
      } else if !Serving(w', c) {
        var u :| u in s.threads && Holding(s.threads[u]) == Some(c);
        assert u in s'.threads && Holding(s'.threads[u]) == Some(c);
      }
    }
  }

  /** An advance of a provisioning thread, as a step of the world. */
  lemma ProvAdvance(s: State, t: nat, id: string, p: ProvPc, e: Env)
    requires t in s.threads && s.threads[t] == Prov(id, p) && p != PExit
    ensures Step(s, Advance(t, e)) ==
            State(ProvStep(s.world, id, p, e).0, s.threads[t := Prov(id, ProvStep(s.world, id, p, e).1)])
  {
  }

  lemma ProvAdvanced(s: State, t: nat, id: string, p: ProvPc, w': World, q: ProvPc)
    requires Inv(s) && t in s.threads && s.threads[t] == Prov(id, p) && ProvGood(s.world, w', id, p, q)
    ensures Inv(State(w', s.threads[t := Prov(id, q)]))
  {
    forall u | u in s.threads && u != t && s.threads[u].Prov?
      ensures LeavesToOwner(s.world, w', s.threads[u].id)
    {
      assert Claim(s.threads[u]) != Claim(s.threads[t]);
    }
    OthersStable(s, w', t, Prov(id, q));
    ClaimsKept(s, w', t, Prov(id, q));
    AccountKept(s, w', t, Prov(id, q));
  }

  lemma ProvAdvanceInv(s: State, t: nat, e: Env)
    requires Inv(s) && t in s.threads && s.threads[t].Prov? && s.threads[t].p != PExit
    ensures Inv(Step(s, Advance(t, e)))
  {
    var id, p := s.threads[t].id, s.threads[t].p;
    assert ThreadOk(s.world, s.threads[t]);
    ProvStepGood(s.world, id, p, e);
    ProvAdvanced(s, t, id, p, ProvStep(s.world, id, p, e).0, ProvStep(s.world, id, p, e).1);
    ProvAdvance(s, t, id, p, e);
  }

  /** `finally`: the provisioning thread leaves `_provisioning_ids` and ends. */
  lemma ProvExit(s: State, t: nat, id: string, e: Env)
    requires t in s.threads && s.threads[t] == Prov(id, PExit)
    ensures Step(s, Advance(t, e)) ==
            State(s.world.(provisioning := s.world.provisioning - {id}), s.threads[t := Done(None)])
  {
  }

  lemma ExitAccount(s: State, t: nat, id: string, w': World)
    requires t in s.threads && s.threads[t] == Prov(id, PExit) && forall c :: c in s.world.live ==> Accounted(s, c)
    requires w'.live == s.world.live && w'.made == s.world.made && w'.rows == s.world.rows
    ensures forall c :: c in w'.live ==> Accounted(State(w', s.threads[t := Done(None)]), c)
  {
    AccountKept(s, w', t, Done(None));
  }

  lemma ExitThreads(s: State, t: nat, provisioning: set<string>)
    requires WorldOk(s.world) && ThreadsOk(s.world, s.threads)
    ensures ThreadsOk(s.world.(provisioning := provisioning), s.threads[t := Done(None)])
  {
    LockLeaves(s.world, provisioning);
    OthersStable(s, s.world.(provisioning := provisioning), t, Done(None));
  }

  lemma ProvExited(s: State, t: nat, id: string, w': World)
    requires Inv(s) && t in s.threads && s.threads[t] == Prov(id, PExit)
    requires w' == s.world.(provisioning := s.world.provisioning - {id})
    ensures Inv(State(w', s.threads[t := Done(None)]))
  {
    LockKeepsWorld(s.world, w'.provisioning);
    ExitThreads(s, t, w'.provisioning);
    ExitAccount(s, t, id, w');
    LeaveClaims(s, State(w', s.threads[t := Done(None)]), t);
  }

  lemma ProvExitInv(s: State, t: nat, e: Env)
    requires Inv(s) && t in s.threads && s.threads[t].Prov? && s.threads[t].p == PExit
    ensures Inv(Step(s, Advance(t, e)))
  {
    var id := s.threads[t].id;
    ProvExited(s, t, id, s.world.(provisioning := s.world.provisioning - {id}));
    ProvExit(s, t, id, e);
  }

  lemma LeaveClaims(s: State, s': State, t: nat)
    requires Exclusive(s) && t in s.threads && Claim(s.threads[t]).Some?
    requires s'.threads == s.threads[t := Done(None)]
    requires s'.world.provisioning == s.world.provisioning - {Claim(s.threads[t]).value}
    ensures Exclusive(s')
  {
    assert forall u :: u in s.threads && u != t ==> s'.threads[u] == s.threads[u];
    forall id | id in s'.world.provisioning
      ensures exists u :: u in s'.threads && Claim(s'.threads[u]) == Some(id)
    {
      var u :| u in s.threads && Claim(s.threads[u]) == Some(id);
      assert u in s'.threads && Claim(s'.threads[u]) == Some(id);
    }
    forall u | u in s'.threads && Claim(s'.threads[u]).Some?
      ensures Claim(s'.threads[u]).value in s'.world.provisioning
    {
      assert u != t && Claim(s.threads[u]) != Claim(s.threads[t]);
    }
  }

  /** A request thread's step, apart from its claim. */
  lemma RequestAdvance(s: State, w': World, t: nat, pc': Pc)
    requires Inv(s) && t in s.threads && RequestGood(s.world, w', s.threads[t], pc')
    requires Exclusive(State(w', s.threads[t := pc']))
    ensures Inv(State(w', s.threads[t := pc']))
  {
    OthersStable(s, w', t, pc');
    AccountKept(s, w', t, pc');
  }

  lemma StopShape(w: World, p: StopPc, e: Env)
    ensures StopStep(w, p, e).0.provisioning == w.provisioning && Claim(StopStep(w, p, e).1).None?
  {
  }

  lemma EnsureShape(w: World, p: EnsurePc, e: Env)
    requires !p.ESpawn? && !(p.ELock? && p.mine.id !in w.provisioning)
    ensures EnsureStep(w, p, e).0.provisioning == w.provisioning && Claim(EnsureStep(w, p, e).1).None?
  {
  }

  /** An advance of a stop thread, as a step of the world. */
  lemma StopAdvance(s: State, t: nat, p: StopPc, e: Env)
    requires t in s.threads && s.threads[t] == Stop(p)
    ensures Step(s, Advance(t, e)) == State(StopStep(s.world, p, e).0, s.threads[t := StopStep(s.world, p, e).1])
  {
  }

  lemma StopExclusive(s: State, t: nat, p: StopPc, e: Env)
    requires Exclusive(s) && t in s.threads && s.threads[t] == Stop(p)
    ensures Exclusive(State(StopStep(s.world, p, e).0, s.threads[t := StopStep(s.world, p, e).1]))
  {
    StopShape(s.world, p, e);
    ClaimsKept(s, StopStep(s.world, p, e).0, t, StopStep(s.world, p, e).1);
  }

  lemma StopAdvanceInv(s: State, t: nat, e: Env)
    requires Inv(s) && t in s.threads && s.threads[t].Stop?
    ensures Inv(Step(s, Advance(t, e)))
  {
    var p := s.threads[t].s;
    var w', pc := StopStep(s.world, p, e).0, StopStep(s.world, p, e).1;
    assert RequestGood(s.world, w', s.threads[t], pc) by {
      assert ThreadOk(s.world, s.threads[t]);
      StopStepGood(s.world, p, e);
    }
    StopExclusive(s, t, p, e);
    RequestAdvance(s, w', t, pc);
    StopAdvance(s, t, p, e);
  }

  lemma EnsureAdvance(s: State, t: nat, p: EnsurePc, e: Env)
    requires t in s.threads && s.threads[t] == Ensure(p) && !p.ESpawn?
    ensures Step(s, Advance(t, e)) == State(EnsureStep(s.world, p, e).0, s.threads[t := EnsureStep(s.world, p, e).1])
  {
  }

  lemma EnsureExclusive(s: State, t: nat, p: EnsurePc, e: Env)
    requires Exclusive(s) && t in s.threads && s.threads[t] == Ensure(p) && !p.ESpawn?
    ensures Exclusive(State(EnsureStep(s.world, p, e).0, s.threads[t := EnsureStep(s.world, p, e).1]))
  {
    var w', pc := EnsureStep(s.world, p, e).0, EnsureStep(s.world, p, e).1;
    if p.ELock? && p.mine.id !in s.world.provisioning {
      EnterClaims(s, State(w', s.threads[t := pc]), t, p.mine);
    } else {
      EnsureShape(s.world, p, e);
      ClaimsKept(s, w', t, pc);
    }
  }

  lemma EnsureAdvanceInv(s: State, t: nat, e: Env)
    requires Inv(s) && t in s.threads && s.threads[t].Ensure? && !s.threads[t].e.ESpawn?
    ensures Inv(Step(s, Advance(t, e)))
  {
    var p := s.threads[t].e;
    var w', pc := EnsureStep(s.world, p, e).0, EnsureStep(s.world, p, e).1;
    assert RequestGood(s.world, w', s.threads[t], pc) by {
      assert ThreadOk(s.world, s.threads[t]);
      EnsureStepGood(s.world, p, e);
    }
    EnsureExclusive(s, t, p, e);
    RequestAdvance(s, w', t, pc);
    EnsureAdvance(s, t, p, e);
  }

  lemma EnterClaims(s: State, s': State, t: nat, mine: Row)
    requires Exclusive(s) && t in s.threads && s.threads[t] == Ensure(ELock(mine)) && mine.id !in s.world.provisioning
    requires s'.threads == s.threads[t := Ensure(ESpawn(mine))]
    requires s'.world.provisioning == s.world.provisioning + {mine.id}
    ensures Exclusive(s')
  {
    assert forall u :: u in s.threads && u != t ==> s'.threads[u] == s.threads[u];
    assert t in s'.threads && Claim(s'.threads[t]) == Some(mine.id);
    forall id | id in s'.world.provisioning && id != mine.id
      ensures exists u :: u in s'.threads && Claim(s'.threads[u]) == Some(id)
    {
      var u :| u in s.threads && Claim(s.threads[u]) == Some(id);
      assert u in s'.threads && Claim(s'.threads[u]) == Some(id);
    }
  }

  /** New threads take nothing away from the account. */
  lemma AccountExtends(s: State, threads: map<nat, Pc>)
    requires forall c :: c in s.world.live ==> Accounted(s, c)
    requires forall u :: u in s.threads && Holding(s.threads[u]).Some? ==> u in threads && threads[u] == s.threads[u]
    ensures forall c :: c in s.world.live ==> Accounted(State(s.world, threads), c)
  {
    forall c | c in s.world.live
      ensures Accounted(State(s.world, threads), c)
    {
      if !Serving(s.world, c) {
        var u :| u in s.threads && Holding(s.threads[u]) == Some(c);
        assert u in threads && Holding(threads[u]) == Some(c);
      }
    }
  }

  function Spawned(s: State, t: nat, spawn: nat, mine: Row): map<nat, Pc> {
    s.threads[spawn := Prov(mine.id, PGet)][t := Done(Some(mine))]
  }

  lemma ClaimAfter(s: State, t: nat, spawn: nat, mine: Row, u: nat)
    requires t in s.threads && spawn !in s.threads && u in Spawned(s, t, spawn, mine)
    ensures u != t && u != spawn ==> u in s.threads
    ensures Claim(Spawned(s, t, spawn, mine)[u]) ==
            if u == t then None else if u == spawn then Some(mine.id) else Claim(s.threads[u])
  {
  }

  /** Whoever claims an id still does, or has passed the claim to the thread it started. */
  lemma SpawnClaimed(s: State, t: nat, spawn: nat, mine: Row, id: string)
    requires t in s.threads && s.threads[t] == Ensure(ESpawn(mine)) && spawn !in s.threads
    requires exists u :: u in s.threads && Claim(s.threads[u]) == Some(id)
    ensures exists u :: u in Spawned(s, t, spawn, mine) && Claim(Spawned(s, t, spawn, mine)[u]) == Some(id)
  {
    var u :| u in s.threads && Claim(s.threads[u]) == Some(id);
    var v := if u == t then spawn else u;
    assert v in Spawned(s, t, spawn, mine) && Claim(Spawned(s, t, spawn, mine)[v]) == Some(id);
  }

  lemma SpawnDistinct(s: State, t: nat, spawn: nat, mine: Row, u: nat, v: nat)
    requires Exclusive(s) && t in s.threads && s.threads[t] == Ensure(ESpawn(mine)) && spawn !in s.threads
    requires u in Spawned(s, t, spawn, mine) && v in Spawned(s, t, spawn, mine) && u != v
    requires Claim(Spawned(s, t, spawn, mine)[u]) == Claim(Spawned(s, t, spawn, mine)[v])
    ensures Claim(Spawned(s, t, spawn, mine)[u]).None?
  {
    ClaimAfter(s, t, spawn, mine, u);
    ClaimAfter(s, t, spawn, mine, v);
    assert Claim(s.threads[t]) == Some(mine.id);
  }

  lemma SpawnClaims(s: State, t: nat, spawn: nat, mine: Row)
    requires Exclusive(s) && t in s.threads && s.threads[t] == Ensure(ESpawn(mine)) && spawn !in s.threads
    ensures Exclusive(State(s.world, Spawned(s, t, spawn, mine)))
  {
    var threads := Spawned(s, t, spawn, mine);
    forall u, v | u in threads && v in threads && u != v && Claim(threads[u]) == Claim(threads[v])
      ensures Claim(threads[u]).None?
    {
      SpawnDistinct(s, t, spawn, mine, u, v);
    }
    forall u | u in threads && Claim(threads[u]).Some?
      ensures Claim(threads[u]).value in s.world.provisioning
    {
      ClaimAfter(s, t, spawn, mine, u);
      assert Claim(s.threads[t]) == Some(mine.id);
    }
    forall id | id in s.world.provisioning
      ensures exists u :: u in threads && Claim(threads[u]) == Some(id)
    {
      SpawnClaimed(s, t, spawn, mine, id);
    }
  }

  lemma SpawnAdvance(s: State, t: nat, mine: Row, e: Env)
    requires t in s.threads && s.threads[t] == Ensure(ESpawn(mine))
    ensures Step(s, Advance(t, e)) ==
            if e.spawn in s.threads then s else State(s.world, Spawned(s, t, e.spawn, mine))
  {
  }

  lemma SpawnedOk(s: State, t: nat, spawn: nat, mine: Row)
    requires Inv(s) && t in s.threads && s.threads[t] == Ensure(ESpawn(mine)) && spawn !in s.threads
    ensures ThreadsOk(s.world, Spawned(s, t, spawn, mine))
  {
    assert ThreadOk(s.world, s.threads[t]);
  }

  /** The claim passes from the scheduling thread to the provisioning thread it starts. */
  lemma SpawnedInv(s: State, t: nat, spawn: nat, mine: Row)
    requires Inv(s) && t in s.threads && s.threads[t] == Ensure(ESpawn(mine)) && spawn !in s.threads
    ensures Inv(State(s.world, Spawned(s, t, spawn, mine)))
  {
    SpawnClaims(s, t, spawn, mine);
    SpawnAccount(s, t, spawn, mine);
    SpawnedOk(s, t, spawn, mine);
  }

  lemma SpawnAccount(s: State, t: nat, spawn: nat, mine: Row)
    requires forall c :: c in s.world.live ==> Accounted(s, c)
    requires t in s.threads && s.threads[t] == Ensure(ESpawn(mine)) && spawn !in s.threads
    ensures forall c :: c in s.world.live ==> Accounted(State(s.world, Spawned(s, t, spawn, mine)), c)
  {
    AccountExtends(s, Spawned(s, t, spawn, mine));
  }

  lemma SpawnInv(s: State, t: nat, e: Env)
    requires Inv(s) && t in s.threads && s.threads[t].Ensure? && s.threads[t].e.ESpawn?
    ensures Inv(Step(s, Advance(t, e)))
  {
    var mine := s.threads[t].e.mine;
    SpawnAdvance(s, t, mine, e);
    if e.spawn !in s.threads {
      SpawnedInv(s, t, e.spawn, mine);
    }
  }

  lemma BeginClaims(s: State, t: nat, pc: Pc)
    requires Exclusive(s) && t !in s.threads && Claim(pc).None?
    ensures Exclusive(State(s.world, s.threads[t := pc]))
  {
    var threads := s.threads[t := pc];
    assert forall u :: u in s.threads ==> u in threads && threads[u] == s.threads[u];
    forall id | id in s.world.provisioning
      ensures exists u :: u in threads && Claim(threads[u]) == Some(id)
    {
      var u :| u in s.threads && Claim(s.threads[u]) == Some(id);
      assert u in threads && Claim(threads[u]) == Some(id);
    }
  }

  lemma BeginInv(s: State, t: nat, pc: Pc)
    requires Inv(s) && t !in s.threads && ThreadOk(s.world, pc) && Claim(pc).None?
    ensures Inv(State(s.world, s.threads[t := pc]))
  {
    var threads := s.threads[t := pc];
    AccountExtends(s, threads);
    BeginClaims(s, t, pc);
    assert ThreadsOk(s.world, threads);
  }

  lemma StepInv(s: State, a: Action)
    requires Inv(s)
    ensures Inv(Step(s, a))
  {
    match a
    case BeginEnsure(t, user, profile) =>
      if t !in s.threads {
        BeginInv(s, t, Ensure(EFind(user, profile)));
      }
    case BeginStop(t, user) =>
      if t !in s.threads {
        BeginInv(s, t, Stop(SFind(user, multiset{})));
      }
    case Advance(t, e) =>
      if t in s.threads {
        match s.threads[t]
        case Ensure(p) =>
          if p.ESpawn? { SpawnInv(s, t, e); } else { EnsureAdvanceInv(s, t, e); }
        case Prov(id, p) =>
          if p == PExit { ProvExitInv(s, t, e); } else { ProvAdvanceInv(s, t, e); }
        case Stop(p) => StopAdvanceInv(s, t, e);
        case Done(_) =>
      }
  }

  /** Every reachable state satisfies the invariant. */
  lemma {:induction false} ReachableInv(hasProvider: bool, actions: seq<Action>)
    ensures Inv(Exec(Init(hasProvider), actions))
    decreases |actions|
  {
    if actions != [] {
      ReachableInv(hasProvider, actions[..|actions| - 1]);
      StepInv(Exec(Init(hasProvider), actions[..|actions| - 1]), actions[|actions| - 1]);
    }
  }
}
