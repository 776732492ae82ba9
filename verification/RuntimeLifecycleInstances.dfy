/** Two concrete runs of the runtime service: a stop that ends in FAILED, and one that ends at rest with a
    READY runtime and its container. */
module RuntimeLifecycleInstances {
  import opened Common
  import opened RuntimeTable
  import opened RuntimeLifecycle

  lemma ExecMore(s: State, a: seq<Action>, x: Action)
    ensures Exec(s, a + [x]) == Step(Exec(s, a), x)
  {
    assert (a + [x])[..|a|] == a;
  }

  lemma {:induction false} ExecCat(s: State, a: seq<Action>, b: seq<Action>)
    ensures Exec(s, a + b) == Exec(Exec(s, a), b)
    decreases |b|
  {
    if b == [] {
      assert a + b == a;
    } else {
      assert (a + b)[..|a + b| - 1] == a + b[..|b| - 1];
      ExecCat(s, a, b[..|b| - 1]);
    }
  }

  lemma ExecOne(s: State, x: Action)
    ensures Exec(s, [x]) == Step(s, x)
  {
    assert [x][..0] == [];
  }

  lemma ExecThree(s: State, x: Action, y: Action, z: Action)
    ensures Exec(s, [x, y, z]) == Step(Step(Step(s, x), y), z)
  {
    ExecOne(s, x);
    ExecMore(s, [x], y);
    assert [x] + [y] == [x, y];
    ExecMore(s, [x, y], z);
    assert [x, y] + [z] == [x, y, z];
  }

  /** The environment of every step: all generated names are fixed, and the call may raise. */
  function Choice(raises: bool): Env {
    Env(0, "r", "c", 1, raises, true, true, false, "create failed")
  }

  function Go(t: nat): Action {
    Advance(t, Choice(false))
  }

  function Raise(t: nat): Action {
    Advance(t, Choice(true))
  }

  /** The runtime of the user "u". */
  function Rec(state: RuntimeState, desired: DesiredState, provider: string, ref: Option<string>,
               failure: Option<string>): Row {
    Row("r", "u", "p", state, desired, provider, ref, 0, 0, 0, failure)
  }

  const ASKED := Rec(Requested, WantRunning, "unassigned", None, None)
  const CLAIMED := Rec(Provisioning, WantRunning, "docker", None, None)
  const BOUND := Rec(Starting, WantRunning, "docker", Some("c"), None)
  const UP := Rec(Ready, WantRunning, "docker", Some("c"), None)
  const HALTED := Rec(Stopping, WantStopped, "docker", None, None)
  const BROKEN := Rec(Failed, WantStopped, "docker", None, Some("create failed"))

  /** One row, and the container "c" in one of three stages: not asked for, asked for in vain, created. */
  datatype Stage = NotAsked | Refused | Created

  function Place(row: Row, stage: Stage, provisioning: set<string>): World {
    World(map["r" := row], if stage.Created? then {"c"} else {}, if stage.Created? then map["c" := "r"] else map[],
          if stage.NotAsked? then multiset{} else multiset{"r"}, provisioning, true)
  }

  // ---------------------------------------------------------------------------------------------
  // One step.

  lemma OnlyActive(row: Row)
    requires row.id == "r" && row.owner == "u" && Active(row.state)
    ensures FindActive(map["r" := row], "u") == Some(row)
  {
    assert IsNewestActive(map["r" := row], "u", "r");
  }

  lemma NoneActive()
    ensures FindActive(map[], "u") == None
  {
  }

  lemma Moves(row: Row, to: RuntimeState, provider: Option<string>, ref: Option<string>, failure: Option<string>,
              snap: Row)
    requires row.id == snap.id == "r" && row.owner == snap.owner && row.state == snap.state
    requires row.createdAt == snap.createdAt && to in AllowedFrom(snap.state)
    ensures var next := snap.(state := to, updatedAt := 0, failure := failure,
                              provider := if provider.Some? then provider.value else snap.provider,
                              ref := if ref.Some? then ref else snap.ref);
            Transition(map["r" := row], snap, to, provider, ref, failure, 0) == Moved(map["r" := next], next)
  {
    assert !SlotTaken(map["r" := row], snap.owner, "r");
    assert forall next: Row :: map["r" := row]["r" := next] == map["r" := next];
  }

  /** A step of the provisioning thread 1. */
  lemma ProvGoes(w: World, threads: map<nat, Pc>, p: ProvPc, raises: bool, w': World, q: ProvPc)
    requires 1 in threads && threads[1] == Prov("r", p) && !p.PExit?
    requires ProvStep(w, "r", p, Choice(raises)) == (w', q)
    ensures Step(State(w, threads), Advance(1, Choice(raises))) == State(w', threads[1 := Prov("r", q)])
  {
  }

  lemma StopGoes(w: World, threads: map<nat, Pc>, p: StopPc, w': World, pc: Pc)
    requires 2 in threads && threads[2] == Stop(p) && StopStep(w, p, Choice(false)) == (w', pc)
    ensures Step(State(w, threads), Go(2)) == State(w', threads[2 := pc])
  {
  }

  // ---------------------------------------------------------------------------------------------
  // Both runs begin with a request that is claimed by its provisioning thread.

  const EMPTY := World(map[], {}, map[], multiset{}, {}, true)

  function Asking(e: EnsurePc): map<nat, Pc> {
    map[0 := Ensure(e)]
  }

  /** The requesting thread has answered, and thread 1 provisions. */
  function With(p: ProvPc): map<nat, Pc> {
    map[0 := Done(Some(ASKED)), 1 := Prov("r", p)]
  }

  const CLAIM := [BeginEnsure(0, "u", "p"), Go(0), Go(0), Go(0), Go(0), Go(1), Go(1)]

  lemma AskedFor()
    ensures Exec(Init(true), CLAIM[..4]) == State(Place(ASKED, NotAsked, {"r"}), Asking(ESpawn(ASKED)))
  {
    var s := Init(true);
    NoneActive();
    ExecMore(s, [], CLAIM[0]);
    assert CLAIM[..1] == [] + [CLAIM[0]];
    assert Exec(s, CLAIM[..1]) == State(EMPTY, Asking(EFind("u", "p")));
    ExecMore(s, CLAIM[..1], Go(0));
    assert CLAIM[..2] == CLAIM[..1] + [Go(0)];
    assert Exec(s, CLAIM[..2]) == State(EMPTY, Asking(EInsert(ASKED)));
    ExecMore(s, CLAIM[..2], Go(0));
    assert CLAIM[..3] == CLAIM[..2] + [Go(0)];
    assert Insert(map[], ASKED) == Some(map["r" := ASKED]);
    assert Exec(s, CLAIM[..3]) == State(Place(ASKED, NotAsked, {}), Asking(ELock(ASKED)));
    ExecMore(s, CLAIM[..3], Go(0));
    assert CLAIM[..4] == CLAIM[..3] + [Go(0)];
  }

  lemma ClaimWritten()
    ensures ProvStep(Place(ASKED, NotAsked, {"r"}), "r", PClaim(ASKED), Choice(false)) ==
            (Place(CLAIMED, NotAsked, {"r"}), PCreate(CLAIMED))
  {
    Moves(ASKED, Provisioning, Some("docker"), None, None, ASKED);
  }

  lemma WithMoves(row: Row, row': Row, stage: Stage, stage': Stage, p: ProvPc, q: ProvPc)
    requires !p.PExit? && ProvStep(Place(row, stage, {"r"}), "r", p, Choice(false)) == (Place(row', stage', {"r"}), q)
    ensures Step(State(Place(row, stage, {"r"}), With(p)), Go(1)) == State(Place(row', stage', {"r"}), With(q))
  {
    ProvGoes(Place(row, stage, {"r"}), With(p), p, false, Place(row', stage', {"r"}), q);
    assert With(p)[1 := Prov("r", q)] == With(q);
  }

  lemma Spawns(s: State)
    requires s == State(Place(ASKED, NotAsked, {"r"}), Asking(ESpawn(ASKED)))
    ensures Step(s, Go(0)) == State(Place(ASKED, NotAsked, {"r"}), With(PGet))
  {
    assert s.threads[1 := Prov("r", PGet)][0 := Done(Some(ASKED))] == With(PGet);
  }

  lemma Claimed()
    ensures Exec(Init(true), CLAIM) == State(Place(CLAIMED, NotAsked, {"r"}), With(PCreate(CLAIMED)))
  {
    var s := State(Place(ASKED, NotAsked, {"r"}), Asking(ESpawn(ASKED)));
    AskedFor();
    ExecCat(Init(true), CLAIM[..4], CLAIM[4..]);
    assert CLAIM == CLAIM[..4] + CLAIM[4..] && CLAIM[4..] == [Go(0), Go(1), Go(1)];
    ExecThree(s, Go(0), Go(1), Go(1));
    Spawns(s);
    WithMoves(ASKED, ASKED, NotAsked, NotAsked, PGet, PClaim(ASKED));
    ClaimWritten();
    WithMoves(ASKED, CLAIMED, NotAsked, NotAsked, PClaim(ASKED), PCreate(CLAIMED));
  }

  // ---------------------------------------------------------------------------------------------
  // A stop that overtakes a creation which then raises.

  function Stopping2(p: ProvPc, pc: Pc): map<nat, Pc> {
    map[0 := Done(Some(ASKED)), 1 := Prov("r", p), 2 := pc]
  }

  const WANTED := Rec(Provisioning, WantStopped, "docker", None, None)

  lemma StopMoves(row: Row, row': Row, stage: Stage, p: ProvPc, q: StopPc, pc: Pc)
    requires StopStep(Place(row, stage, {"r"}), q, Choice(false)) == (Place(row', stage, {"r"}), pc)
    ensures Step(State(Place(row, stage, {"r"}), Stopping2(p, Stop(q))), Go(2)) ==
            State(Place(row', stage, {"r"}), Stopping2(p, pc))
  {
    StopGoes(Place(row, stage, {"r"}), Stopping2(p, Stop(q)), q, Place(row', stage, {"r"}), pc);
    assert Stopping2(p, Stop(q))[2 := pc] == Stopping2(p, pc);
  }

  lemma StopFinds(stage: Stage)
    ensures StopStep(Place(CLAIMED, stage, {"r"}), SFind("u", multiset{}), Choice(false)) ==
            (Place(CLAIMED, stage, {"r"}), Stop(SWrite(WANTED, multiset{})))
  {
    OnlyActive(CLAIMED);
  }

  lemma StopWrites(stage: Stage)
    ensures StopStep(Place(CLAIMED, stage, {"r"}), SWrite(WANTED, multiset{}), Choice(false)) ==
            (Place(HALTED, stage, {"r"}), Stop(SDrop(HALTED)))
  {
    Moves(CLAIMED, Stopping, None, None, None, WANTED);
  }

  lemma StopWritten(s: State, stage: Stage, p: ProvPc)
    requires s == State(Place(CLAIMED, stage, {"r"}), With(p))
    ensures Exec(s, [BeginStop(2, "u"), Go(2), Go(2)]) ==
            State(Place(HALTED, stage, {"r"}), Stopping2(p, Stop(SDrop(HALTED))))
  {
    ExecThree(s, BeginStop(2, "u"), Go(2), Go(2));
    assert With(p)[2 := Stop(SFind("u", multiset{}))] == Stopping2(p, Stop(SFind("u", multiset{})));
    StopFinds(stage);
    StopMoves(CLAIMED, CLAIMED, stage, p, SFind("u", multiset{}), Stop(SWrite(WANTED, multiset{})));
    StopWrites(stage);
    StopMoves(CLAIMED, HALTED, stage, p, SWrite(WANTED, multiset{}), Stop(SDrop(HALTED)));
  }

  lemma ProvMoves(row: Row, row': Row, stage: Stage, stage': Stage, p: ProvPc, q: ProvPc, pc: Pc, raises: bool)
    requires !p.PExit?
    requires ProvStep(Place(row, stage, {"r"}), "r", p, Choice(raises)) == (Place(row', stage', {"r"}), q)
    ensures Step(State(Place(row, stage, {"r"}), Stopping2(p, pc)), Advance(1, Choice(raises))) ==
            State(Place(row', stage', {"r"}), Stopping2(q, pc))
  {
    ProvGoes(Place(row, stage, {"r"}), Stopping2(p, pc), p, raises, Place(row', stage', {"r"}), q);
    assert Stopping2(p, pc)[1 := Prov("r", q)] == Stopping2(q, pc);
  }

  lemma CreateRaises()
    ensures ProvStep(Place(HALTED, NotAsked, {"r"}), "r", PCreate(CLAIMED), Choice(true)) ==
            (Place(HALTED, Refused, {"r"}), HDrop(None))
  {
    assert multiset{} + multiset{"r"} == multiset{"r"};
  }

  lemma HandlerFails()
    ensures ProvStep(Place(HALTED, Refused, {"r"}), "r", HFail(HALTED), Choice(false)) ==
            (Place(BROKEN, Refused, {"r"}), PExit)
  {
    Moves(HALTED, Failed, None, None, Some("create failed"), HALTED);
  }

  lemma HandlerReads()
    ensures ProvStep(Place(HALTED, Refused, {"r"}), "r", HDrop(None), Choice(false)) ==
            (Place(HALTED, Refused, {"r"}), HGet)
    ensures ProvStep(Place(HALTED, Refused, {"r"}), "r", HGet, Choice(false)) ==
            (Place(HALTED, Refused, {"r"}), HFail(HALTED))
  {
  }

  lemma CreateRaised(s: State)
    requires s == State(Place(HALTED, NotAsked, {"r"}), Stopping2(PCreate(CLAIMED), Stop(SDrop(HALTED))))
    ensures Exec(s, [Raise(1), Go(1), Go(1)]) ==
            State(Place(HALTED, Refused, {"r"}), Stopping2(HFail(HALTED), Stop(SDrop(HALTED))))
  {
    var pc := Stop(SDrop(HALTED));
    ExecThree(s, Raise(1), Go(1), Go(1));
    CreateRaises();
    HandlerReads();
    ProvMoves(HALTED, HALTED, NotAsked, Refused, PCreate(CLAIMED), HDrop(None), pc, true);
    ProvMoves(HALTED, HALTED, Refused, Refused, HDrop(None), HGet, pc, false);
    ProvMoves(HALTED, HALTED, Refused, Refused, HGet, HFail(HALTED), pc, false);
  }

  /** The handler of the provisioning thread ends the row, which the stopper has put in STOPPING. */
  lemma RowEnded(s: State)
    requires s == State(Place(HALTED, NotAsked, {"r"}), Stopping2(PCreate(CLAIMED), Stop(SDrop(HALTED))))
    ensures Exec(s, [Raise(1), Go(1), Go(1)] + [Go(1)]) ==
            State(Place(BROKEN, Refused, {"r"}), Stopping2(PExit, Stop(SDrop(HALTED))))
  {
    CreateRaised(s);
    ExecMore(s, [Raise(1), Go(1), Go(1)], Go(1));
    HandlerFails();
    ProvMoves(HALTED, BROKEN, Refused, Refused, HFail(HALTED), PExit, Stop(SDrop(HALTED)), false);
  }

  lemma TooLate()
    ensures Transition(map["r" := BROKEN], HALTED, Stopped, None, None, None, 0) == Concurrent
  {
  }

  lemma StopEnds(s: State)
    requires s == State(Place(BROKEN, Refused, {"r"}), Stopping2(PExit, Stop(SDrop(HALTED))))
    ensures Exec(s, [Go(2)]) == State(Place(BROKEN, Refused, {"r"}), Stopping2(PExit, Stop(SFinish(HALTED))))
    ensures Exec(s, [Go(2)] + [Go(2)]) == State(Place(BROKEN, Refused, {"r"}), Stopping2(PExit, Done(None)))
  {
    ExecOne(s, Go(2));
    StopMoves(BROKEN, BROKEN, Refused, PExit, SDrop(HALTED), Stop(SFinish(HALTED)));
    ExecMore(s, [Go(2)], Go(2));
    TooLate();
    StopMoves(BROKEN, BROKEN, Refused, PExit, SFinish(HALTED), Done(None));
  }

  const OVERTAKEN := CLAIM + [BeginStop(2, "u"), Go(2), Go(2)] + ([Raise(1), Go(1), Go(1)] + [Go(1)])

  lemma Overtaken()
    ensures Exec(Init(true), OVERTAKEN) == State(Place(BROKEN, Refused, {"r"}), Stopping2(PExit, Stop(SDrop(HALTED))))
  {
    var a := CLAIM + [BeginStop(2, "u"), Go(2), Go(2)];
    Claimed();
    ExecCat(Init(true), CLAIM, [BeginStop(2, "u"), Go(2), Go(2)]);
    StopWritten(Exec(Init(true), CLAIM), NotAsked, PCreate(CLAIMED));
    ExecCat(Init(true), a, [Raise(1), Go(1), Go(1)] + [Go(1)]);
    RowEnded(Exec(Init(true), a));
  }

  /** request_stop reaches its last transition with the row in FAILED, and loses it: the row stays FAILED. */
  lemma StopEndsInFailed()
    ensures var s, s' := Exec(Init(true), OVERTAKEN + [Go(2)]), Exec(Init(true), OVERTAKEN + ([Go(2)] + [Go(2)]));
            && 2 in s.threads && s.threads[2] == Stop(SFinish(HALTED)) && s.world.rows == map["r" := BROKEN]
            && 2 in s'.threads && s'.threads[2] == Done(None) && s'.world.rows == map["r" := BROKEN]
            && BROKEN.state == Failed
  {
    Overtaken();
    ExecCat(Init(true), OVERTAKEN, [Go(2)]);
    ExecCat(Init(true), OVERTAKEN, [Go(2)] + [Go(2)]);
    StopEnds(Exec(Init(true), OVERTAKEN));
  }

  // ---------------------------------------------------------------------------------------------
  // A runtime that becomes READY.

  lemma CreateSucceeds()
    ensures ProvStep(Place(CLAIMED, NotAsked, {"r"}), "r", PCreate(CLAIMED), Choice(false)) ==
            (Place(CLAIMED, Created, {"r"}), PRecheck("c"))
  {
    assert multiset{} + multiset{"r"} == multiset{"r"};
    var none: map<string, string> := map[];
    assert none["c" := "r"] == map["c" := "r"];
    assert {} + {"c"} == {"c"};
  }

  lemma Binds()
    ensures ProvStep(Place(CLAIMED, Created, {"r"}), "r", PBind(CLAIMED, "c"), Choice(false)) ==
            (Place(BOUND, Created, {"r"}), PPoll(BOUND, "c"))
  {
    Moves(CLAIMED, Starting, None, Some("c"), None, CLAIMED);
  }

  lemma Provisioned(s: State)
    requires s == State(Place(CLAIMED, NotAsked, {"r"}), With(PCreate(CLAIMED)))
    ensures Exec(s, [Go(1), Go(1), Go(1)]) == State(Place(BOUND, Created, {"r"}), With(PPoll(BOUND, "c")))
  {
    ExecThree(s, Go(1), Go(1), Go(1));
    CreateSucceeds();
    WithMoves(CLAIMED, CLAIMED, NotAsked, Created, PCreate(CLAIMED), PRecheck("c"));
    WithMoves(CLAIMED, CLAIMED, Created, Created, PRecheck("c"), PBind(CLAIMED, "c"));
    Binds();
    WithMoves(CLAIMED, BOUND, Created, Created, PBind(CLAIMED, "c"), PPoll(BOUND, "c"));
  }

  lemma Readies()
    ensures ProvStep(Place(BOUND, Created, {"r"}), "r", PReady(BOUND, "c"), Choice(false)) ==
            (Place(UP, Created, {"r"}), PExit)
  {
    Moves(BOUND, Ready, None, None, None, BOUND);
  }

  lemma Exits(s: State)
    requires s == State(Place(UP, Created, {"r"}), With(PExit))
    ensures Step(s, Go(1)) == State(Place(UP, Created, {}), map[0 := Done(Some(ASKED)), 1 := Done(None)])
  {
    assert {"r"} - {"r"} == {};
    assert With(PExit)[1 := Done(None)] == map[0 := Done(Some(ASKED)), 1 := Done(None)];
  }

  lemma Readied(s: State)
    requires s == State(Place(BOUND, Created, {"r"}), With(PPoll(BOUND, "c")))
    ensures Exec(s, [Go(1), Go(1), Go(1)]) ==
            State(Place(UP, Created, {}), map[0 := Done(Some(ASKED)), 1 := Done(None)])
  {
    ExecThree(s, Go(1), Go(1), Go(1));
    WithMoves(BOUND, BOUND, Created, Created, PPoll(BOUND, "c"), PReady(BOUND, "c"));
    Readies();
    WithMoves(BOUND, UP, Created, Created, PReady(BOUND, "c"), PExit);
    Exits(State(Place(UP, Created, {"r"}), With(PExit)));
  }

  /** A run that ends at rest with a READY row and its live container. */
  lemma RestsReady()
    ensures var s := Exec(Init(true), CLAIM + [Go(1), Go(1), Go(1)] + [Go(1), Go(1), Go(1)]);
            && (forall t :: t in s.threads ==> s.threads[t].Done?)
            && s.world.rows == map["r" := UP] && s.world.live == {"c"} && s.world.provisioning == {}
  {
    var a := CLAIM + [Go(1), Go(1), Go(1)];
    Claimed();
    ExecCat(Init(true), CLAIM, [Go(1), Go(1), Go(1)]);
    Provisioned(Exec(Init(true), CLAIM));
    ExecCat(Init(true), a, [Go(1), Go(1), Go(1)]);
    Readied(Exec(Init(true), a));
  }

  // ---------------------------------------------------------------------------------------------
  // A stop that ends before the provisioning thread has noticed it.

  const GONE := HALTED.(state := Stopped)

  lemma StopFinishes(s: State)
    requires s == State(Place(HALTED, Created, {"r"}), Stopping2(PRecheck("c"), Stop(SDrop(HALTED))))
    ensures Exec(s, [Go(2)] + [Go(2)]) ==
            State(Place(GONE, Created, {"r"}), Stopping2(PRecheck("c"), Done(Some(GONE))))
  {
    ExecOne(s, Go(2));
    ExecMore(s, [Go(2)], Go(2));
    StopMoves(HALTED, HALTED, Created, PRecheck("c"), SDrop(HALTED), Stop(SFinish(HALTED)));
    Moves(HALTED, Stopped, None, None, None, HALTED);
    StopMoves(HALTED, GONE, Created, PRecheck("c"), SFinish(HALTED), Done(Some(GONE)));
  }

  /** request_stop has answered with a STOPPED row while a container made for that runtime is still alive: its
      provisioning thread holds it. */
  lemma StoppedWhileHeld()
    ensures var s := Exec(Init(true), CLAIM + [Go(1)] + [BeginStop(2, "u"), Go(2), Go(2)] + ([Go(2)] + [Go(2)]));
            && s.threads == Stopping2(PRecheck("c"), Done(Some(GONE)))
            && s.world.rows == map["r" := GONE] && GONE.state == Stopped && s.world.live == {"c"}
  {
    var a := CLAIM + [Go(1)];
    var b := a + [BeginStop(2, "u"), Go(2), Go(2)];
    Claimed();
    ExecMore(Init(true), CLAIM, Go(1));
    CreateSucceeds();
    WithMoves(CLAIMED, CLAIMED, NotAsked, Created, PCreate(CLAIMED), PRecheck("c"));
    ExecCat(Init(true), a, [BeginStop(2, "u"), Go(2), Go(2)]);
    StopWritten(Exec(Init(true), a), Created, PRecheck("c"));
    ExecCat(Init(true), b, [Go(2)] + [Go(2)]);
    StopFinishes(Exec(Init(true), b));
  }
}
