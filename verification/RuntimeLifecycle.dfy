/** The runtime service as a transition system (runtime-service/app/service.py).

    Request threads run `ensure_user_runtime` and `request_stop`; provisioning threads run `_provision`.
    Every database call and every call of the provider is one atomic step, and any thread may take the
    next step. A database call and `provider.create`, `provider.inspect` may raise at any time;
    `provider.terminate` succeeds and is idempotent. */
module RuntimeLifecycle {
  import opened Common
  import opened RuntimeTable

  // ---------------------------------------------------------------------------------------------
  // State.

  /** What the threads share. `live` holds the containers created and not yet terminated. `made` and
      `attempts` are history: the runtime each container was created for, and every call of
      `provider.create`. */
  datatype World = World(
    rows: Table,
    live: set<string>,
    made: map<string, string>,
    attempts: multiset<string>,
    provisioning: set<string>,
    hasProvider: bool)

  /** Program points of ensure_user_runtime and _start_provision. */
  datatype EnsurePc =
    | EFind(user: string, profile: string)
    | EInsert(draft: Row)
    | ERefind(user: string)
    | ELock(mine: Row)
    | ESpawn(mine: Row)

  /** Program points of _provision; the H points are its `except Exception` handler. */
  datatype ProvPc =
    | PGet
    | PClaim(snap: Row)
    | PCreate(snap: Row)
    | PRecheck(ref: string)
    | PDrop(current: Option<Row>, ref: string)
    | PMarkStopped(snap: Row, ref: string)
    | PBind(snap: Row, ref: string)
    | PPoll(snap: Row, ref: string)
    | PReady(snap: Row, ref: string)
    | PAbort(ref: string)
    | HDrop(held: Option<string>)
    | HGet
    | HFail(snap: Row)
    | PExit

  /** Program points of request_stop; `lost` is history: the runtimes on which a compare-and-set of its
      retry loop failed. */
  datatype StopPc =
    | SFind(user: string, lost: multiset<string>)
    | SWrite(snap: Row, lost: multiset<string>)
    | SDrop(snap: Row)
    | SFinish(snap: Row)

  datatype Pc =
    | Ensure(e: EnsurePc)
    | Prov(id: string, p: ProvPc)
    | Stop(s: StopPc)
    | Done(result: Option<Row>)

  datatype State = State(world: World, threads: map<nat, Pc>)

  /** The environment's choices for one step: the clock, a new uuid, a new container id, the number of a
      spawned thread, whether the call raises, and what `inspect` reports. */
  datatype Env = Env(now: int, uuid: string, container: string, spawn: nat, raises: bool,
                     ready: bool, running: bool, expired: bool, reason: string)

  datatype Action =
    | BeginEnsure(thread: nat, user: string, profile: string)
    | BeginStop(thread: nat, user: string)
    | Advance(thread: nat, env: Env)

  // ---------------------------------------------------------------------------------------------
  // Steps.

  function Terminate(w: World, ref: Option<string>): World {
    if ref.Some? then w.(live := w.live - {ref.value}) else w
  }

  ghost function EnsureStep(w: World, p: EnsurePc, e: Env): (World, Pc) {
    match p
    case EFind(user, profile) =>
      if e.raises then (w, Done(None))
      else (match FindActive(w.rows, user)
            case Some(row) =>
              (w, if w.hasProvider && row.state == Requested then Ensure(ELock(row)) else Done(Some(row)))
            case None =>
              (w, Ensure(EInsert(Row(e.uuid, user, profile, Requested, WantRunning, "unassigned", None,
                                     e.now, e.now, e.now, None)))))
    case EInsert(draft) =>
      if e.raises then (w, Done(None))
      else (match Insert(w.rows, draft)
            case None => (w, Ensure(ERefind(draft.owner)))
            case Some(rows) =>
              (w.(rows := rows), if w.hasProvider then Ensure(ELock(draft)) else Done(Some(draft))))
    case ERefind(user) =>
      (w, Done(if e.raises then None else FindActive(w.rows, user)))
    case ELock(mine) =>
      if mine.id in w.provisioning then (w, Done(Some(mine)))
      else (w.(provisioning := w.provisioning + {mine.id}), Ensure(ESpawn(mine)))
    case ESpawn(mine) => (w, Done(Some(mine)))
  }

  function ProvStep(w: World, id: string, p: ProvPc, e: Env): (World, ProvPc) {
    match p
    case PGet =>
      if e.raises || id !in w.rows || !w.hasProvider || w.rows[id].state != Requested then (w, PExit)
      else (w, PClaim(w.rows[id]))
    case PClaim(snap) =>
      if e.raises then (w, HDrop(None))
      else (match Transition(w.rows, snap, Provisioning, Some("docker"), None, None, e.now)
            case Moved(rows, row) => (w.(rows := rows), PCreate(row))
            case Concurrent => (w, PExit)
            case _ => (w, HDrop(None)))
    case PCreate(snap) =>
      var called := w.(attempts := w.attempts + multiset{id});
      if e.raises || e.container in w.made then (called, HDrop(None))
      else (called.(live := w.live + {e.container}, made := w.made[e.container := id]), PRecheck(e.container))
    case PRecheck(ref) =>
      if e.raises then (w, HDrop(Some(ref)))
      else if id !in w.rows then (w, PDrop(None, ref))
      else if w.rows[id].state != Provisioning || w.rows[id].desired != WantRunning then
        (w, PDrop(Some(w.rows[id]), ref))
      else (w, PBind(w.rows[id], ref))
    case PDrop(current, ref) =>
      (Terminate(w, Some(ref)),
       if current.Some? && current.value.state == Stopping then PMarkStopped(current.value, ref) else PExit)
    case PMarkStopped(snap, ref) =>
      if e.raises then (w, HDrop(Some(ref)))
      else Settle(w, Transition(w.rows, snap, Stopped, None, None, None, e.now), ref)
    case PBind(snap, ref) =>
      if e.raises then (w, HDrop(Some(ref)))
      else (match Transition(w.rows, snap, Starting, None, Some(ref), None, e.now)
            case Moved(rows, row) => (w.(rows := rows), PPoll(row, ref))
            case Concurrent => (w, PAbort(ref))
            case _ => (w, HDrop(Some(ref))))
    case PPoll(snap, ref) =>
      if e.expired || e.raises then (w, HDrop(Some(ref)))
      else if e.ready then (w, PReady(snap, ref))
      else if !e.running then (w, HDrop(Some(ref)))
      else (w, p)
    case PReady(snap, ref) =>
      if e.raises then (w, HDrop(Some(ref)))
      else Settle(w, Transition(w.rows, snap, Ready, None, None, None, e.now), ref)
    case PAbort(ref) => (Terminate(w, Some(ref)), PExit)
    case HDrop(held) => (Terminate(w, held), HGet)
    case HGet =>
      if e.raises || id !in w.rows || w.rows[id].state in {Failed, Stopped} then (w, PExit)
      else (w, HFail(w.rows[id]))
    case HFail(snap) =>
      if e.raises then (w, PExit)
      else (match Transition(w.rows, snap, Failed, None, None, Some(e.reason), e.now)
            case Moved(rows, _) => (w.(rows := rows), PExit)
            case _ => (w, PExit))
    case PExit => (w.(provisioning := w.provisioning - {id}), PExit)
  }

  /** The last transition of a provisioning thread: done when it succeeds, otherwise the container goes. */
  function Settle(w: World, r: TransitionResult, ref: string): (World, ProvPc) {
    match r
    case Moved(rows, _) => (w.(rows := rows), PExit)
    case Concurrent => (w, PAbort(ref))
    case _ => (w, HDrop(Some(ref)))
  }

  ghost function StopStep(w: World, s: StopPc, e: Env): (World, Pc) {
    match s
    case SFind(user, lost) =>
      if e.raises then (w, Done(None))
      else (match FindActive(w.rows, user)
            case None => (w, Done(None))
            case Some(row) =>
              (w, if row.state != Stopping then Stop(SWrite(row.(desired := WantStopped), lost))
                  else if w.hasProvider then Stop(SDrop(row)) else Done(Some(row))))
    case SWrite(snap, lost) =>
      if e.raises then (w, Done(None))
      else (match Transition(w.rows, snap, Stopping, None, None, None, e.now)
            case Moved(rows, row) =>
              (w.(rows := rows), if w.hasProvider then Stop(SDrop(row)) else Done(Some(row)))
            case Concurrent => (w, Stop(SFind(snap.owner, lost + multiset{snap.id})))
            case _ => (w, Done(None)))
    case SDrop(snap) => (Terminate(w, snap.ref), Stop(SFinish(snap)))
    case SFinish(snap) =>
      if e.raises then (w, Done(None))
      else (match Transition(w.rows, snap, Stopped, None, None, None, e.now)
            case Moved(rows, row) => (w.(rows := rows), Done(Some(row)))
            case _ => (w, Done(None)))
  }

  /** One step. A disabled action leaves the state alone. */
  ghost function Step(s: State, a: Action): State {
    match a
    case BeginEnsure(t, user, profile) =>
      if t in s.threads then s else s.(threads := s.threads[t := Ensure(EFind(user, profile))])
    case BeginStop(t, user) =>
      if t in s.threads then s else s.(threads := s.threads[t := Stop(SFind(user, multiset{}))])
    case Advance(t, e) =>
      if t !in s.threads then s
      else match s.threads[t]
           case Ensure(p) =>
             if p.ESpawn? && e.spawn in s.threads then s
             else
               var (world, pc) := EnsureStep(s.world, p, e);
               var threads := if p.ESpawn? then s.threads[e.spawn := Prov(p.mine.id, PGet)] else s.threads;
               State(world, threads[t := pc])
           case Prov(id, p) =>
             var (world, q) := ProvStep(s.world, id, p, e);
             State(world, s.threads[t := if p.PExit? then Done(None) else Prov(id, q)])
           case Stop(p) =>
             var (world, pc) := StopStep(s.world, p, e);
             State(world, s.threads[t := pc])
           case Done(_) => s
  }

  /** A run: the state after a list of actions. */
  ghost function Exec(s: State, actions: seq<Action>): State
    decreases |actions|
  {
    if actions == [] then s else Step(Exec(s, actions[..|actions| - 1]), actions[|actions| - 1])
  }

  function Init(hasProvider: bool): State {
    State(World(map[], {}, map[], multiset{}, {}, hasProvider), map[])
  }

  // ---------------------------------------------------------------------------------------------
  // Invariant.

  ghost predicate RowOk(w: World, id: string)
    requires id in w.rows
  {
    var row := w.rows[id];
    && row.id == id
    && row.state != Queued
    && (row.state in {Requested, Provisioning, Starting, Ready} ==> row.desired == WantRunning)
    && (row.state in {Requested, Provisioning} ==> row.ref == None)
    && (row.state in {Starting, Ready} ==> row.ref.Some?)
    && (row.ref.Some? ==> row.ref.value in w.made && w.made[row.ref.value] == id)
    && (row.state == Ready ==> row.ref.value in w.live)
    && (row.state in {Failed, Stopped} && row.ref.Some? ==> row.ref.value !in w.live)
    && (row.state == Requested ==> w.attempts[id] == 0)
  }

  ghost predicate OneActive(rows: Table) {
    forall a, b | a in rows && b in rows && rows[a].owner == rows[b].owner ::
      Active(rows[a].state) && Active(rows[b].state) ==> a == b
  }

  ghost predicate ContainersOk(w: World) {
    && w.live <= w.made.Keys
    && (forall c :: c in w.made ==> w.made[c] in w.rows && w.attempts[w.made[c]] == 1)
    && (forall c, d :: c in w.made && d in w.made && w.made[c] == w.made[d] ==> c == d)
    && (forall id :: id in w.attempts ==> id in w.rows && w.attempts[id] == 1)
  }

  ghost predicate WorldOk(w: World) {
    && (forall id :: id in w.rows ==> RowOk(w, id))
    && OneActive(w.rows)
    && ContainersOk(w)
    && (!w.hasProvider ==> w.made == map[])
  }

  /** A snapshot is never ahead of its row, and agrees with it on every field while the states agree. */
  ghost predicate SnapOk(rows: Table, snap: Row) {
    && snap.id in rows
    && var row := rows[snap.id];
    && row.owner == snap.owner && row.createdAt == snap.createdAt
    && Rank(row.state) <= Rank(snap.state)
    && (row.state == snap.state ==> row == snap)
    && (snap.ref.Some? ==> row.ref == snap.ref)
  }

  ghost predicate Owns(w: World, id: string, ref: string) {
    ref in w.made && w.made[ref] == id
  }

  ghost predicate NothingLive(w: World, id: string) {
    forall c :: c in w.live && c in w.made ==> w.made[c] != id
  }

  /** The runtime has no container bound to its row, and cannot get one from anybody else. */
  ghost predicate NotUp(w: World, id: string) {
    && id in w.rows
    && w.rows[id].state in {Provisioning, Stopping, Failed, Stopped}
    && w.rows[id].ref == None
  }

  ghost predicate Ended(w: World, id: string) {
    id in w.rows && w.rows[id].state in {Stopping, Failed, Stopped}
  }

  ghost predicate Polling(w: World, id: string, snap: Row, ref: string) {
    && Owns(w, id, ref) && snap.id == id && SnapOk(w.rows, snap)
    && snap.state == Starting && snap.ref == Some(ref)
    && w.rows[id].state in {Starting, Stopping, Failed, Stopped}
    && (w.rows[id].state == Starting ==> ref in w.live)
  }

  ghost predicate ProvOk(w: World, id: string, p: ProvPc) {
    && id in w.rows
    && match p
       case PGet => true
       case PClaim(snap) =>
         && w.hasProvider
         && snap.id == id && SnapOk(w.rows, snap) && snap.state == Requested
         && w.attempts[id] == 0 && w.rows[id].state in {Requested, Stopping, Failed, Stopped}
       case PCreate(snap) => w.hasProvider && NotUp(w, id) && w.attempts[id] == 0
       case PRecheck(ref) => Owns(w, id, ref) && NotUp(w, id) && ref in w.live
       case PDrop(current, ref) =>
         && Owns(w, id, ref) && NotUp(w, id)
         && (current.Some? ==> current.value.id == id && SnapOk(w.rows, current.value))
       case PMarkStopped(snap, ref) =>
         && Owns(w, id, ref) && NotUp(w, id) && snap.id == id && SnapOk(w.rows, snap)
         && snap.state == Stopping
       case PBind(snap, ref) =>
         && Owns(w, id, ref) && NotUp(w, id) && snap.id == id && SnapOk(w.rows, snap)
         && snap.state == Provisioning && ref in w.live
       case PPoll(snap, ref) => Polling(w, id, snap, ref)
       case PReady(snap, ref) => Polling(w, id, snap, ref)
       case PAbort(ref) => Owns(w, id, ref) && Ended(w, id)
       case HDrop(held) =>
         && w.rows[id].state != Ready
         && (if held.Some? then Owns(w, id, held.value) else NothingLive(w, id))
       case HGet => w.rows[id].state != Ready && NothingLive(w, id)
       case HFail(snap) =>
         && w.rows[id].state != Ready && NothingLive(w, id)
         && snap.id == id && SnapOk(w.rows, snap) && snap.state !in {Failed, Stopped}
       case PExit => true
  }

  /** Every lost compare-and-set of request_stop is paid for by a drop of its row's rank. */
  ghost predicate LostOk(w: World, user: string, lost: multiset<string>) {
    forall id :: id in lost ==>
      && id in w.rows && w.rows[id].owner == user
      && lost[id] + Rank(w.rows[id].state) <= 6
      && lost[id] <= 4
  }

  ghost predicate StopOk(w: World, s: StopPc) {
    match s
    case SFind(user, lost) => LostOk(w, user, lost)
    case SWrite(snap, lost) =>
      && snap.desired == WantStopped
      && SnapOk(w.rows, snap.(desired := WantRunning))
      && Active(snap.state) && snap.state != Stopping
      && LostOk(w, snap.owner, lost) && lost[snap.id] + Rank(snap.state) <= 6
    case SDrop(snap) => SnapOk(w.rows, snap) && snap.state == Stopping && Ended(w, snap.id)
    case SFinish(snap) =>
      && SnapOk(w.rows, snap) && snap.state == Stopping && Ended(w, snap.id)
      && (snap.ref.Some? ==> snap.ref.value in w.made && snap.ref.value !in w.live)
  }

  ghost predicate EnsureOk(w: World, p: EnsurePc) {
    match p
    case EFind(_, _) => true
    case EInsert(draft) =>
      draft.state == Requested && draft.desired == WantRunning && draft.ref == None
    case ERefind(_) => true
    case ELock(mine) => mine.id in w.rows && mine.owner == w.rows[mine.id].owner
    case ESpawn(mine) => mine.id in w.rows && mine.owner == w.rows[mine.id].owner
  }

  ghost predicate ThreadOk(w: World, pc: Pc) {
    match pc
    case Ensure(p) => EnsureOk(w, p)
    case Prov(id, p) => ProvOk(w, id, p)
    case Stop(s) => StopOk(w, s)
    case Done(_) => true
  }

  /** The runtime id a thread has entered in `_provisioning_ids`. */
  function Claim(pc: Pc): Option<string> {
    match pc
    case Ensure(ESpawn(mine)) => Some(mine.id)
    case Prov(id, _) => Some(id)
    case _ => None
  }

  ghost predicate Exclusive(s: State) {
    && (forall t, u | t in s.threads && u in s.threads && t != u ::
          Claim(s.threads[t]) == Claim(s.threads[u]) ==> Claim(s.threads[t]).None?)
    && (forall t :: t in s.threads && Claim(s.threads[t]).Some? ==> Claim(s.threads[t]).value in s.world.provisioning)
    && (forall id :: id in s.world.provisioning ==> exists t :: t in s.threads && Claim(s.threads[t]) == Some(id))
  }

  /** The container a thread is still going to deal with. */
  function Holding(pc: Pc): Option<string> {
    match pc
    case Prov(_, p) => HeldBy(p)
    case Stop(SDrop(snap)) => snap.ref
    case _ => None
  }

  function HeldBy(p: ProvPc): Option<string> {
    match p
    case PRecheck(ref) => Some(ref)
    case PDrop(_, ref) => Some(ref)
    case PBind(_, ref) => Some(ref)
    case PPoll(_, ref) => Some(ref)
    case PReady(_, ref) => Some(ref)
    case PAbort(ref) => Some(ref)
    case HDrop(held) => held
    case _ => None
  }

  ghost predicate Serving(w: World, c: string) {
    c in w.made && w.made[c] in w.rows && w.rows[w.made[c]].state == Ready && w.rows[w.made[c]].ref == Some(c)
  }

  ghost predicate Accounted(s: State, c: string) {
    Serving(s.world, c) || exists t :: t in s.threads && Holding(s.threads[t]) == Some(c)
  }

  ghost predicate Inv(s: State) {
    && WorldOk(s.world)
    && (forall t :: t in s.threads ==> ThreadOk(s.world, s.threads[t]))
    && Exclusive(s)
    && (forall c :: c in s.world.live ==> Accounted(s, c))
  }
}
