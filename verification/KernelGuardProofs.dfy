/** The guard table over whole runs: reference counts are exact, guards exclude each other, and kernel
    creations are separated by removals. */
module KernelGuardProofs {
  import opened Common
  import opened Json
  import opened KernelGuard

  /** Moving one task changes a guard's referrers by that task alone. */
  lemma CountMove(tasks: map<nat, Pc>, t: nat, pc: Pc, g: nat)
    ensures |Referrers(tasks[t := pc], g)| ==
            |Referrers(tasks, g)| + (if Refers(pc) == Some(g) then 1 else 0)
                                  - (if t in tasks && Refers(tasks[t]) == Some(g) then 1 else 0)
  {
    var others := Referrers(tasks, g) - {t};
    assert Referrers(tasks[t := pc], g) == if Refers(pc) == Some(g) then others + {t} else others;
    assert t in Referrers(tasks, g) <==> t in tasks && Refers(tasks[t]) == Some(g);
  }

  /** A task that keeps its reference and touches no count. */
  lemma TableKept(s: State, s': State, t: nat)
    requires TableOk(s) && t in s'.tasks && s'.tasks == s.tasks[t := s'.tasks[t]]
    requires Refers(s'.tasks[t]) == if t in s.tasks then Refers(s.tasks[t]) else None
    requires s'.entries == s.entries && s'.guards.Keys == s.guards.Keys
    requires forall g :: g in s.guards ==> s'.guards[g].references == s.guards[g].references
    ensures TableOk(s')
  {
    forall g | g in s'.guards
      ensures s'.guards[g].references == |Referrers(s'.tasks, g)|
    {
      CountMove(s.tasks, t, s'.tasks[t], g);
    }
  }

  lemma TasksKept(s: State, s': State, t: nat)
    requires TasksOk(s) && t in s'.tasks && s'.tasks == s.tasks[t := s'.tasks[t]]
    requires Refers(s'.tasks[t]) == if t in s.tasks then Refers(s.tasks[t]) else None
    requires Refers(s'.tasks[t]).Some? ==> s'.tasks[t].key == s.tasks[t].key
    requires s'.entries == s.entries && s'.guards.Keys == s.guards.Keys
    ensures TasksOk(s')
  {
    forall u | u in s'.tasks && Refers(s'.tasks[u]).Some?
      ensures s'.tasks[u].key in s'.entries && s'.entries[s'.tasks[u].key] == s'.tasks[u].guard
              && s'.tasks[u].guard in s'.guards
    {
      assert u in s.tasks && Refers(s.tasks[u]) == Refers(s'.tasks[u]);
    }
  }

  /** A step that only moves task `t`, possibly locking or unlocking its guard. */
  lemma MoveInv(s: State, s': State, t: nat)
    requires Inv(s) && t in s'.tasks && s'.tasks == s.tasks[t := s'.tasks[t]]
    requires Refers(s'.tasks[t]) == if t in s.tasks then Refers(s.tasks[t]) else None
    requires Refers(s'.tasks[t]).Some? ==> s'.tasks[t].key == s.tasks[t].key
    requires s'.entries == s.entries && s'.guards.Keys == s.guards.Keys
    requires forall g :: g in s.guards ==> s'.guards[g].references == s.guards[g].references
    requires s'.kernels == Replay(s'.log) && LogOk(s'.log)
    requires LocksOk(s') && CreationsOk(s')
    ensures Inv(s')
  {
    TableKept(s, s', t);
    TasksKept(s, s', t);
  }

  /** The lock of guard `g` changes hands with task `t`. */
  lemma LocksMoved(s: State, s': State, t: nat, g: nat)
    requires LocksOk(s) && t in s.tasks && Refers(s.tasks[t]) == Some(g) && g in s.guards
    requires t in s'.tasks && s'.tasks == s.tasks[t := s'.tasks[t]] && Refers(s'.tasks[t]) == Some(g)
    requires g in s'.guards && s'.guards == s.guards[g := s'.guards[g]]
    requires s'.guards[g].locked == if Inside(s.tasks[t]) then Inside(s'.tasks[t])
                                    else s.guards[g].locked || Inside(s'.tasks[t])
    requires Inside(s'.tasks[t]) && !Inside(s.tasks[t]) ==> !s.guards[g].locked
    ensures LocksOk(s')
  {
    forall h | h in s'.guards && s'.guards[h].locked
      ensures exists u :: u in s'.tasks && Inside(s'.tasks[u]) && s'.tasks[u].guard == h
    {
      if h == g && Inside(s'.tasks[t]) {
        assert t in s'.tasks && Inside(s'.tasks[t]) && s'.tasks[t].guard == h;
      } else {
        var u :| u in s.tasks && Inside(s.tasks[u]) && s.tasks[u].guard == h;
        assert u in s'.tasks && Inside(s'.tasks[u]) && s'.tasks[u].guard == h;
      }
    }
  }

  /** A task outside every lock comes or goes. */
  lemma LocksKept(s: State, s': State, t: nat)
    requires LocksOk(s) && (t in s.tasks ==> !Inside(s.tasks[t]))
    requires t in s'.tasks && s'.tasks == s.tasks[t := s'.tasks[t]] && !Inside(s'.tasks[t])
    requires s.guards.Keys <= s'.guards.Keys
    requires forall g :: g in s.guards ==> s'.guards[g].locked == s.guards[g].locked
    requires forall g :: g in s'.guards && g !in s.guards ==> !s'.guards[g].locked
    ensures LocksOk(s')
  {
    forall g | g in s'.guards && s'.guards[g].locked
      ensures exists u :: u in s'.tasks && Inside(s'.tasks[u]) && s'.tasks[u].guard == g
    {
      var u :| u in s.tasks && Inside(s.tasks[u]) && s.tasks[u].guard == g;
      assert u in s'.tasks && Inside(s'.tasks[u]) && s'.tasks[u].guard == g;
    }
  }

  lemma CreationsKept(s: State, s': State, t: nat)
    requires CreationsOk(s) && s'.kernels == s.kernels
    requires t in s'.tasks && s'.tasks == s.tasks[t := s'.tasks[t]] && !s'.tasks[t].Create?
    ensures CreationsOk(s')
  {
  }

  // ---------------------------------------------------------------------------------------------
  // The steps.

  lemma EnterTable(s: State, s': State, t: nat, key: Key, g: nat, guard: Guard)
    requires TableOk(s) && (t in s.tasks ==> Refers(s.tasks[t]).None?)
    requires g == Entry(s.entries, key, g) && (key !in s.entries ==> g !in s.guards)
    requires guard.references == if g in s.guards then s.guards[g].references + 1 else 1
    requires forall u :: u in s.tasks && Refers(s.tasks[u]).Some? ==> s.tasks[u].guard in s.guards
    requires s' == Goto(s.(entries := s.entries[key := g], guards := s.guards[g := guard]), t, Wait(key, g))
    ensures TableOk(s')
  {
    if g !in s.guards {
      assert Referrers(s.tasks, g) == {};
    }
    forall h | h in s'.guards
      ensures s'.guards[h].references == |Referrers(s'.tasks, h)|
    {
      CountMove(s.tasks, t, Wait(key, g), h);
    }
  }

  lemma EnterTasks(s: State, s': State, t: nat, key: Key, g: nat)
    requires TasksOk(s) && EntriesDistinct(s) && t in s.tasks && s.tasks[t] == Enter(key)
    requires key in s.entries ==> s.entries[key] == g
    requires s'.entries == s.entries[key := g] && g in s'.guards && s.guards.Keys <= s'.guards.Keys
    requires s'.tasks == s.tasks[t := Wait(key, g)]
    ensures TasksOk(s')
  {
  }

  lemma EnterDistinct(s: State, s': State, key: Key, g: nat)
    requires TableOk(s) && EntriesDistinct(s) && s'.entries == s.entries[key := g]
    requires if key in s.entries then s.entries[key] == g else g !in s.guards
    ensures EntriesDistinct(s')
  {
  }

  lemma EnterLocks(s: State, s': State, t: nat, key: Key, g: nat, guard: Guard)
    requires LocksOk(s) && CreationsOk(s) && t in s.tasks && s.tasks[t] == Enter(key)
    requires if g in s.guards then guard.locked == s.guards[g].locked else !guard.locked
    requires s'.tasks == s.tasks[t := Wait(key, g)] && s'.guards == s.guards[g := guard] && s'.kernels == s.kernels
    ensures LocksOk(s') && CreationsOk(s')
  {
    LocksKept(s, s', t);
    CreationsKept(s, s', t);
  }

  lemma EnteredInv(s: State, s': State, t: nat, key: Key, g: nat, guard: Guard)
    requires Inv(s) && t in s.tasks && s.tasks[t] == Enter(key)
    requires g == Entry(s.entries, key, g) && (key !in s.entries ==> g !in s.guards)
    requires guard == if g in s.guards then s.guards[g].(references := s.guards[g].references + 1) else Guard(false, 1)
    requires s' == Goto(s.(entries := s.entries[key := g], guards := s.guards[g := guard]), t, Wait(key, g))
    ensures Inv(s')
  {
    EnterTable(s, s', t, key, g, guard);
    EnterTasks(s, s', t, key, g);
    EnterDistinct(s, s', key, g);
    EnterLocks(s, s', t, key, g, guard);
  }

  lemma EnterInv(s: State, t: nat, key: Key, e: Env)
    requires Inv(s) && t in s.tasks && s.tasks[t] == Enter(key)
    ensures Inv(TaskStep(s, t, Enter(key), e))
  {
    var s' := TaskStep(s, t, Enter(key), e);
    if e.cancelled {
      LocksKept(s, s', t);
      MoveInv(s, s', t);
    } else if key in s.entries || e.created !in s.guards {
      var g := Entry(s.entries, key, e.created);
      EnteredInv(s, s', t, key, g, s'.guards[g]);
    }
  }

  lemma DropTable(s: State, s': State, t: nat, key: Key, g: nat, left: int)
    requires TableOk(s) && EntriesDistinct(s) && t in s.tasks && Refers(s.tasks[t]) == Some(g)
    requires g in s.guards && key in s.entries && s.entries[key] == g && left == s.guards[g].references - 1
    requires s' == Goto(s.(guards := s.guards[g := s.guards[g].(references := left)],
                           entries := if left == 0 then s.entries - {key} else s.entries), t, Done)
    ensures TableOk(s')
  {
    forall h | h in s'.guards
      ensures s'.guards[h].references == |Referrers(s'.tasks, h)|
    {
      CountMove(s.tasks, t, Done, h);
    }
    forall k | k in s'.entries
      ensures s'.entries[k] in s'.guards && s'.guards[s'.entries[k]].references > 0
    {
      assert k == key ==> left >= 0;
    }
  }

  /** Nobody else refers to a guard whose last reference is dropped, so its entry can go. */
  lemma DropTasks(s: State, s': State, t: nat, key: Key, g: nat)
    requires TableOk(s') && TasksOk(s) && t in s.tasks
    requires s'.tasks == s.tasks[t := Done] && s'.guards.Keys == s.guards.Keys && g in s'.guards
    requires key in s.entries && s.entries[key] == g
    requires s'.entries == if s'.guards[g].references == 0 then s.entries - {key} else s.entries
    ensures TasksOk(s')
  {
    forall u | u in s'.tasks && Refers(s'.tasks[u]).Some?
      ensures s'.tasks[u].key in s'.entries && s'.entries[s'.tasks[u].key] == s'.tasks[u].guard
    {
      if s'.tasks[u].guard == g {
        assert u in Referrers(s'.tasks, g);
      }
    }
  }

  lemma DropDistinct(s: State, s': State, key: Key)
    requires EntriesDistinct(s) && (s'.entries == s.entries || s'.entries == s.entries - {key})
    ensures EntriesDistinct(s')
  {
  }

  /** While a reference is held the guard is the table's entry, so both paths pop the same entry. */
  lemma DropIs(s: State, t: nat, key: Key, g: nat, checked: bool)
    requires g in s.guards && key in s.entries && s.entries[key] == g
    ensures Goto(Drop(s, key, g, checked), t, Done) == Dropped(s, t, key, g)
  {
  }

  function Dropped(s: State, t: nat, key: Key, g: nat): State
    requires g in s.guards
  {
    var left := s.guards[g].references - 1;
    Goto(s.(guards := s.guards[g := s.guards[g].(references := left)],
            entries := if left == 0 then s.entries - {key} else s.entries), t, Done)
  }

  lemma DroppedInv(s: State, s': State, t: nat, key: Key, g: nat)
    requires Inv(s) && t in s.tasks && Refers(s.tasks[t]) == Some(g) && s.tasks[t].key == key && !Inside(s.tasks[t])
    requires g in s.guards && key in s.entries && s.entries[key] == g && s' == Dropped(s, t, key, g)
    ensures Inv(s')
  {
    DropTable(s, s', t, key, g, s.guards[g].references - 1);
    DropTasks(s, s', t, key, g);
    DropDistinct(s, s', key);
    CreationsKept(s, s', t);
    LocksKept(s, s', t);
  }

  lemma DropInv(s: State, t: nat, key: Key, g: nat, checked: bool)
    requires Inv(s) && t in s.tasks && (s.tasks[t] == GiveUp(key, g) || s.tasks[t] == Leave(key, g))
    ensures Inv(Goto(Drop(s, key, g, checked), t, Done))
  {
    DropIs(s, t, key, g, checked);
    DroppedInv(s, Dropped(s, t, key, g), t, key, g);
  }

  lemma WaitInv(s: State, t: nat, key: Key, g: nat, e: Env)
    requires Inv(s) && t in s.tasks && s.tasks[t] == Wait(key, g)
    ensures Inv(TaskStep(s, t, Wait(key, g), e))
  {
    var s' := TaskStep(s, t, Wait(key, g), e);
    if e.cancelled {
      LocksKept(s, s', t);
      MoveInv(s, s', t);
    } else if !s.guards[g].locked {
      LocksMoved(s, s', t, g);
      MoveInv(s, s', t);
    }
  }

  /** Where a task goes from the check. */
  function CheckNext(kernels: map<Key, Json>, key: Key, g: nat): Pc {
    if Absent(kernels, key) then Create(key, g)
    else if key in kernels && kernels[key].Obj? then Unlock(key, g)
    else Dead(key, g)
  }

  lemma CheckIs(s: State, t: nat, key: Key, g: nat, e: Env)
    ensures TaskStep(s, t, Check(key, g), e) == Goto(s, t, CheckNext(s.kernels, key, g))
  {
  }

  lemma CheckInv(s: State, t: nat, key: Key, g: nat, e: Env)
    requires Inv(s) && t in s.tasks && s.tasks[t] == Check(key, g)
    ensures Inv(TaskStep(s, t, Check(key, g), e))
  {
    CheckIs(s, t, key, g, e);
    CheckedInv(s, t, key, g, CheckNext(s.kernels, key, g));
  }

  lemma CheckedCreations(s: State, s': State, t: nat, key: Key, pc: Pc)
    requires CreationsOk(s) && s'.kernels == s.kernels && s'.tasks == s.tasks[t := pc]
    requires pc.Create? ==> Absent(s.kernels, pc.key)
    ensures CreationsOk(s')
  {
  }

  lemma CheckedInv(s: State, t: nat, key: Key, g: nat, pc: Pc)
    requires Inv(s) && t in s.tasks && s.tasks[t] == Check(key, g) && pc == CheckNext(s.kernels, key, g)
    ensures Inv(Goto(s, t, pc))
  {
    LocksMoved(s, Goto(s, t, pc), t, g);
    CheckedCreations(s, Goto(s, t, pc), t, key, pc);
    MoveInv(s, Goto(s, t, pc), t);
  }

  lemma ReplayAppend(log: seq<Event>, e: Event)
    ensures Replay(log + [e]) == Apply(Replay(log), e)
  {
    assert (log + [e])[..|log|] == log;
  }

  lemma LogAppend(log: seq<Event>, e: Event)
    requires LogOk(log) && EventOk(Replay(log), e)
    ensures LogOk(log + [e])
  {
    forall j | 0 <= j < |log + [e]|
      ensures EventOk(Replay((log + [e])[..j]), (log + [e])[j])
    {
      assert (log + [e])[..j] == log[..j];
      assert log[..|log|] == log;
    }
  }

  /** Two tasks at one key share the guard, so a task inside it is alone there. */
  lemma AloneInside(s: State, t: nat, u: nat)
    requires Inv(s) && t in s.tasks && u in s.tasks && Inside(s.tasks[t]) && Inside(s.tasks[u])
    requires s.tasks[t].key == s.tasks[u].key
    ensures t == u
  {
  }

  lemma RecordCreations(s: State, s': State, t: nat, key: Key, kernel: Json)
    requires Inv(s) && t in s.tasks && s.tasks[t].Create? && s.tasks[t].key == key
    requires s'.kernels == s.kernels[key := kernel]
    requires t in s'.tasks && s'.tasks == s.tasks[t := s'.tasks[t]] && !s'.tasks[t].Create?
    ensures CreationsOk(s')
  {
    forall u | u in s'.tasks && s'.tasks[u].Create?
      ensures Absent(s'.kernels, s'.tasks[u].key)
    {
      if s.tasks[u].key == key {
        AloneInside(s, t, u);
      }
    }
  }

  lemma RecordInv(s: State, t: nat, key: Key, g: nat, kernel: Json)
    requires Inv(s) && t in s.tasks && s.tasks[t] == Create(key, g)
    ensures Inv(Goto(s.(kernels := s.kernels[key := kernel], log := s.log + [Recorded(key, kernel)]), t,
                     Unlock(key, g)))
  {
    var s' := Goto(s.(kernels := s.kernels[key := kernel], log := s.log + [Recorded(key, kernel)]), t, Unlock(key, g));
    assert s'.kernels == Replay(s'.log) && LogOk(s'.log) by {
      ReplayAppend(s.log, Recorded(key, kernel));
      LogAppend(s.log, Recorded(key, kernel));
    }
    RecordCreations(s, s', t, key, kernel);
    LocksMoved(s, s', t, g);
    MoveInv(s, s', t);
  }

  lemma CreateInv(s: State, t: nat, key: Key, g: nat, e: Env)
    requires Inv(s) && t in s.tasks && s.tasks[t] == Create(key, g)
    ensures Inv(TaskStep(s, t, Create(key, g), e))
  {
    if e.cancelled || e.answer.None? {
      var s' := TaskStep(s, t, Create(key, g), e);
      LocksMoved(s, s', t, g);
      MoveInv(s, s', t);
    } else {
      RecordInv(s, t, key, g, e.answer.value);
    }
  }

  lemma UnlockInv(s: State, t: nat, key: Key, g: nat, e: Env)
    requires Inv(s) && t in s.tasks && s.tasks[t] == Unlock(key, g)
    ensures Inv(TaskStep(s, t, Unlock(key, g), e))
  {
    var s' := TaskStep(s, t, Unlock(key, g), e);
    LocksMoved(s, s', t, g);
    MoveInv(s, s', t);
  }

  function KeysOf(events: seq<Event>): set<Key> {
    set e | e in events :: e.key
  }

  /** Distinct kernels worth reusing, removed one after the other. */
  ghost predicate Removals(kernels: map<Key, Json>, events: seq<Event>) {
    && (forall i :: 0 <= i < |events| ==> events[i].Removed? && EventOk(kernels, events[i]))
    && (forall i, j :: 0 <= i < j < |events| ==> events[i].key != events[j].key)
  }

  lemma KeysOfFront(events: seq<Event>)
    requires events != []
    ensures var front, last := events[..|events| - 1], events[|events| - 1];
            KeysOf(events) == KeysOf(front) + {last.key}
  {
    var front, last := events[..|events| - 1], events[|events| - 1];
    assert events == front + [last];
    assert forall e :: e in events <==> e in front || e == last;
  }

  lemma LastStillThere(kernels: map<Key, Json>, events: seq<Event>)
    requires Removals(kernels, events) && events != []
    ensures Removals(kernels, events[..|events| - 1])
    ensures EventOk(kernels - KeysOf(events[..|events| - 1]), events[|events| - 1])
  {
  }

  lemma {:induction false} RemovalsReplay(log: seq<Event>, events: seq<Event>)
    requires LogOk(log) && Removals(Replay(log), events)
    ensures LogOk(log + events) && Replay(log + events) == Replay(log) - KeysOf(events)
    decreases |events|
  {
    if events == [] {
      assert log + [] == log;
    } else {
      var front, last := events[..|events| - 1], events[|events| - 1];
      assert log + events == log + front + [last];
      LastStillThere(Replay(log), events);
      RemovalsReplay(log, front);
      LogAppend(log + front, last);
      ReplayAppend(log + front, last);
      KeysOfFront(events);
    }
  }

  /** What the sweep removes was worth reusing: an object with an id is truthy. */
  lemma SweptTruthy(kernels: map<Key, Json>, items: seq<(Key, Json)>, user: string, runtime: string, id: string,
                    key: Key)
    requires ItemsOf(items, kernels) && key in SweptKeys(items, user, runtime, id)
    ensures key in kernels && Matches(key, kernels[key], user, runtime, id) && Truthy(kernels[key])
  {
    SweptExactly(items, user, runtime, id, key);
  }

  lemma SweepRemovals(kernels: map<Key, Json>, items: seq<(Key, Json)>, user: string, runtime: string, id: string)
    requires ItemsOf(items, kernels)
    ensures var swept := SweptKeys(items, user, runtime, id);
            Removals(kernels, RemovedEvents(swept)) && KeysOf(RemovedEvents(swept)) == swept
  {
    var swept := SweptKeys(items, user, runtime, id);
    var events := RemovedEvents(swept);
    forall i | 0 <= i < |events|
      ensures events[i].Removed? && EventOk(kernels, events[i])
    {
      assert events[i] in events;
      SweptTruthy(kernels, items, user, runtime, id, events[i].key);
    }
  }

  ghost function Deleted(s: State, t: nat, swept: set<Key>): State {
    Goto(s.(kernels := s.kernels - swept, log := s.log + RemovedEvents(swept)), t, Done)
  }

  lemma DeleteIs(s: State, t: nat, user: string, runtime: string, id: string, e: Env)
    ensures TaskStep(s, t, Delete(user, runtime, id), e) ==
            if ItemsOf(e.items, s.kernels) then Deleted(s, t, SweptKeys(e.items, user, runtime, id)) else s
  {
  }

  lemma DeletedCreations(s: State, s': State, t: nat, swept: set<Key>)
    requires CreationsOk(s) && s'.kernels == s.kernels - swept && s'.tasks == s.tasks[t := Done]
    ensures CreationsOk(s')
  {
  }

  lemma DeletedLog(s: State, t: nat, swept: set<Key>)
    requires LogOk(s.log) && s.kernels == Replay(s.log)
    requires Removals(s.kernels, RemovedEvents(swept)) && KeysOf(RemovedEvents(swept)) == swept
    ensures LogOk(Deleted(s, t, swept).log) && Deleted(s, t, swept).kernels == Replay(Deleted(s, t, swept).log)
  {
    RemovalsReplay(s.log, RemovedEvents(swept));
  }

  lemma DeletedInv(s: State, s': State, t: nat, swept: set<Key>)
    requires Inv(s) && t in s.tasks && s.tasks[t].Delete?
    requires s'.kernels == s.kernels - swept && s'.tasks == s.tasks[t := Done]
    requires s'.entries == s.entries && s'.guards == s.guards && LogOk(s'.log) && s'.kernels == Replay(s'.log)
    ensures Inv(s')
  {
    LocksKept(s, s', t);
    DeletedCreations(s, s', t, swept);
    MoveInv(s, s', t);
  }

  lemma DeleteInv(s: State, t: nat, user: string, runtime: string, id: string, e: Env)
    requires Inv(s) && t in s.tasks && s.tasks[t] == Delete(user, runtime, id)
    ensures Inv(TaskStep(s, t, Delete(user, runtime, id), e))
  {
    DeleteIs(s, t, user, runtime, id, e);
    if ItemsOf(e.items, s.kernels) {
      SweepRemovals(s.kernels, e.items, user, runtime, id);
      var swept := SweptKeys(e.items, user, runtime, id);
      DeletedLog(s, t, swept);
      DeletedInv(s, Deleted(s, t, swept), t, swept);
    }
  }

  lemma BeginInv(s: State, t: nat, pc: Pc)
    requires Inv(s) && t !in s.tasks && (pc.Enter? || pc.Delete?)
    ensures Inv(Goto(s, t, pc))
  {
    LocksKept(s, Goto(s, t, pc), t);
    MoveInv(s, Goto(s, t, pc), t);
  }

  lemma AdvanceInv(s: State, t: nat, e: Env)
    requires Inv(s) && t in s.tasks
    ensures Inv(TaskStep(s, t, s.tasks[t], e))
  {
    match s.tasks[t]
    case Enter(key) => EnterInv(s, t, key, e);
    case Wait(key, g) => WaitInv(s, t, key, g, e);
    case GiveUp(key, g) => GiveUpInv(s, t, key, g, e);
    case Check(key, g) => CheckInv(s, t, key, g, e);
    case Create(key, g) => CreateInv(s, t, key, g, e);
    case Unlock(key, g) => UnlockInv(s, t, key, g, e);
    case Leave(key, g) => LeaveInv(s, t, key, g, e);
    case Delete(user, runtime, id) => DeleteInv(s, t, user, runtime, id, e);
    case Dead(key, g) => Settled(s, t, Dead(key, g), e);
    case Done => Settled(s, t, Done, e);
  }

  lemma GiveUpInv(s: State, t: nat, key: Key, g: nat, e: Env)
    requires Inv(s) && t in s.tasks && s.tasks[t] == GiveUp(key, g)
    ensures Inv(TaskStep(s, t, GiveUp(key, g), e))
  {
    DropInv(s, t, key, g, false);
  }

  lemma LeaveInv(s: State, t: nat, key: Key, g: nat, e: Env)
    requires Inv(s) && t in s.tasks && s.tasks[t] == Leave(key, g)
    ensures Inv(TaskStep(s, t, Leave(key, g), e))
  {
    DropInv(s, t, key, g, true);
  }

  lemma Settled(s: State, t: nat, pc: Pc, e: Env)
    requires pc.Done? || pc.Dead?
    ensures TaskStep(s, t, pc, e) == s
  {
  }

  lemma StepInv(s: State, a: Action)
    requires Inv(s)
    ensures Inv(Step(s, a))
  {
    match a
    case BeginCreate(t, key) => if t !in s.tasks { BeginInv(s, t, Enter(key)); }
    case BeginDelete(t, user, runtime, id) => if t !in s.tasks { BeginInv(s, t, Delete(user, runtime, id)); }
    case Advance(t, e) => if t in s.tasks { AdvanceInv(s, t, e); }
  }

  lemma {:induction false} ReachableInv(actions: seq<Action>)
    ensures Inv(Exec(INIT, actions))
    decreases |actions|
  {
    if actions != [] {
      ReachableInv(actions[..|actions| - 1]);
      StepInv(Exec(INIT, actions[..|actions| - 1]), actions[|actions| - 1]);
    }
  }

  // ---------------------------------------------------------------------------------------------
  // What it says of every run.

  /** `references` is the number of tasks holding or waiting for the guard, and a guard with references
      is the table's entry for the key of every one of them. */
  lemma ReferencesExact(actions: seq<Action>, g: nat)
    requires g in Exec(INIT, actions).guards
    ensures var s := Exec(INIT, actions);
            && s.guards[g].references == |Referrers(s.tasks, g)|
            && (forall t <- Referrers(s.tasks, g) :: s.tasks[t].key in s.entries && s.entries[s.tasks[t].key] == g)
            && (s.guards[g].references > 0 <==> exists k :: k in s.entries && s.entries[k] == g)
  {
    ReachableInv(actions);
    var s := Exec(INIT, actions);
    if s.guards[g].references > 0 {
      assert Referrers(s.tasks, g) != {};
      var t :| t in Referrers(s.tasks, g);
      assert s.tasks[t].key in s.entries && s.entries[s.tasks[t].key] == g;
    }
  }

  /** At most one task per key is between acquiring the guard and releasing it. */
  lemma MutualExclusion(actions: seq<Action>, t: nat, u: nat)
    requires t in Exec(INIT, actions).tasks && u in Exec(INIT, actions).tasks
    requires Inside(Exec(INIT, actions).tasks[t]) && Inside(Exec(INIT, actions).tasks[u])
    requires Exec(INIT, actions).tasks[t].key == Exec(INIT, actions).tasks[u].key
    ensures t == u
  {
    ReachableInv(actions);
    AloneInside(Exec(INIT, actions), t, u);
  }

  /** When every task has finished, no guard is left in the table and no lock is held. */
  lemma NoGuardLeft(actions: seq<Action>)
    requires forall t :: t in Exec(INIT, actions).tasks ==> Exec(INIT, actions).tasks[t].Done?
    ensures var s := Exec(INIT, actions);
            s.entries == map[] && forall g :: g in s.guards ==> !s.guards[g].locked && s.guards[g].references == 0
  {
    ReachableInv(actions);
    var s := Exec(INIT, actions);
    forall g | g in s.guards
      ensures s.guards[g].references == 0
    {
      assert Referrers(s.tasks, g) == {};
    }
    assert forall k :: k !in s.entries;
  }

  /** Replaying events that do not concern a key leaves its kernel alone. */
  lemma {:induction false} ReplayQuiet(log: seq<Event>, i: nat, j: nat, key: Key)
    requires i <= j <= |log| && forall m :: i <= m < j ==> log[m].key != key
    ensures key in Replay(log[..j]) <==> key in Replay(log[..i])
    ensures key in Replay(log[..j]) ==> Replay(log[..j])[key] == Replay(log[..i])[key]
    decreases j
  {
    if i < j {
      ReplayQuiet(log, i, j - 1, key);
      assert log[..j] == log[..j - 1] + [log[j - 1]];
      ReplayAppend(log[..j - 1], log[j - 1]);
    }
  }

  /** After a recording, until the next event for its key, the kernel is the one recorded. */
  lemma RecordedStays(log: seq<Event>, i: nat, j: nat)
    requires i < j <= |log| && log[i].Recorded? && forall m :: i < m < j ==> log[m].key != log[i].key
    ensures log[i].key in Replay(log[..j]) && Replay(log[..j])[log[i].key] == log[i].kernel
  {
    ReplayQuiet(log, i + 1, j, log[i].key);
    assert log[..i + 1] == log[..i] + [log[i]];
    ReplayAppend(log[..i], log[i]);
  }

  /** The first event for the key after `i`, up to `j`. */
  lemma {:induction false} NextEvent(log: seq<Event>, i: nat, j: nat) returns (m: nat)
    requires i < j < |log| && log[j].key == log[i].key
    ensures i < m <= j && log[m].key == log[i].key && forall k :: i < k < m ==> log[k].key != log[i].key
    decreases j
  {
    if k :| i < k < j && log[k].key == log[i].key {
      m := NextEvent(log, i, k);
    } else {
      m := j;
    }
  }

  ghost predicate RemovedBetween(log: seq<Event>, i: nat, j: nat, key: Key) {
    exists m :: i < m < j <= |log| && log[m] == Removed(key)
  }

  /** Two recordings for one key: whatever follows the first decides whether it was worth reusing. */
  lemma NextDecides(log: seq<Event>, i: nat, m: nat)
    requires LogOk(log) && i < m < |log| && log[i].Recorded? && log[m].key == log[i].key
    requires forall k :: i < k < m ==> log[k].key != log[i].key
    ensures log[m].Removed? <==> Truthy(log[i].kernel)
  {
    RecordedStays(log, i, m);
    assert EventOk(Replay(log[..m]), log[m]);
  }

  /** Consecutive recordings for one key are separated by the removal of the first exactly when the first
      was worth reusing. */
  lemma CreationsSeparatedExactly(actions: seq<Action>, i: nat, j: nat)
    requires i < j < |Exec(INIT, actions).log|
    requires Exec(INIT, actions).log[i].Recorded? && Exec(INIT, actions).log[j].Recorded?
    requires Exec(INIT, actions).log[i].key == Exec(INIT, actions).log[j].key
    requires var log := Exec(INIT, actions).log;
             forall m :: i < m < j && log[m].Recorded? ==> log[m].key != log[i].key
    ensures var log := Exec(INIT, actions).log;
            RemovedBetween(log, i, j, log[i].key) <==> Truthy(log[i].kernel)
  {
    ReachableInv(actions);
    var log := Exec(INIT, actions).log;
    var m := NextEvent(log, i, j);
    NextDecides(log, i, m);
    if m < j {
      assert log[m] == Removed(log[i].key);
    }
  }

  lemma RemovalBetween(log: seq<Event>, i: nat, j: nat)
    requires LogOk(log) && i < j < |log| && log[i].Recorded? && log[j].Recorded? && log[i].key == log[j].key
    requires Truthy(log[i].kernel)
    ensures RemovedBetween(log, i, j, log[i].key)
  {
    var m := NextEvent(log, i, j);
    NextDecides(log, i, m);
    assert log[m] == Removed(log[i].key);
  }

  /** Between a recorded kernel worth reusing and any later recording for its key, a DELETE removed it. */
  lemma CreationsSeparated(actions: seq<Action>, i: nat, j: nat)
    requires i < j < |Exec(INIT, actions).log|
    requires Exec(INIT, actions).log[i].Recorded? && Exec(INIT, actions).log[j].Recorded?
    requires Exec(INIT, actions).log[i].key == Exec(INIT, actions).log[j].key
    requires Truthy(Exec(INIT, actions).log[i].kernel)
    ensures var log := Exec(INIT, actions).log; RemovedBetween(log, i, j, log[i].key)
  {
    ReachableInv(actions);
    RemovalBetween(Exec(INIT, actions).log, i, j);
  }

  /** A DELETE takes from the map exactly the kernels its sweep reached with that id, whoever's upstream
      answer it was, and changes no other. */
  lemma DeleteRemoves(s: State, t: nat, user: string, runtime: string, id: string, e: Env, key: Key)
    requires t in s.tasks && s.tasks[t] == Delete(user, runtime, id) && ItemsOf(e.items, s.kernels)
    ensures var s' := Step(s, Advance(t, e));
            && (key in s'.kernels <==>
                  key in s.kernels && !exists i: nat :: Hits(e.items, user, runtime, id, key, i))
            && (key in s'.kernels ==> s'.kernels[key] == s.kernels[key])
  {
    SweptExactly(e.items, user, runtime, id, key);
  }

  /** The sweep raises, and may leave something behind, only on a value that is not an object. */
  predicate AllObjects(kernels: map<Key, Json>, user: string, runtime: string) {
    forall k <- kernels.Keys :: k.user == user && k.runtime == runtime ==> kernels[k].Obj?
  }

  /** When all values of the user's runtime are objects, a DELETE removes exactly the kernels of that
      runtime with that id, in whatever order it visits them, and none remains. */
  lemma DeleteRemovesAll(s: State, t: nat, user: string, runtime: string, id: string, e: Env, key: Key)
    requires t in s.tasks && s.tasks[t] == Delete(user, runtime, id) && ItemsOf(e.items, s.kernels)
    requires AllObjects(s.kernels, user, runtime)
    ensures var s' := Step(s, Advance(t, e));
            && (key in s'.kernels <==> key in s.kernels && !Matches(key, s.kernels[key], user, runtime, id))
            && (key in s'.kernels ==> s'.kernels[key] == s.kernels[key])
  {
    DeleteRemoves(s, t, user, runtime, id, e, key);
    if key in s.kernels && Matches(key, s.kernels[key], user, runtime, id) {
      var i: nat :| i < |e.items| && e.items[i].0 == key;
      assert Hits(e.items, user, runtime, id, key, i);
    }
  }

  /** Event `i` recorded a kernel for the key, and nothing has happened to the key since. */
  predicate Standing(log: seq<Event>, key: Key, i: int) {
    0 <= i < |log| && log[i].Recorded? && log[i].key == key && forall m :: i < m < |log| ==> log[m].key != key
  }

  lemma {:induction false} RecordedOnce(log: seq<Event>, key: Key) returns (i: nat)
    requires key in Replay(log)
    ensures Standing(log, key, i) && log[i].kernel == Replay(log)[key]
    decreases |log|
  {
    var n := |log| - 1;
    if log[n].key == key {
      i := n;
    } else {
      i := RecordedOnce(log[..n], key);
    }
  }

  /** A kernel is recorded exactly when a recording stands, and it is that one. */
  lemma StandingExactly(log: seq<Event>, key: Key)
    ensures key in Replay(log) <==> exists i :: Standing(log, key, i)
    ensures forall i :: Standing(log, key, i) ==> key in Replay(log) && Replay(log)[key] == log[i].kernel
  {
    if key in Replay(log) {
      var i := RecordedOnce(log, key);
    }
    forall i | Standing(log, key, i)
      ensures key in Replay(log) && Replay(log)[key] == log[i].kernel
    {
      RecordedStays(log, i, |log|);
      assert log[..|log|] == log;
    }
  }

  lemma CheckDecides(s: State, t: nat, e: Env)
    requires t in s.tasks && s.tasks[t].Check?
    ensures var key := s.tasks[t].key;
            Step(s, Advance(t, e)).tasks[t] == CheckNext(s.kernels, key, s.tasks[t].guard)
  {
    CheckIs(s, t, s.tasks[t].key, s.tasks[t].guard, e);
  }

  /** A task that holds the guard reuses a kernel exactly when the last thing that happened to its key is the
      recording of a truthy object: an upstream answer to an earlier creation that no DELETE has removed
      since. It dies when that was any other truthy value, and goes on to create a kernel when no truthy
      value stands recorded. */
  lemma ReusedExactlyWhenTruthy(actions: seq<Action>, t: nat, e: Env)
    requires t in Exec(INIT, actions).tasks && Exec(INIT, actions).tasks[t].Check?
    ensures var s := Exec(INIT, actions);
            var pc := Step(s, Advance(t, e)).tasks[t];
            var key := s.tasks[t].key;
            && (pc.Create? <==> forall i :: Standing(s.log, key, i) ==> !Truthy(s.log[i].kernel))
            && (pc.Unlock? <==> exists i :: Standing(s.log, key, i) && Truthy(s.log[i].kernel) && s.log[i].kernel.Obj?)
            && (pc.Dead? <==> exists i :: Standing(s.log, key, i) && Truthy(s.log[i].kernel) && !s.log[i].kernel.Obj?)
  {
    ReachableInv(actions);
    var s := Exec(INIT, actions);
    CheckDecides(s, t, e);
    StandingExactly(s.log, s.tasks[t].key);
  }

  // ---------------------------------------------------------------------------------------------
  // A guard that is never given back.

  predicate Reusable(e: Event) {
    e.Recorded? ==> e.kernel.Obj? || !Truthy(e.kernel)
  }

  lemma {:induction false} ReplayedReusable(log: seq<Event>, key: Key)
    requires forall e <- log :: Reusable(e)
    ensures key in Replay(log) ==> Replay(log)[key].Obj? || !Truthy(Replay(log)[key])
    decreases |log|
  {
    if log != [] {
      ReplayedReusable(log[..|log| - 1], key);
      assert Reusable(log[|log| - 1]);
    }
  }

  lemma KernelsReusable(actions: seq<Action>)
    requires forall e <- Exec(INIT, actions).log :: Reusable(e)
    ensures var s := Exec(INIT, actions); forall k <- s.kernels.Keys :: s.kernels[k].Obj? || !Truthy(s.kernels[k])
  {
    ReachableInv(actions);
    var s := Exec(INIT, actions);
    forall k | k in s.kernels
      ensures s.kernels[k].Obj? || !Truthy(s.kernels[k])
    {
      ReplayedReusable(s.log, k);
    }
  }

  lemma LogGrows(s: State, a: Action)
    ensures s.log <= Step(s, a).log
  {
  }

  /** No guard is lost as long as the upstream never answers a creation with a truthy non-object. */
  lemma {:induction false} NobodyDies(actions: seq<Action>, t: nat)
    requires forall e <- Exec(INIT, actions).log :: Reusable(e)
    requires t in Exec(INIT, actions).tasks
    ensures !Exec(INIT, actions).tasks[t].Dead?
    decreases |actions|
  {
    if actions != [] {
      var front, a := actions[..|actions| - 1], actions[|actions| - 1];
      var s := Exec(INIT, front);
      LogGrows(s, a);
      forall e | e in s.log ensures Reusable(e) { assert e in Exec(INIT, actions).log; }
      if t !in s.tasks {
        BornAlive(s, a, t);
      } else {
        NobodyDies(front, t);
        KernelsReusable(front);
        LivesOn(s, a, t);
      }
    }
  }

  /** Only the check for a reusable kernel can kill a task. */
  lemma OnlyCheckDies(s: State, t: nat, pc: Pc, e: Env)
    requires t in s.tasks && s.tasks[t] == pc && !pc.Dead? && !pc.Check?
    ensures t in TaskStep(s, t, pc, e).tasks && !TaskStep(s, t, pc, e).tasks[t].Dead?
  {
    match pc
    case Enter(key) =>
    case Wait(key, g) =>
    case GiveUp(key, g) =>
    case Create(key, g) =>
    case Unlock(key, g) =>
    case Leave(key, g) =>
    case Delete(user, runtime, id) =>
    case Done => Settled(s, t, pc, e);
  }

  lemma CheckLives(s: State, t: nat, key: Key, g: nat, e: Env)
    requires key in s.kernels ==> s.kernels[key].Obj? || !Truthy(s.kernels[key])
    ensures t in TaskStep(s, t, Check(key, g), e).tasks && !TaskStep(s, t, Check(key, g), e).tasks[t].Dead?
  {
  }

  /** A step that is not task `t`'s own leaves it alone. */
  lemma OthersStay(s: State, a: Action, t: nat)
    requires t in s.tasks && !(a.Advance? && a.task == t)
    ensures t in Step(s, a).tasks && Step(s, a).tasks[t] == s.tasks[t]
  {
    if a.Advance? && a.task in s.tasks {
      OnlyOwnMoves(s, a.task, s.tasks[a.task], a.env, t);
    }
  }

  lemma OnlyOwnMoves(s: State, u: nat, pc: Pc, e: Env, t: nat)
    requires t in s.tasks && t != u
    ensures t in TaskStep(s, u, pc, e).tasks && TaskStep(s, u, pc, e).tasks[t] == s.tasks[t]
  {
    match pc
    case Enter(key) =>
    case Wait(key, g) =>
    case GiveUp(key, g) =>
    case Check(key, g) =>
    case Create(key, g) =>
    case Unlock(key, g) =>
    case Leave(key, g) =>
    case Delete(user, runtime, id) =>
    case Dead(key, g) => Settled(s, u, pc, e);
    case Done => Settled(s, u, pc, e);
  }

  lemma LivesOn(s: State, a: Action, t: nat)
    requires t in s.tasks && !s.tasks[t].Dead?
    requires s.tasks[t].Check? && s.tasks[t].key in s.kernels ==>
               s.kernels[s.tasks[t].key].Obj? || !Truthy(s.kernels[s.tasks[t].key])
    ensures t in Step(s, a).tasks && !Step(s, a).tasks[t].Dead?
  {
    if !(a.Advance? && a.task == t) {
      OthersStay(s, a, t);
    } else if s.tasks[t].Check? {
      CheckLives(s, t, s.tasks[t].key, s.tasks[t].guard, a.env);
    } else {
      OnlyCheckDies(s, t, s.tasks[t], a.env);
    }
  }

  lemma StaysDead(s: State, a: Action, t: nat)
    requires t in s.tasks && s.tasks[t].Dead?
    ensures t in Step(s, a).tasks && Step(s, a).tasks[t] == s.tasks[t]
  {
    if a.Advance? && a.task == t {
      Settled(s, t, s.tasks[t], a.env);
    } else {
      OthersStay(s, a, t);
    }
  }

  lemma BornAlive(s: State, a: Action, t: nat)
    requires t !in s.tasks && t in Step(s, a).tasks
    ensures !Step(s, a).tasks[t].Dead?
  {
    if a.Advance? && a.task in s.tasks {
      NoneBorn(s, a.task, s.tasks[a.task], a.env, t);
    }
  }

  lemma NoneBorn(s: State, u: nat, pc: Pc, e: Env, t: nat)
    requires t !in s.tasks && u in s.tasks
    ensures t !in TaskStep(s, u, pc, e).tasks
  {
    match pc
    case Enter(key) =>
    case Wait(key, g) =>
    case GiveUp(key, g) =>
    case Check(key, g) =>
    case Create(key, g) =>
    case Unlock(key, g) =>
    case Leave(key, g) =>
    case Delete(user, runtime, id) =>
    case Dead(key, g) => Settled(s, u, pc, e);
    case Done => Settled(s, u, pc, e);
  }

  /** Once a task has died with its guard, nobody gets past the guard for that key any more: not to
      reuse a kernel, and not to create one. */
  lemma {:induction false} DeadBlocks(actions: seq<Action>, i: nat, t: nat, u: nat)
    requires i <= |actions| && t in Exec(INIT, actions[..i]).tasks && Exec(INIT, actions[..i]).tasks[t].Dead?
    ensures t in Exec(INIT, actions).tasks && Exec(INIT, actions).tasks[t] == Exec(INIT, actions[..i]).tasks[t]
    ensures var s := Exec(INIT, actions);
            u in s.tasks && u != t && Inside(s.tasks[u]) ==> s.tasks[u].key != s.tasks[t].key
    decreases |actions|
  {
    if i == |actions| {
      assert actions[..i] == actions;
    } else {
      var front := actions[..|actions| - 1];
      assert front[..i] == actions[..i];
      DeadBlocks(front, i, t, u);
      StaysDead(Exec(INIT, front), actions[|actions| - 1], t);
    }
    ReachableInv(actions);
    var s := Exec(INIT, actions);
    if u in s.tasks && Inside(s.tasks[u]) && s.tasks[u].key == s.tasks[t].key {
      AloneInside(s, t, u);
    }
  }

  lemma {:induction false} ExecCat(s: State, a: seq<Action>, b: seq<Action>)
    ensures Exec(s, a + b) == Exec(Exec(s, a), b)
    decreases |b|
  {
    if b == [] {
      assert a + b == a;
    } else {
      assert (a + b)[..|a + b| - 1] == a + b[..|b| - 1];
      ExecCat(s, a, b[..|b| - 1]);
    }
  }

  lemma ExecMore(s: State, a: seq<Action>, x: Action)
    ensures Exec(s, a + [x]) == Step(Exec(s, a), x)
  {
    assert (a + [x])[..|a|] == a;
  }

  /** An undisturbed creation by a new task through a new guard. */
  function Undisturbed(t: nat, g: nat, key: Key, kernel: Json): seq<Action> {
    var go := Advance(t, Env(g, false, Some(kernel), []));
    [BeginCreate(t, key)] + [go] + [go] + [go] + [go] + [go] + [go]
  }

  // One step of a task that nothing disturbs.

  predicate Goes(go: Action, t: nat, g: nat) {
    go.Advance? && go.task == t && go.env.created == g && !go.env.cancelled
  }

  lemma StepEnter(s: State, t: nat, g: nat, key: Key, go: Action)
    requires Goes(go, t, g) && t in s.tasks && s.tasks[t] == Enter(key) && g !in s.guards && key !in s.entries
    ensures Step(s, go) == State(s.entries[key := g], s.guards[g := Guard(false, 1)], s.kernels,
                                 s.tasks[t := Wait(key, g)], s.log)
  {
  }

  lemma StepWait(s: State, t: nat, g: nat, key: Key, go: Action)
    requires Goes(go, t, g) && t in s.tasks && s.tasks[t] == Wait(key, g) && g in s.guards && !s.guards[g].locked
    ensures Step(s, go) == State(s.entries, s.guards[g := s.guards[g].(locked := true)], s.kernels,
                                 s.tasks[t := Check(key, g)], s.log)
  {
  }

  lemma StepCheck(s: State, t: nat, g: nat, key: Key, go: Action)
    requires Goes(go, t, g) && t in s.tasks && s.tasks[t] == Check(key, g)
    ensures Step(s, go) == State(s.entries, s.guards, s.kernels, s.tasks[t := CheckNext(s.kernels, key, g)], s.log)
  {
    CheckIs(s, t, key, g, go.env);
  }

  lemma StepCreate(s: State, t: nat, g: nat, key: Key, go: Action)
    requires Goes(go, t, g) && t in s.tasks && s.tasks[t] == Create(key, g) && go.env.answer.Some?
    ensures Step(s, go) == State(s.entries, s.guards, s.kernels[key := go.env.answer.value],
                                 s.tasks[t := Unlock(key, g)], s.log + [Recorded(key, go.env.answer.value)])
  {
  }

  lemma StepUnlock(s: State, t: nat, g: nat, key: Key, go: Action)
    requires Goes(go, t, g) && t in s.tasks && s.tasks[t] == Unlock(key, g) && g in s.guards
    ensures Step(s, go) == State(s.entries, s.guards[g := s.guards[g].(locked := false)], s.kernels,
                                 s.tasks[t := Leave(key, g)], s.log)
  {
  }

  lemma StepLeave(s: State, t: nat, g: nat, key: Key, go: Action)
    requires Goes(go, t, g) && t in s.tasks && s.tasks[t] == Leave(key, g) && key in s.entries && s.entries[key] == g
    requires g in s.guards && s.guards[g] == Guard(false, 1)
    ensures Step(s, go) == State(s.entries - {key}, s.guards[g := Guard(false, 0)], s.kernels, s.tasks[t := Done],
                                 s.log)
  {
    DropIs(s, t, key, g, true);
  }

  lemma StepBegin(s: State, t: nat, key: Key)
    requires t !in s.tasks
    ensures Exec(s, [BeginCreate(t, key)]) == Goto(s, t, Enter(key))
  {
    ExecMore(s, [], BeginCreate(t, key));
    assert [] + [BeginCreate(t, key)] == [BeginCreate(t, key)];
  }

  function Checking(s: State, t: nat, g: nat, key: Key): State {
    State(s.entries[key := g], s.guards[g := Guard(true, 1)], s.kernels, s.tasks[t := Check(key, g)], s.log)
  }

  lemma EnterThenWait(s: State, s1: State, t: nat, g: nat, key: Key, go: Action)
    requires Goes(go, t, g) && g !in s.guards && key !in s.entries && s1 == Goto(s, t, Enter(key))
    ensures Step(Step(s1, go), go) == Checking(s, t, g, key)
  {
    StepEnter(s1, t, g, key, go);
    var s2 := State(s.entries[key := g], s.guards[g := Guard(false, 1)], s.kernels, s.tasks[t := Wait(key, g)], s.log);
    assert Step(s1, go) == s2;
    StepWait(s2, t, g, key, go);
  }

  /** A new task with a new guard takes its lock at once. */
  lemma UndisturbedWaits(s: State, t: nat, g: nat, key: Key, go: Action)
    requires Goes(go, t, g) && t !in s.tasks && g !in s.guards && key !in s.entries
    ensures Exec(s, [BeginCreate(t, key)] + [go] + [go]) == Checking(s, t, g, key)
  {
    StepBegin(s, t, key);
    ExecTwice(s, [BeginCreate(t, key)], go);
    EnterThenWait(s, Goto(s, t, Enter(key)), t, g, key, go);
  }

  /** What the task of a creation leaves behind. */
  function Left(s: State, t: nat, g: nat, key: Key, kernel: Json): State {
    State(s.entries, s.guards[g := Guard(false, 0)], s.kernels[key := kernel], s.tasks[t := Done],
          s.log + [Recorded(key, kernel)])
  }

  lemma UndisturbedCreates(s: State, s3: State, t: nat, g: nat, key: Key, kernel: Json, go: Action)
    requires Goes(go, t, g) && go.env.answer == Some(kernel) && s3 == Checking(s, t, g, key) && Absent(s.kernels, key)
    ensures Step(Step(s3, go), go) ==
            Unlocking(s, t, g, key, kernel, true, Unlock(key, g))
  {
    StepCheck(s3, t, g, key, go);
    StepCreate(Step(s3, go), t, g, key, go);
  }

  function Unlocking(s: State, t: nat, g: nat, key: Key, kernel: Json, locked: bool, pc: Pc): State {
    State(s.entries[key := g], s.guards[g := Guard(locked, 1)], s.kernels[key := kernel], s.tasks[t := pc],
          s.log + [Recorded(key, kernel)])
  }

  lemma UndisturbedUnlocks(s: State, t: nat, g: nat, key: Key, kernel: Json, go: Action)
    requires Goes(go, t, g)
    ensures Step(Unlocking(s, t, g, key, kernel, true, Unlock(key, g)), go) ==
            Unlocking(s, t, g, key, kernel, false, Leave(key, g))
  {
    StepUnlock(Unlocking(s, t, g, key, kernel, true, Unlock(key, g)), t, g, key, go);
  }

  lemma UndisturbedLeaves(s: State, t: nat, g: nat, key: Key, kernel: Json, go: Action)
    requires Goes(go, t, g) && key !in s.entries
    ensures Step(Unlocking(s, t, g, key, kernel, false, Leave(key, g)), go) == Left(s, t, g, key, kernel)
  {
    StepLeave(Unlocking(s, t, g, key, kernel, false, Leave(key, g)), t, g, key, go);
    assert s.entries[key := g] - {key} == s.entries;
  }

  /** It takes the guard, finds nothing to reuse, records its kernel and leaves no guard behind. */
  lemma UndisturbedRecords(s: State, t: nat, g: nat, key: Key, kernel: Json)
    requires t !in s.tasks && g !in s.guards && key !in s.entries && Absent(s.kernels, key)
    ensures Exec(s, Undisturbed(t, g, key, kernel)) ==
            State(s.entries, s.guards[g := Guard(false, 0)], s.kernels[key := kernel], s.tasks[t := Done],
                  s.log + [Recorded(key, kernel)])
  {
    var go := Advance(t, Env(g, false, Some(kernel), []));
    var a3 := [BeginCreate(t, key)] + [go] + [go];
    UndisturbedWaits(s, t, g, key, go);
    ExecTwice(s, a3, go);
    ExecTwice(s, a3 + [go] + [go], go);
    UndisturbedCreates(s, Checking(s, t, g, key), t, g, key, kernel, go);
    UndisturbedUnlocks(s, t, g, key, kernel, go);
    UndisturbedLeaves(s, t, g, key, kernel, go);
  }

  lemma ExecTwice(s: State, a: seq<Action>, x: Action)
    ensures Exec(s, a + [x] + [x]) == Step(Step(Exec(s, a), x), x)
  {
    ExecMore(s, a, x);
    ExecMore(s, a + [x], x);
  }

  /** The exception is real: with an empty object or null recorded first, a second creation is recorded
      without any DELETE. */
  lemma FalsyKernelRecordedTwice(key: Key, falsy: Json, second: Json)
    requires !Truthy(falsy)
    ensures var actions := Undisturbed(0, 0, key, falsy) + Undisturbed(1, 1, key, second);
            Exec(INIT, actions).log == [Recorded(key, falsy), Recorded(key, second)]
  {
    var first := Undisturbed(0, 0, key, falsy);
    UndisturbedRecords(INIT, 0, 0, key, falsy);
    UndisturbedRecords(Exec(INIT, first), 1, 1, key, second);
    ExecCat(INIT, first, Undisturbed(1, 1, key, second));
  }

  /** And the loss of a guard is real: the second creation dies on a recorded list, holding the guard. */
  lemma NonObjectKernelBlocks(key: Key, list: Json)
    requires Truthy(list) && !list.Obj?
    ensures var go := Advance(1, Env(1, false, None, []));
            var actions := Undisturbed(0, 0, key, list) + ([BeginCreate(1, key)] + [go] + [go] + [go]);
            Exec(INIT, actions).tasks == map[0 := Done, 1 := Dead(key, 1)]
  {
    var go := Advance(1, Env(1, false, None, []));
    var first := Undisturbed(0, 0, key, list);
    UndisturbedRecords(INIT, 0, 0, key, list);
    SecondDies(Exec(INIT, first), key, list);
    ExecCat(INIT, first, [BeginCreate(1, key)] + [go] + [go] + [go]);
  }

  lemma SecondDies(s: State, key: Key, list: Json)
    requires Truthy(list) && !list.Obj? && key in s.kernels && s.kernels[key] == list
    requires 1 !in s.tasks && 1 !in s.guards && key !in s.entries
    ensures var go := Advance(1, Env(1, false, None, []));
            Exec(s, [BeginCreate(1, key)] + [go] + [go] + [go]).tasks == s.tasks[1 := Dead(key, 1)]
  {
    var go := Advance(1, Env(1, false, None, []));
    UndisturbedWaits(s, 1, 1, key, go);
    ExecMore(s, [BeginCreate(1, key)] + [go] + [go], go);
    StepCheck(Checking(s, 1, 1, key), 1, 1, key, go);
  }

  predicate SameRuntime(a: Key, b: Key) {
    a.user == b.user && a.runtime == b.runtime
  }

  lemma TwoItems(a: Key, b: Key, v: Json, w: Json)
    requires a != b
    ensures ItemsOf([(a, v), (b, w)], map[a := v, b := w])
  {
    var items := [(a, v), (b, w)];
    assert items[0] == (a, v) && items[1] == (b, w);
  }

  lemma SweepStops(a: Key, b: Key, v: Json, w: Json, id: string)
    requires SameRuntime(a, b) && !v.Obj?
    ensures SweptKeys([(a, v), (b, w)], a.user, a.runtime, id) == {}
  {
  }

  /** A DELETE that visits the kernels in the order in which they were recorded stops at a value that is not
      an object, and leaves behind the kernel it was for. */
  lemma DeleteLeavesBehind(a: Key, b: Key, list: Json, kernel: Json, id: string)
    requires a != b && SameRuntime(a, b) && !list.Obj?
    requires kernel.Obj? && Field(kernel.fields, "id") == Some(Str(id))
    ensures var delete := [BeginDelete(2, a.user, a.runtime, id)]
                          + [Advance(2, Env(2, false, None, [(a, list), (b, kernel)]))];
            var s := Exec(INIT, Undisturbed(0, 0, a, list) + Undisturbed(1, 1, b, kernel) + delete);
            && s.tasks == map[0 := Done, 1 := Done, 2 := Done]
            && s.kernels == map[a := list, b := kernel] && Matches(b, kernel, a.user, a.runtime, id)
  {
    var first, second := Undisturbed(0, 0, a, list), Undisturbed(1, 1, b, kernel);
    UndisturbedRecords(INIT, 0, 0, a, list);
    UndisturbedRecords(Exec(INIT, first), 1, 1, b, kernel);
    ExecCat(INIT, first, second);
    var s := Exec(INIT, first + second);
    assert s.kernels == map[a := list, b := kernel] && s.tasks == map[0 := Done, 1 := Done];
    DeleteStops(s, a, b, list, kernel, id);
    ExecCat(INIT, first + second, [BeginDelete(2, a.user, a.runtime, id)]
                                  + [Advance(2, Env(2, false, None, [(a, list), (b, kernel)]))]);
  }

  lemma DeleteStops(s: State, a: Key, b: Key, list: Json, kernel: Json, id: string)
    requires a != b && SameRuntime(a, b) && !list.Obj?
    requires s.kernels == map[a := list, b := kernel] && s.tasks == map[0 := Done, 1 := Done]
    ensures var s' := Exec(s, [BeginDelete(2, a.user, a.runtime, id)]
                              + [Advance(2, Env(2, false, None, [(a, list), (b, kernel)]))]);
            s'.kernels == s.kernels && s'.tasks == map[0 := Done, 1 := Done, 2 := Done]
  {
    var begin, go := BeginDelete(2, a.user, a.runtime, id), Advance(2, Env(2, false, None, [(a, list), (b, kernel)]));
    ExecMore(s, [], begin);
    assert [] + [begin] == [begin];
    ExecMore(s, [begin], go);
    var s1 := Goto(s, 2, Delete(a.user, a.runtime, id));
    TwoItems(a, b, list, kernel);
    SweepStops(a, b, list, kernel, id);
    DeleteIs(s1, 2, a.user, a.runtime, id, go.env);
    assert s.kernels - {} == s.kernels;
  }
}
