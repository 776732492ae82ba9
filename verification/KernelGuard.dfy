/** The kernel creation guard of the runtime gateway (runtime-gateway/app/main.py): a table of
    reference-counted locks, one per notebook, around the creation of a kernel. */
module KernelGuard {
  import opened Common
  import opened Json

  datatype Key = Key(user: string, runtime: string, notebook: string)

  /** Python's truth value of a decoded answer. Any JSON value is recorded as the kernel. */
  predicate Truthy(kernel: Json) {
    match kernel
    case Null => false
    case Bool(b) => b
    case Int(i) => i != 0
    case Float(r) => r != 0.0
    case Str(s) => s != ""
    case Arr(items) => items != []
    case Obj(fields) => fields != map[]
  }

  // ---------------------------------------------------------------------------------------------
  // The blocks under `kernel_lock`, for any kind of guard identity. None of them awaits, so each is
  // atomic.

  /** The guard `acquire_kernel_creation_guard` takes a reference to. */
  function Entry<G>(entries: map<Key, G>, key: Key, created: G): G {
    if key in entries then entries[key] else created
  }

  /** The table after a reference has been dropped: `checked` is the release path, which pops the entry
      only if it is still this guard; the cancelled path pops whatever is there. */
  function Popped<G(==)>(entries: map<Key, G>, key: Key, guard: G, left: int, checked: bool): map<Key, G> {
    if left == 0 && (checked ==> key in entries && entries[key] == guard) then entries - {key} else entries
  }

  /** `value.get("id") == deleted_id` for a kernel of the user's runtime. */
  predicate Matches(k: Key, v: Json, user: string, runtime: string, id: string) {
    k.user == user && k.runtime == runtime && v.Obj? && Field(v.fields, "id") == Some(Str(id))
  }

  /** The items of the map, each once, in some order. */
  ghost predicate ItemsOf(items: seq<(Key, Json)>, kernels: map<Key, Json>) {
    && (forall i :: 0 <= i < |items| ==> items[i].0 in kernels && kernels[items[i].0] == items[i].1)
    && (forall k :: k in kernels ==> exists i :: 0 <= i < |items| && items[i].0 == k)
    && (forall i, j :: 0 <= i < j < |items| ==> items[i].0 != items[j].0)
  }

  /** The DELETE loop over a copy of the items. It dies on the first value of the user's runtime that is
      not an object. */
  function Sweep(kernels: map<Key, Json>, items: seq<(Key, Json)>, user: string, runtime: string, id: string)
    : map<Key, Json> {
    kernels - SweptKeys(items, user, runtime, id)
  }

  /** `value.get` does not raise on the item: it is of another runtime, or an object. */
  predicate Readable(item: (Key, Json), user: string, runtime: string) {
    item.0.user == user && item.0.runtime == runtime ==> item.1.Obj?
  }

  function SweptKeys(items: seq<(Key, Json)>, user: string, runtime: string, id: string): set<Key> {
    if items == [] || !Readable(items[0], user, runtime) then {}
    else
      (if Matches(items[0].0, items[0].1, user, runtime, id) then {items[0].0} else {}) +
      SweptKeys(items[1..], user, runtime, id)
  }

  /** The sweep reaches item `i` only past values of the user's runtime that are objects. */
  predicate Reached(items: seq<(Key, Json)>, user: string, runtime: string, i: nat)
    requires i < |items|
  {
    forall j :: 0 <= j <= i ==> Readable(items[j], user, runtime)
  }

  lemma ReachedRest(items: seq<(Key, Json)>, user: string, runtime: string, i: nat)
    requires items != [] && Readable(items[0], user, runtime) && i < |items[1..]|
    ensures Reached(items[1..], user, runtime, i) <==> Reached(items, user, runtime, i + 1)
  {
    var rest := items[1..];
    if Reached(items, user, runtime, i + 1) {
      forall j | 0 <= j <= i
        ensures Readable(rest[j], user, runtime)
      {
        assert items[j + 1] == rest[j];
      }
    }
  }

  /** Item `i` is the one for which the key is removed. */
  predicate Hits(items: seq<(Key, Json)>, user: string, runtime: string, id: string, key: Key, i: nat) {
    && i < |items| && items[i].0 == key && Matches(key, items[i].1, user, runtime, id)
    && Reached(items, user, runtime, i)
  }

  lemma HitsRest(items: seq<(Key, Json)>, user: string, runtime: string, id: string, key: Key, i: nat)
    requires items != [] && Readable(items[0], user, runtime)
    ensures Hits(items[1..], user, runtime, id, key, i) <==> Hits(items, user, runtime, id, key, i + 1)
  {
    if i < |items[1..]| {
      ReachedRest(items, user, runtime, i);
    }
  }

  /** Exactly the reached items with the deleted id go, all of one user's runtime. */
  lemma {:induction false} SweptExactly(items: seq<(Key, Json)>, user: string, runtime: string, id: string, key: Key)
    ensures key in SweptKeys(items, user, runtime, id) <==> exists i: nat :: Hits(items, user, runtime, id, key, i)
  {
    if items != [] && Readable(items[0], user, runtime) {
      var rest := items[1..];
      SweptExactly(rest, user, runtime, id, key);
      if i: nat :| Hits(rest, user, runtime, id, key, i) {
        HitsRest(items, user, runtime, id, key, i);
        assert Hits(items, user, runtime, id, key, i + 1);
      }
      if i: nat :| Hits(items, user, runtime, id, key, i) && i > 0 {
        HitsRest(items, user, runtime, id, key, i - 1);
        assert Hits(rest, user, runtime, id, key, i - 1);
      }
      if items[0].0 == key && Matches(key, items[0].1, user, runtime, id) {
        assert Hits(items, user, runtime, id, key, 0);
      }
    }
  }

  /** One more item of the sweep. */
  lemma SweptFrom(items: seq<(Key, Json)>, i: nat, user: string, runtime: string, id: string)
    requires i < |items|
    ensures SweptKeys(items[i..], user, runtime, id) ==
            if !Readable(items[i], user, runtime) then {}
            else (if Matches(items[i].0, items[i].1, user, runtime, id) then {items[i].0} else {}) +
                 SweptKeys(items[i + 1..], user, runtime, id)
  {
    assert items[i..][0] == items[i] && items[i..][1..] == items[i + 1..];
  }

  // ---------------------------------------------------------------------------------------------
  // The code's own form.

  class KernelCreationGuard {
    var locked: bool
    var references: int

    constructor ()
      ensures !locked && references == 0
    {
      locked := false;
      references := 0;
    }
  }

  class Gateway {
    var guards: map<Key, KernelCreationGuard>
    var kernels: map<Key, Json>

    constructor ()
      ensures guards == map[] && kernels == map[]
    {
      guards := map[];
      kernels := map[];
    }

    /** The first block of acquire_kernel_creation_guard. */
    method TakeReference(key: Key) returns (guard: KernelCreationGuard)
      modifies this`guards, if key in guards then {guards[key]} else {}
      ensures guard == Entry(old(guards), key, guard) && guards == old(guards)[key := guard]
      ensures key !in old(guards) ==> fresh(guard) && !guard.locked && guard.references == 1
      ensures key in old(guards) ==>
                guard.references == old(guards[key].references) + 1 && guard.locked == old(guards[key].locked)
    {
      if key in guards {
        guard := guards[key];
      } else {
        guard := new KernelCreationGuard();
        guards := guards[key := guard];
      }
      guard.references := guard.references + 1;
    }

    /** The decrement of release_kernel_creation_guard (`checked`) and of the cancelled acquire. */
    method DropReference(key: Key, guard: KernelCreationGuard, checked: bool)
      modifies this`guards, guard`references
      ensures guard.references == old(guard.references) - 1
      ensures guards == Popped(old(guards), key, guard, guard.references, checked)
    {
      guard.references := guard.references - 1;
      if guard.references == 0 && (!checked || (key in guards && guards[key] == guard)) {
        guards := guards - {key};
      }
    }

    /** The bookkeeping of a proxied DELETE; `ok` is false when it raised. */
    method ForgetKernel(items: seq<(Key, Json)>, user: string, runtime: string, id: string) returns (ok: bool)
      modifies this`kernels
      ensures kernels == Sweep(old(kernels), items, user, runtime, id)
      ensures ok <==> forall i :: 0 <= i < |items| ==> Readable(items[i], user, runtime)
    {
      ghost var swept := {};
      var i := 0;
      while i < |items|
        invariant 0 <= i <= |items|
        invariant SweptKeys(items, user, runtime, id) == swept + SweptKeys(items[i..], user, runtime, id)
        invariant kernels == old(kernels) - swept
        invariant forall j :: 0 <= j < i ==> Readable(items[j], user, runtime)
      {
        var k, v := items[i].0, items[i].1;
        SweptFrom(items, i, user, runtime, id);
        if k.user == user && k.runtime == runtime {
          if !v.Obj? {
            return false;
          }
          if Field(v.fields, "id") == Some(Str(id)) {
            kernels := kernels - {k};
            swept := swept + {k};
          }
        }
        i := i + 1;
      }
      return true;
    }
  }

  // ---------------------------------------------------------------------------------------------
  // Tasks.

  /** Program points of a POST to api/kernels with a notebook id, and of a DELETE. A Dead task raised
      between taking its guard and the `try` whose `finally` would give it back. */
  datatype Pc =
    | Enter(key: Key)
    | Wait(key: Key, guard: nat)
    | GiveUp(key: Key, guard: nat)
    | Check(key: Key, guard: nat)
    | Create(key: Key, guard: nat)
    | Unlock(key: Key, guard: nat)
    | Leave(key: Key, guard: nat)
    | Dead(key: Key, guard: nat)
    | Delete(user: string, runtime: string, id: string)
    | Done

  datatype Guard = Guard(locked: bool, references: int)

  datatype Event = Recorded(key: Key, kernel: Json) | Removed(key: Key)

  /** `log` is history: what was recorded in and removed from the kernel map. */
  datatype State = State(
    entries: map<Key, nat>,
    guards: map<nat, Guard>,
    kernels: map<Key, Json>,
    tasks: map<nat, Pc>,
    log: seq<Event>)

  /** The environment: the identity of a new guard object, cancellation, the upstream's answer to a
      creation (None: not a success, not JSON, or an exception), and the order of the items. */
  datatype Env = Env(created: nat, cancelled: bool, answer: Option<Json>, items: seq<(Key, Json)>)

  datatype Action =
    | BeginCreate(task: nat, key: Key)
    | BeginDelete(task: nat, user: string, runtime: string, id: string)
    | Advance(task: nat, env: Env)

  function Goto(s: State, t: nat, pc: Pc): State {
    s.(tasks := s.tasks[t := pc])
  }

  /** The removal of each of the keys, in some order. */
  ghost function RemovedEvents(keys: set<Key>): (r: seq<Event>)
    ensures forall e <- r :: e.Removed? && e.key in keys
    ensures forall k <- keys :: Removed(k) in r
    ensures forall i, j :: 0 <= i < j < |r| ==> r[i].key != r[j].key
  {
    if keys == {} then [] else var k :| k in keys; [Removed(k)] + RemovedEvents(keys - {k})
  }

  /** One step of a task. A disabled step leaves the state alone. */
  ghost function TaskStep(s: State, t: nat, pc: Pc, e: Env): State {
    match pc
    case Enter(key) =>
      if e.cancelled then Goto(s, t, Done)
      else if key !in s.entries && e.created in s.guards then s
      else
        var g := Entry(s.entries, key, e.created);
        var guard := if g in s.guards then s.guards[g] else Guard(false, 0);
        Goto(s.(entries := s.entries[key := g], guards := s.guards[g := guard.(references := guard.references + 1)]),
             t, Wait(key, g))
    case Wait(key, g) =>
      if e.cancelled then Goto(s, t, GiveUp(key, g))
      else if g !in s.guards || s.guards[g].locked then s
      else Goto(s.(guards := s.guards[g := s.guards[g].(locked := true)]), t, Check(key, g))
    case GiveUp(key, g) => Goto(Drop(s, key, g, false), t, Done)
    case Check(key, g) =>
      if key in s.kernels && Truthy(s.kernels[key]) then
        Goto(s, t, if s.kernels[key].Obj? then Unlock(key, g) else Dead(key, g))
      else Goto(s, t, Create(key, g))
    case Create(key, g) =>
      if e.cancelled || e.answer.None? then Goto(s, t, Unlock(key, g))
      else Goto(s.(kernels := s.kernels[key := e.answer.value], log := s.log + [Recorded(key, e.answer.value)]),
                t, Unlock(key, g))
    case Unlock(key, g) =>
      if g !in s.guards then s
      else Goto(s.(guards := s.guards[g := s.guards[g].(locked := false)]), t, Leave(key, g))
    case Leave(key, g) => Goto(Drop(s, key, g, true), t, Done)
    case Delete(user, runtime, id) =>
      if !ItemsOf(e.items, s.kernels) then s
      else
        var swept := SweptKeys(e.items, user, runtime, id);
        Goto(s.(kernels := Sweep(s.kernels, e.items, user, runtime, id), log := s.log + RemovedEvents(swept)), t, Done)
    case Dead(_, _) => s
    case Done => s
  }

  function Drop(s: State, key: Key, g: nat, checked: bool): State {
    if g !in s.guards then s
    else
      var left := s.guards[g].references - 1;
      s.(guards := s.guards[g := s.guards[g].(references := left)],
         entries := Popped(s.entries, key, g, left, checked))
  }

  ghost function Step(s: State, a: Action): State {
    match a
    case BeginCreate(t, key) => if t in s.tasks then s else Goto(s, t, Enter(key))
    case BeginDelete(t, user, runtime, id) => if t in s.tasks then s else Goto(s, t, Delete(user, runtime, id))
    case Advance(t, e) => if t in s.tasks then TaskStep(s, t, s.tasks[t], e) else s
  }

  ghost function Exec(s: State, actions: seq<Action>): State
    decreases |actions|
  {
    if actions == [] then s else Step(Exec(s, actions[..|actions| - 1]), actions[|actions| - 1])
  }

  const INIT := State(map[], map[], map[], map[], [])

  // ---------------------------------------------------------------------------------------------
  // Invariant.

  /** The guard a task holds a reference to. */
  function Refers(pc: Pc): Option<nat> {
    if pc.Wait? || pc.GiveUp? || pc.Check? || pc.Create? || pc.Unlock? || pc.Leave? || pc.Dead? then Some(pc.guard)
    else None
  }

  /** The task is between acquiring its guard's lock and releasing it. */
  predicate Inside(pc: Pc) {
    pc.Check? || pc.Create? || pc.Unlock? || pc.Dead?
  }

  ghost function Referrers(tasks: map<nat, Pc>, g: nat): set<nat> {
    set t | t in tasks && Refers(tasks[t]) == Some(g)
  }

  ghost predicate TableOk(s: State) {
    && (forall k :: k in s.entries ==> s.entries[k] in s.guards && s.guards[s.entries[k]].references > 0)
    && (forall g :: g in s.guards ==> s.guards[g].references == |Referrers(s.tasks, g)|)
  }

  /** A task's guard is the table's entry for the task's key. */
  ghost predicate TasksOk(s: State) {
    forall t :: t in s.tasks && Refers(s.tasks[t]).Some? ==>
      && s.tasks[t].key in s.entries && s.entries[s.tasks[t].key] == s.tasks[t].guard
      && s.tasks[t].guard in s.guards
  }

  /** No two keys share a guard. */
  ghost predicate EntriesDistinct(s: State) {
    forall j, k :: j in s.entries && k in s.entries && s.entries[j] == s.entries[k] ==> j == k
  }

  ghost predicate LocksOk(s: State) {
    && (forall t :: t in s.tasks && Inside(s.tasks[t]) ==>
        s.tasks[t].guard in s.guards && s.guards[s.tasks[t].guard].locked)
    && (forall t, u | t in s.tasks && u in s.tasks && Inside(s.tasks[t]) && Inside(s.tasks[u]) ::
          s.tasks[t].guard == s.tasks[u].guard ==> t == u)
    && (forall g :: g in s.guards && s.guards[g].locked ==>
        exists t :: t in s.tasks && Inside(s.tasks[t]) && s.tasks[t].guard == g)
  }

  /** A task that is creating a kernel has seen none it could reuse, and still would not. */
  ghost predicate CreationsOk(s: State) {
    forall t :: t in s.tasks && s.tasks[t].Create? ==> Absent(s.kernels, s.tasks[t].key)
  }

  predicate Absent(kernels: map<Key, Json>, key: Key) {
    key in kernels ==> !Truthy(kernels[key])
  }

  function Apply(kernels: map<Key, Json>, e: Event): map<Key, Json> {
    match e
    case Recorded(key, kernel) => kernels[key := kernel]
    case Removed(key) => kernels - {key}
  }

  /** The kernel map the log describes. */
  function Replay(log: seq<Event>): map<Key, Json>
    decreases |log|
  {
    if log == [] then map[] else Apply(Replay(log[..|log| - 1]), log[|log| - 1])
  }

  /** A recording finds nothing to reuse, and a removal removes something that would have been reused. */
  predicate EventOk(kernels: map<Key, Json>, e: Event) {
    match e
    case Recorded(key, _) => Absent(kernels, key)
    case Removed(key) => key in kernels && Truthy(kernels[key])
  }

  ghost predicate LogOk(log: seq<Event>) {
    forall j :: 0 <= j < |log| ==> EventOk(Replay(log[..j]), log[j])
  }

  ghost predicate Inv(s: State) {
    && TableOk(s) && TasksOk(s) && EntriesDistinct(s) && LocksOk(s) && CreationsOk(s)
    && s.kernels == Replay(s.log) && LogOk(s.log)
  }
}
