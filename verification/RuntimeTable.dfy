/** The runtime table: rows, the state graph, the compare-and-set update and `transition`
    (runtime-service/app/models.py, repository.py, service.py).

    The functions on maps are the specification; the classes below them are the code's own form and
    are proved equal to it. */
module RuntimeTable {
  import opened Common

  datatype RuntimeState = Queued | Requested | Provisioning | Starting | Ready | Stopping | Failed | Stopped

  datatype DesiredState = WantRunning | WantStopped

  datatype Row = Row(
    id: string,
    owner: string,
    profile: string,
    state: RuntimeState,
    desired: DesiredState,
    provider: string,
    ref: Option<string>,
    createdAt: int,
    updatedAt: int,
    lastActivityAt: int,
    failure: Option<string>)

  type Table = map<string, Row>

  /** The states the partial unique index ranges over. */
  predicate Active(st: RuntimeState) {
    st !in {Failed, Stopped}
  }

  /** Height of a state in the transition graph. */
  function Rank(st: RuntimeState): nat {
    match st
    case Queued => 7
    case Requested => 6
    case Provisioning => 5
    case Starting => 4
    case Ready => 3
    case Stopping => 2
    case Failed => 1
    case Stopped => 0
  }

  /** ALLOWED_TRANSITIONS. The graph is acyclic, and no edge leads from an inactive state to an active one. */
  function AllowedFrom(st: RuntimeState): (targets: set<RuntimeState>)
    ensures forall to <- targets :: Rank(to) < Rank(st)
    ensures forall to <- targets :: Active(to) ==> Active(st)
  {
    match st
    case Queued => {Requested, Failed, Stopping}
    case Requested => {Provisioning, Failed, Stopping}
    case Provisioning => {Starting, Failed, Stopping}
    case Starting => {Ready, Failed, Stopping}
    case Ready => {Failed, Stopping}
    case Stopping => {Stopped, Failed}
    case Failed => {Stopped}
    case Stopped => {}
  }

  /** The graph by its targets: one way up to READY, from every active state to FAILED, from every active state but
      itself to STOPPING, and from there or from FAILED to STOPPED. */
  lemma AllowedExactly(from: RuntimeState, to: RuntimeState)
    ensures to in AllowedFrom(from) <==>
            match to
            case Queued => false
            case Requested => from == Queued
            case Provisioning => from == Requested
            case Starting => from == Provisioning
            case Ready => from == Starting
            case Stopping => Active(from) && from != Stopping
            case Failed => Active(from)
            case Stopped => from == Stopping || from == Failed
  {
  }

  /** Some row other than `id` occupies the owner's slot in the partial unique index. */
  predicate SlotTaken(rows: Table, owner: string, id: string) {
    exists other :: other in rows && other != id && rows[other].owner == owner && Active(rows[other].state)
  }

  /** INSERT: None is the IntegrityError of the primary key or of the partial unique index. */
  function Insert(rows: Table, row: Row): (r: Option<Table>) {
    if row.id in rows || (Active(row.state) && SlotTaken(rows, row.owner, row.id)) then None
    else Some(rows[row.id := row])
  }

  ghost predicate IsNewestActive(rows: Table, owner: string, id: string) {
    && id in rows && rows[id].owner == owner && Active(rows[id].state)
    && forall other :: other in rows && rows[other].owner == owner && Active(rows[other].state)
                       ==> rows[other].createdAt <= rows[id].createdAt
  }

  /** find_active_by_user: the newest active row of the user. */
  ghost function FindActive(rows: Table, owner: string): (r: Option<Row>)
    ensures r.Some? ==> exists id :: IsNewestActive(rows, owner, id) && rows[id] == r.value
    ensures r.None? ==> forall id :: id in rows && rows[id].owner == owner ==> !Active(rows[id].state)
  {
    if exists id :: IsNewestActive(rows, owner, id) then
      var id :| IsNewestActive(rows, owner, id);
      Some(rows[id])
    else
      NewestActiveExists(rows, owner);
      None
  }

  /** A non-empty set of ids has one with the largest creation time. */
  lemma {:induction false} NewestOf(rows: Table, ids: set<string>) returns (best: string)
    requires ids != {} && ids <= rows.Keys
    ensures best in ids && forall id <- ids :: rows[id].createdAt <= rows[best].createdAt
    decreases ids
  {
    var id :| id in ids;
    var rest := ids - {id};
    if rest == {} {
      best := id;
      assert ids == {id};
    } else {
      var other := NewestOf(rows, rest);
      best := if rows[other].createdAt <= rows[id].createdAt then id else other;
      assert ids == rest + {id};
    }
  }

  lemma NewestActiveExists(rows: Table, owner: string)
    requires !exists id :: IsNewestActive(rows, owner, id)
    ensures forall id :: id in rows && rows[id].owner == owner ==> !Active(rows[id].state)
  {
    var ids := set id | id in rows && rows[id].owner == owner && Active(rows[id].state);
    if ids != {} {
      var best := NewestOf(rows, ids);
      assert IsNewestActive(rows, owner, best);
    }
    forall id | id in rows && rows[id].owner == owner
      ensures !Active(rows[id].state)
    {
      assert id !in ids;
    }
  }

  datatype UpdateResult = Updated(rows: Table) | NoMatch | IndexViolation

  /** update_if_state: the whole-row UPDATE guarded by the state column alone. The key, the owner and
      the creation time are not among the columns it sets. */
  function UpdateIfState(rows: Table, row: Row, expected: RuntimeState): (r: UpdateResult) {
    if row.id !in rows || rows[row.id].owner != row.owner || rows[row.id].state != expected then NoMatch
    else if Active(row.state) && SlotTaken(rows, row.owner, row.id) then IndexViolation
    else Updated(rows[row.id := row.(createdAt := rows[row.id].createdAt)])
  }

  datatype TransitionResult =
    | Moved(rows: Table, row: Row)
    | Concurrent
    | Invalid
    | Violation

  /** transition: check the graph, build the new row from the caller's snapshot, compare-and-set. */
  function Transition(rows: Table, snap: Row, to: RuntimeState, provider: Option<string>, ref: Option<string>,
                      failure: Option<string>, now: int): (r: TransitionResult) {
    if to !in AllowedFrom(snap.state) then Invalid
    else
      var updated := snap.(state := to, updatedAt := now,
                           provider := if provider.Some? then provider.value else snap.provider,
                           ref := if ref.Some? then ref else snap.ref,
                           failure := failure);
      match UpdateIfState(rows, updated, snap.state)
      case NoMatch => Concurrent
      case IndexViolation => Violation
      case Updated(after) => Moved(after, updated)
  }

  // ---------------------------------------------------------------------------------------------
  // The code's own form.

  /** A RuntimeRecord object; `transition` overwrites its fields in place. */
  class RuntimeRecord {
    var row: Row

    constructor (row: Row)
      ensures this.row == row
    {
      this.row := row;
    }
  }

  /** RuntimeRepository over the table user_runtimes. */
  class RuntimeRepository {
    var rows: Table

    constructor ()
      ensures rows == map[]
    {
      rows := map[];
    }

    method Create(row: Row) returns (ok: bool)
      modifies this
      ensures ok <==> Insert(old(rows), row).Some?
      ensures rows == if ok then Insert(old(rows), row).value else old(rows)
    {
      var slotTaken :=
        exists other :: other in rows && other != row.id && rows[other].owner == row.owner && Active(rows[other].state);
      if row.id in rows || (Active(row.state) && slotTaken) {
        ok := false;
      } else {
        rows := rows[row.id := row];
        ok := true;
      }
    }

    method FindActiveByUser(owner: string) returns (r: Option<Row>)
      ensures r.Some? ==> exists id :: IsNewestActive(rows, owner, id) && rows[id] == r.value
      ensures r.None? ==> forall id :: id in rows && rows[id].owner == owner ==> !Active(rows[id].state)
    {
      var candidates := set id | id in rows && rows[id].owner == owner && Active(rows[id].state);
      if candidates == {} {
        assert forall id :: id in rows && rows[id].owner == owner && Active(rows[id].state) ==> id in candidates;
        return None;
      }
      ghost var best := NewestOf(rows, candidates);
      var newest :| newest in candidates && forall id <- candidates :: rows[id].createdAt <= rows[newest].createdAt;
      assert IsNewestActive(rows, owner, newest) by {
        assert forall id :: id in rows && rows[id].owner == owner && Active(rows[id].state) ==> id in candidates;
      }
      return Some(rows[newest]);
    }

    method Update(row: Row, expected: RuntimeState) returns (r: UpdateResult)
      modifies this
      ensures r == UpdateIfState(old(rows), row, expected)
      ensures rows == if r.Updated? then r.rows else old(rows)
    {
      if row.id !in rows || rows[row.id].owner != row.owner || rows[row.id].state != expected {
        return NoMatch;
      }
      var slotTaken :=
        exists other :: other in rows && other != row.id && rows[other].owner == row.owner && Active(rows[other].state);
      if Active(row.state) && slotTaken {
        return IndexViolation;
      }
      rows := rows[row.id := row.(createdAt := rows[row.id].createdAt)];
      return Updated(rows);
    }
  }

  class RuntimeService {
    const repository: RuntimeRepository

    constructor (repository: RuntimeRepository)
      ensures this.repository == repository
    {
      this.repository := repository;
    }

    /** transition: on success the table and the caller's record both move; otherwise neither does. */
    method MoveTo(runtime: RuntimeRecord, to: RuntimeState, provider: Option<string>, ref: Option<string>,
                  failure: Option<string>, now: int) returns (r: TransitionResult)
      modifies runtime, repository
      ensures r == Transition(old(repository.rows), old(runtime.row), to, provider, ref, failure, now)
      ensures repository.rows == if r.Moved? then r.rows else old(repository.rows)
      ensures runtime.row == if r.Moved? then r.row else old(runtime.row)
    {
      var previous := runtime.row.state;
      if to !in AllowedFrom(previous) {
        return Invalid;
      }
      var updated := runtime.row;
      updated := updated.(state := to, updatedAt := now, failure := failure);
      if provider.Some? {
        updated := updated.(provider := provider.value);
      }
      if ref.Some? {
        updated := updated.(ref := ref);
      }
      var outcome := repository.Update(updated, previous);
      match outcome
      case NoMatch => return Concurrent;
      case IndexViolation => return Violation;
      case Updated(after) =>
        runtime.row := updated;
        return Moved(after, updated);
    }
  }
}
