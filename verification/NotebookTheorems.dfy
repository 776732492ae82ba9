/** What every run of the notebook service keeps. `Exec(INIT, actions)` ranges over all reachable
    states: any number of concurrent requests, retries and duplicates, failing calls and crashes. */
module NotebookTheorems {
  import opened Common
  import opened Json
  import opened Etag
  import opened NotebookRepository
  import opened NotebookService
  import opened NotebookServiceProofs

  // ---------------------------------------------------------------------------------------------
  // Exactly-once writes.

  /** The success record `rk` is the one that wrote the revision `k`. */
  predicate Wrote(st: Store, rk: RecordKey, k: RevisionKey) {
    && rk in st.db.records && WroteRevision(rk, st.db.records[rk])
    && (st.db.records[rk].notebook, st.db.records[rk].revision) == k
  }

  /** Success records that are not `unchanged` and revision rows correspond one to one. */
  lemma ExactlyOnce(actions: seq<Action>)
    ensures var st := Exec(INIT, actions).store;
            && (forall k :: k in st.db.revisions ==> exists rk :: Wrote(st, rk, k))
            && (forall rk, k :: Wrote(st, rk, k) ==> k in st.db.revisions)
            && (forall rk, rk', k :: Wrote(st, rk, k) && Wrote(st, rk', k) ==> rk == rk')
  {
    ReachableInv(actions);
    var st := Exec(INIT, actions).store;
    forall k | k in st.db.revisions
      ensures exists rk :: Wrote(st, rk, k)
    {
      assert RevisionOk(st, k);
      assert Wrote(st, st.author[k], k);
    }
    forall rk, k | Wrote(st, rk, k)
      ensures k in st.db.revisions && k in st.author && st.author[k] == rk
    {
      assert RecordOk(st, rk);
    }
  }

  /** A notebook's revisions are exactly 1..current, the head repeats the last row, and no revision
      repeats the content of the one before. */
  lemma HistoryShape(actions: seq<Action>, id: string)
    requires id in Exec(INIT, actions).store.db.notebooks
    ensures var db := Exec(INIT, actions).store.db;
            var head := db.notebooks[id];
            && head.current >= 1
            && (forall r: nat :: (id, r) in db.revisions <==> 1 <= r <= head.current)
            && head.hash == db.revisions[(id, head.current)].hash
            && head.updatedAt == db.revisions[(id, head.current)].createdAt
            && (forall r: nat, q: nat :: (id, r) in db.revisions && (id, q) in db.revisions && q == r + 1
                  ==> db.revisions[(id, r)].hash != db.revisions[(id, q)].hash)
  {
    ReachableInv(actions);
    assert NotebookOk(Exec(INIT, actions).store.db, id);
  }

  /** Revision r + 1 was committed by a request whose base was r, and holds that request's document. */
  lemma BaseOfRevision(actions: seq<Action>, id: string, r: nat)
    requires r >= 1 && (id, r + 1) in Exec(INIT, actions).store.db.revisions
    ensures var st := Exec(INIT, actions).store;
            exists rk :: && Wrote(st, rk, (id, r + 1)) && rk in st.commits && st.commits[rk].base == Some(r)
                         && st.db.revisions[(id, r + 1)].hash == DocHash(st.commits[rk].doc)
  {
    ReachableInv(actions);
    var st := Exec(INIT, actions).store;
    var k: RevisionKey := (id, r + 1);
    assert RevisionOk(st, k);
    var rk := st.author[k];
    assert Wrote(st, rk, k) && rk in st.commits && st.commits[rk].base == Some(r);
  }

  // ---------------------------------------------------------------------------------------------
  // Durable reads.

  /** The row is there later, unchanged, and its content reads back as the document saved as it. */
  predicate StillReadable(st: Store, st': Store, k: RevisionKey)
    requires k in st.db.revisions
  {
    && k in st.saved && k in st'.db.revisions && st'.db.revisions[k] == st.db.revisions[k]
    && ReadContent(st'.blobs, st'.db.revisions[k]) == Some(st.saved[k])
  }

  /** A committed revision stays readable, row and document unchanged, whatever happens later. */
  lemma CommittedStaysReadable(actions: seq<Action>, i: nat, k: RevisionKey)
    requires i <= |actions| && k in Exec(INIT, actions[..i]).store.db.revisions
    ensures StillReadable(Exec(INIT, actions[..i]).store, Exec(INIT, actions).store, k)
  {
    ReachableInv(actions[..i]);
    ReachableInv(actions);
    RunGrows(actions, i);
    ReadableLater(Exec(INIT, actions[..i]).store, Exec(INIT, actions).store, k);
  }

  lemma ReadableLater(st: Store, st': Store, k: RevisionKey)
    requires StoreOk(st) && StoreOk(st') && Grows(st, st') && k in st.db.revisions
    ensures StillReadable(st, st', k) && k in st'.saved && st'.saved[k] == st.saved[k]
  {
    RevisionReadable(st, k);
    RevisionReadable(st', k);
  }

  /** The missing-row, missing-blob, hash-mismatch and undecodable branches are never reached. */
  lemma NoInternalError(actions: seq<Action>, t: nat)
    requires t in Exec(INIT, actions).threads && Exec(INIT, actions).threads[t].Finished?
    ensures Exec(INIT, actions).threads[t].response != Failed(InternalError)
  {
    ReachableInv(actions);
    var s := Exec(INIT, actions);
    assert ThreadOk(s.store, s.threads[t]);
  }

  /** A read answers with the document saved as the revision it names. */
  lemma ReadsReturnSaved(actions: seq<Action>, t: nat, req: Request, g: GetResult)
    requires t in Exec(INIT, actions).threads && Exec(INIT, actions).threads[t] == Finished(req, GetOk(g))
    ensures var st := Exec(INIT, actions).store;
            && (g.id, g.revision) in st.db.revisions && (g.id, g.revision) in st.saved
            && g.hash == DocHash(st.saved[(g.id, g.revision)])
            && (g.content.Some? ==> g.content.value == st.saved[(g.id, g.revision)])
            && g.etag == FormatEtag(g.id, g.revision)
  {
    ReachableInv(actions);
    var s := Exec(INIT, actions);
    assert ThreadOk(s.store, s.threads[t]);
    assert RevisionOk(s.store, (g.id, g.revision));
  }

  // ---------------------------------------------------------------------------------------------
  // Replay stability.

  /** All creates that ever succeed with one key carried the same request hash and got the same answer:
      status, id, title, revision, hash, timestamps, content, Location and ETag. */
  lemma CreateReplaysAgree(actions: seq<Action>, t: nat, u: nat, r: Request, q: Request, c: CreateResult,
                           d: CreateResult)
    requires t in Exec(INIT, actions).threads && Exec(INIT, actions).threads[t] == Finished(r, CreateOk(c))
    requires u in Exec(INIT, actions).threads && Exec(INIT, actions).threads[u] == Finished(q, CreateOk(d))
    requires r.CreateReq? && q.CreateReq? && r.body.key == q.body.key
    ensures r.body.requestHash == q.body.requestHash && c == d
  {
    ReachableInv(actions);
    var s := Exec(INIT, actions);
    assert ThreadOk(s.store, s.threads[t]) && ThreadOk(s.store, s.threads[u]);
  }

  lemma SaveReplaysAgree(actions: seq<Action>, t: nat, u: nat, r: Request, q: Request, c: SaveResult, d: SaveResult)
    requires t in Exec(INIT, actions).threads && Exec(INIT, actions).threads[t] == Finished(r, SaveOk(c))
    requires u in Exec(INIT, actions).threads && Exec(INIT, actions).threads[u] == Finished(q, SaveOk(d))
    requires r.SaveReq? && q.SaveReq? && r.body.key == q.body.key
    ensures r.body.requestHash == q.body.requestHash && c == d
  {
    ReachableInv(actions);
    var s := Exec(INIT, actions);
    assert ThreadOk(s.store, s.threads[t]) && ThreadOk(s.store, s.threads[u]);
  }

  lemma TransactStep(st: Store, req: Request, e: Env)
    requires !e.fails && (req.CreateReq? ==> e.id !in st.db.notebooks)
    ensures req.SaveReq? ==> ThreadStep(st, Transact(req), e) == TransactSave(st, req)
    ensures req.CreateReq? ==> ThreadStep(st, Transact(req), e) == TransactCreate(st, req, e.id)
  {
  }

  /** Once a save with this key has succeeded, a later transaction with the key answers KeyReused when
      the request hash differs, and the recorded result when it agrees, whatever the head is by then;
      neither changes anything. */
  lemma SaveKeyIsSettled(actions: seq<Action>, t: nat, req: Request, e: Env)
    requires t in Exec(INIT, actions).threads && Exec(INIT, actions).threads[t] == Transact(req) && !e.fails
    requires req.SaveReq? && (PutNotebook, req.body.key) in Exec(INIT, actions).store.db.records
    ensures Inv(Exec(INIT, actions))
    ensures var s := Exec(INIT, actions);
            var s' := Step(s, Advance(t, e));
            && s'.store == s.store
            && s'.threads[t] == Finished(req,
                 var rec := s.store.db.records[(PutNotebook, req.body.key)];
                 if rec.requestHash != req.body.requestHash then Failed(KeyReused)
                 else SaveOk(SaveAnswer(s.store, req.body.key)))
  {
    ReachableInv(actions);
    var s := Exec(INIT, actions);
    StepOf(s, t, Advance(t, e));
    TransactStep(s.store, req, e);
    SaveReplayIs(s.store, req);
  }

  lemma SaveReplayIs(st: Store, req: Request)
    requires StoreOk(st) && req.SaveReq? && (PutNotebook, req.body.key) in st.db.records
    ensures TransactSave(st, req) == (st, Finished(req,
              if st.db.records[(PutNotebook, req.body.key)].requestHash != req.body.requestHash then Failed(KeyReused)
              else SaveOk(SaveAnswer(st, req.body.key))))
  {
    ReplayOk(st, (PutNotebook, req.body.key), req.body.requestHash);
    ReplayedSaveOk(st, req);
    ReplayedSave(st, req);
  }

  /** The thread that replays a create: it has read the rows of the recorded revision. */
  function ReplayPc(st: Store, req: Request): Pc
    requires req.CreateReq? && (PostNotebooks, req.body.key) in st.db.records
    requires var rec := st.db.records[(PostNotebooks, req.body.key)];
             rec.notebook in st.db.notebooks && (rec.notebook, rec.revision) in st.db.revisions
  {
    var rec := st.db.records[(PostNotebooks, req.body.key)];
    ReadReplay(req, st.db.notebooks[rec.notebook], st.db.revisions[(rec.notebook, rec.revision)], rec)
  }

  lemma CreateReplayIs(st: Store, req: Request, id: string)
    requires StoreOk(st) && req.CreateReq? && (PostNotebooks, req.body.key) in st.db.records
    ensures var rec := st.db.records[(PostNotebooks, req.body.key)];
            && rec.notebook in st.db.notebooks && (rec.notebook, rec.revision) in st.db.revisions
            && TransactCreate(st, req, id) ==
                 (st, if rec.requestHash != req.body.requestHash then Finished(req, Failed(KeyReused))
                      else ReplayPc(st, req))
  {
    ReplayOk(st, (PostNotebooks, req.body.key), req.body.requestHash);
    ReplayedCreate(st, req, id);
  }

  /** The replay's read finds the content that the first request committed. */
  lemma ReplayReads(st: Store, req: Request, e: Env)
    requires StoreOk(st) && req.CreateReq? && (PostNotebooks, req.body.key) in st.db.records && !e.fails
    requires var rec := st.db.records[(PostNotebooks, req.body.key)];
             rec.notebook in st.db.notebooks && (rec.notebook, rec.revision) in st.db.revisions
    ensures ThreadStep(st, ReplayPc(st, req), e) == (st, Finished(req, CreateOk(CreateAnswer(st, req.body.key))))
  {
    RecordedRows(st, req.body.key);
    var rec := st.db.records[(PostNotebooks, req.body.key)];
    var k: RevisionKey := (rec.notebook, 1);
    ReplayStep(st, req, st.db.notebooks[k.0], st.db.revisions[k], rec, e, st.saved[k]);
  }

  /** Two steps of the thread, when its first one leaves the store alone. */
  lemma TwoSteps(s: State, t: nat, e: Env, pc: Pc, last: Pc)
    requires t in s.threads && ThreadStep(s.store, s.threads[t], e) == (s.store, pc)
             && ThreadStep(s.store, pc, e) == (s.store, last)
    ensures var s' := Step(s, Advance(t, e));
            var s'' := Step(s', Advance(t, e));
            s''.store == s'.store == s.store && t in s''.threads && s''.threads[t] == last
  {
    StepOf(s, t, Advance(t, e));
    StepOf(Step(s, Advance(t, e)), t, Advance(t, e));
  }

  /** Where the thread is after two of its steps. */
  ghost predicate SettledIn(s: State, t: nat, req: Request, e: Env)
    requires Inv(s) && req.CreateReq? && (PostNotebooks, req.body.key) in s.store.db.records
  {
    var s' := Step(s, Advance(t, e));
    var s'' := Step(s', Advance(t, e));
    && s''.store == s'.store == s.store && t in s''.threads
    && s''.threads[t] == Finished(req,
         if s.store.db.records[(PostNotebooks, req.body.key)].requestHash != req.body.requestHash then Failed(KeyReused)
         else CreateOk(CreateAnswer(s.store, req.body.key)))
  }

  lemma RefusedTwice(s: State, t: nat, req: Request, e: Env)
    requires t in s.threads && ThreadStep(s.store, s.threads[t], e) == (s.store, Finished(req, Failed(KeyReused)))
    ensures var s' := Step(s, Advance(t, e));
            var s'' := Step(s', Advance(t, e));
            s''.store == s'.store == s.store && t in s''.threads && s''.threads[t] == Finished(req, Failed(KeyReused))
  {
    var refused := Finished(req, Failed(KeyReused));
    assert ThreadStep(s.store, refused, e) == (s.store, refused);
    TwoSteps(s, t, e, refused, refused);
  }

  lemma CreateSettles(s: State, t: nat, req: Request, e: Env)
    requires Inv(s) && t in s.threads && s.threads[t] == Transact(req) && !e.fails && e.id !in s.store.db.notebooks
    requires req.CreateReq? && (PostNotebooks, req.body.key) in s.store.db.records
    ensures SettledIn(s, t, req, e)
  {
    TransactStep(s.store, req, e);
    CreateReplayIs(s.store, req, e.id);
    if s.store.db.records[(PostNotebooks, req.body.key)].requestHash != req.body.requestHash {
      RefusedTwice(s, t, req, e);
    } else {
      ReplayReads(s.store, req, e);
      TwoSteps(s, t, e, ReplayPc(s.store, req), Finished(req, CreateOk(CreateAnswer(s.store, req.body.key))));
    }
  }

  /** The same for a create: a different request hash is refused, and an equal one goes on to read the
      content and answers with the recorded result, two steps later when nothing fails in between. */
  lemma CreateKeyIsSettled(actions: seq<Action>, t: nat, req: Request, e: Env)
    requires t in Exec(INIT, actions).threads && Exec(INIT, actions).threads[t] == Transact(req)
    requires !e.fails && e.id !in Exec(INIT, actions).store.db.notebooks
    requires req.CreateReq? && (PostNotebooks, req.body.key) in Exec(INIT, actions).store.db.records
    ensures Inv(Exec(INIT, actions)) && SettledIn(Exec(INIT, actions), t, req, e)
  {
    ReachableInv(actions);
    CreateSettles(Exec(INIT, actions), t, req, e);
  }

  /** The durable state but for the blobs, of which an unreferenced one may be left behind. */
  predicate SameRows(st: Store, st': Store) {
    st'.(blobs := st.blobs) == st
  }

  predicate Succeeded(pc: Pc) {
    pc.Finished? && !pc.response.Failed?
  }

  lemma CreateWrites(st: Store, req: Request, id: string)
    requires req.CreateReq?
    ensures TransactCreate(st, req, id).0 == st || Succeeded(TransactCreate(st, req, id).1)
  {
  }

  lemma SaveWrites(st: Store, req: Request)
    requires req.SaveReq?
    ensures TransactSave(st, req).0 == st || Succeeded(TransactSave(st, req).1)
  {
  }

  /** Only the step that commits writes a row or a record, and it finishes its request with a success; and a
      step that fails its request leaves the blobs alone too. */
  lemma ThreadWrites(st: Store, pc: Pc, e: Env)
    ensures var r := ThreadStep(st, pc, e);
            && (SameRows(st, r.0) || Succeeded(r.1))
            && (r.1.Finished? && r.1.response.Failed? ==> r.0 == st)
  {
    match pc
    case Transact(req) =>
      if req.CreateReq? {
        CreateWrites(st, req, e.id);
      } else if req.SaveReq? {
        SaveWrites(st, req);
      }
    case PutBlob(_) =>
    case ExistsBlob(_) =>
    case ReadReplay(_, _, _, _) =>
    case ReadHead(_) =>
    case ReadRow(_, _) =>
    case ReadBlob(_, _, _) =>
    case Finished(_, _) =>
    case Crashed =>
  }

  /** The request has failed, or its thread has died. */
  predicate Unsuccessful(pc: Pc) {
    pc.Crashed? || (pc.Finished? && pc.response.Failed?)
  }

  /** A request that ends in a failure, for whatever reason, or dies, has written no row and no record in any
      of its steps. */
  lemma FailureWritesNothing(actions: seq<Action>, t: nat, j: nat)
    requires j < |actions| && actions[j].Advance? && actions[j].thread == t
    requires t in Exec(INIT, actions).threads && Unsuccessful(Exec(INIT, actions).threads[t])
    ensures SameRows(Exec(INIT, actions[..j]).store, Exec(INIT, actions[..j + 1]).store)
  {
    var a := actions[j];
    var s := Exec(INIT, actions[..j]);
    assert actions[..j + 1][..j] == actions[..j];
    if t in s.threads {
      StepOf(s, t, a);
      ThreadWrites(s.store, s.threads[t], a.env);
      var pc := Step(s, a).threads[t];
      if Succeeded(pc) {
        FinishedStays(actions, j + 1, t, pc);
      }
    }
  }

  // ---------------------------------------------------------------------------------------------
  // 304 answers.

  /** A read that has seen its head answers from that head. */
  predicate FollowsHead(pc: Pc, req: Request, head: NotebookRow) {
    match pc
    case ReadRow(r, h) => r == req && h == head
    case ReadBlob(r, h, row) => r == req && h == head && row.revision == head.current
    case Finished(r, GetOk(g)) => r == req && g.revision == head.current
    case Finished(r, Failed(_)) => r == req
    case Crashed => true
    case _ => false
  }

  lemma {:induction false} HeadFollowed(actions: seq<Action>, i: nat, t: nat, req: Request, head: NotebookRow)
    requires i <= |actions| && req.GetReq?
    requires t in Exec(INIT, actions[..i]).threads && Exec(INIT, actions[..i]).threads[t] == ReadRow(req, head)
    ensures t in Exec(INIT, actions).threads && FollowsHead(Exec(INIT, actions).threads[t], req, head)
    decreases |actions|
  {
    if i == |actions| {
      assert actions[..i] == actions;
    } else {
      var front := actions[..|actions| - 1];
      assert front[..i] == actions[..i];
      HeadFollowed(front, i, t, req, head);
      ReachableInv(front);
      var s, a := Exec(INIT, front), actions[|actions| - 1];
      if (req.id, head.current) in s.store.db.revisions {
        RevisionReadable(s.store, (req.id, head.current));
      }
      StepOf(s, t, a);
      if a.Advance? && a.thread == t {
        FollowThread(s.store, s.threads[t], req, head, a.env);
      }
    }
  }

  lemma FollowRow(st: Store, req: Request, head: NotebookRow, e: Env)
    requires req.GetReq?
    requires (req.id, head.current) in st.db.revisions ==>
             st.db.revisions[(req.id, head.current)].revision == head.current
    ensures FollowsHead(ThreadStep(st, ReadRow(req, head), e).1, req, head)
  {
  }

  lemma FollowBlob(st: Store, req: Request, head: NotebookRow, row: RevisionRow, e: Env)
    requires req.GetReq? && row.revision == head.current
    ensures FollowsHead(ThreadStep(st, ReadBlob(req, head, row), e).1, req, head)
  {
  }

  lemma FollowThread(st: Store, pc: Pc, req: Request, head: NotebookRow, e: Env)
    requires FollowsHead(pc, req, head) && req.GetReq?
    requires (req.id, head.current) in st.db.revisions ==>
             st.db.revisions[(req.id, head.current)].revision == head.current
    ensures FollowsHead(ThreadStep(st, pc, e).1, req, head)
  {
    match pc
    case ReadRow(r, h) => FollowRow(st, req, head, e);
    case ReadBlob(r, h, row) => FollowBlob(st, req, head, row, e);
    case Finished(r, response) => assert ThreadStep(st, pc, e).1 == pc;
    case Crashed => assert ThreadStep(st, pc, e).1 == pc;
  }

  /** A step of another thread leaves this one alone, and its own step is ThreadStep. */
  lemma StepOf(s: State, t: nat, a: Action)
    requires t in s.threads
    ensures t in Step(s, a).threads
    ensures a.Advance? && a.thread == t ==> Step(s, a).store == ThreadStep(s.store, s.threads[t], a.env).0
                                            && Step(s, a).threads[t] == ThreadStep(s.store, s.threads[t], a.env).1
    ensures !(a.Advance? && a.thread == t) ==> Step(s, a).threads[t] in {s.threads[t], Crashed}
  {
  }

  /** A read that is answered has seen a head, and answers from it. */
  lemma HeadAnswered(actions: seq<Action>, i: nat, t: nat, e: Env, req: Request, g: GetResult)
    requires i < |actions| && actions[i] == Advance(t, e) && req.GetReq?
    requires t in Exec(INIT, actions[..i]).threads && Exec(INIT, actions[..i]).threads[t] == ReadHead(req)
    requires t in Exec(INIT, actions).threads && Exec(INIT, actions).threads[t] == Finished(req, GetOk(g))
    ensures var db := Exec(INIT, actions[..i]).store.db;
            req.id in db.notebooks && g.revision == db.notebooks[req.id].current
  {
    var s := Exec(INIT, actions[..i]);
    assert actions[..i + 1][..i] == actions[..i];
    assert Exec(INIT, actions[..i + 1]) == Step(s, Advance(t, e));
    StepOf(s, t, Advance(t, e));
    HeadRead(s.store, req, e);
    if e.fails || req.id !in s.store.db.notebooks {
      FinishedStays(actions, i + 1, t, ThreadStep(s.store, ReadHead(req), e).1);
    }
    HeadFollowed(actions, i + 1, t, req, s.store.db.notebooks[req.id]);
  }

  lemma HeadRead(st: Store, req: Request, e: Env)
    requires req.GetReq?
    ensures ThreadStep(st, ReadHead(req), e).1 ==
            if e.fails then Finished(req, Failed(StorageUnavailable))
            else if req.id !in st.db.notebooks then Finished(req, Failed(NoSuchNotebook))
            else ReadRow(req, st.db.notebooks[req.id])
  {
  }

  /** A 304 names the revision whose content the client holds under the ETag it sent. */
  lemma HeldUnderEtag(st: Store, req: Request, g: GetResult, held: Request, h: GetResult)
    requires GetOkOk(st, req, g) && g.content.None? && GetOkOk(st, held, h) && h.content.Some?
    requires req.ifNoneMatch.Some? && Strip(req.ifNoneMatch.value) == h.etag
    ensures h.id == req.id && h.revision == g.revision && (req.id, h.revision) in st.saved
    ensures st.saved[(req.id, h.revision)] == h.content.value
  {
    EtagInjective(g.id, g.revision, h.id, h.revision);
  }

  /** A 304 is sound. Suppose a client holds content `c` under the ETag `etag`, from any earlier read,
      and its GET read the head after `i` actions and was answered 304 to If-None-Match `etag`. Then `c`
      is the document of the notebook asked for, at the revision that was current when the head was read. */
  lemma NotModifiedIsCurrent(actions: seq<Action>, i: nat, t: nat, u: nat, e: Env, req: Request, g: GetResult,
                             held: Request, h: GetResult)
    requires i < |actions| && actions[i] == Advance(t, e) && req.GetReq?
    requires t in Exec(INIT, actions[..i]).threads && Exec(INIT, actions[..i]).threads[t] == ReadHead(req)
    requires t in Exec(INIT, actions).threads && Exec(INIT, actions).threads[t] == Finished(req, GetOk(g))
             && g.content.None?
    requires u in Exec(INIT, actions).threads && Exec(INIT, actions).threads[u] == Finished(held, GetOk(h))
             && h.content.Some?
    requires req.ifNoneMatch.Some? && Strip(req.ifNoneMatch.value) == h.etag
    ensures var st := Exec(INIT, actions[..i]).store;
            && req.id in st.db.notebooks && h.id == req.id
            && g.revision == h.revision == st.db.notebooks[req.id].current
            && (req.id, h.revision) in st.saved && st.saved[(req.id, h.revision)] == h.content.value
  {
    HeadAnswered(actions, i, t, e, req, g);
    ReachableInv(actions);
    var s := Exec(INIT, actions);
    assert ThreadOk(s.store, s.threads[t]) && ThreadOk(s.store, s.threads[u]);
    HeldUnderEtag(s.store, req, g, held, h);
    ReachableInv(actions[..i]);
    RunGrows(actions, i);
    HeadIsSeen(Exec(INIT, actions[..i]).store, req.id);
    ReadableLater(Exec(INIT, actions[..i]).store, s.store, (req.id, h.revision));
  }

  /** A 304 of a past revision is sound as well: the content held under the ETag is the document saved as
      the revision that was asked for. */
  lemma NotModifiedRevision(actions: seq<Action>, t: nat, u: nat, req: Request, g: GetResult, held: Request,
                            h: GetResult)
    requires req.GetRevisionReq? && t in Exec(INIT, actions).threads && u in Exec(INIT, actions).threads
    requires Exec(INIT, actions).threads[t] == Finished(req, GetOk(g)) && g.content.None?
    requires Exec(INIT, actions).threads[u] == Finished(held, GetOk(h)) && h.content.Some?
    requires req.ifNoneMatch.Some? && Strip(req.ifNoneMatch.value) == h.etag
    ensures var st := Exec(INIT, actions).store;
            && h.id == g.id == req.id && h.revision == g.revision == req.revision
            && (req.id, req.revision) in st.saved && st.saved[(req.id, req.revision)] == h.content.value
  {
    ReachableInv(actions);
    var s := Exec(INIT, actions);
    assert ThreadOk(s.store, s.threads[t]) && ThreadOk(s.store, s.threads[u]);
    HeldUnderEtag(s.store, req, g, held, h);
  }

  /** A finished thread stays as it is. */
  lemma {:induction false} FinishedStays(actions: seq<Action>, i: nat, t: nat, pc: Pc)
    requires i <= |actions| && pc.Finished?
    requires t in Exec(INIT, actions[..i]).threads && Exec(INIT, actions[..i]).threads[t] == pc
    ensures t in Exec(INIT, actions).threads && Exec(INIT, actions).threads[t] == pc
    decreases |actions|
  {
    if i == |actions| {
      assert actions[..i] == actions;
    } else {
      var front := actions[..|actions| - 1];
      assert front[..i] == actions[..i];
      FinishedStays(front, i, t, pc);
    }
  }
}
