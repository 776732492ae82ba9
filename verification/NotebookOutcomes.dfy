/** What each request to the notebook service is answered, exactly, in every run. */
module NotebookOutcomes {
  import opened Common
  import opened Json
  import opened Etag
  import opened NotebookRepository
  import opened NotebookService
  import opened NotebookServiceProofs
  import opened NotebookTheorems

  // ---------------------------------------------------------------------------------------------
  // A request from its beginning to its answer.

  ghost predicate Begun(actions: seq<Action>, k: nat, t: nat, req: Request) {
    k < |actions| && actions[k] == Begin(t, req) && t !in Exec(INIT, actions[..k]).threads
  }

  /** The thread works on the request, has answered it, or is dead. */
  predicate WorksOn(pc: Pc, req: Request) {
    match pc
    case PutBlob(r) => r == req
    case ExistsBlob(r) => r == req
    case Transact(r) => r == req
    case ReadReplay(r, _, _, _) => r == req
    case ReadHead(r) => r == req
    case ReadRow(r, _) => r == req
    case ReadBlob(r, _, _) => r == req
    case Finished(r, _) => r == req
    case Crashed => true
  }

  lemma CreateWorksOn(st: Store, req: Request, id: string)
    requires req.CreateReq?
    ensures WorksOn(TransactCreate(st, req, id).1, req)
  {
  }

  lemma SaveWorksOn(st: Store, req: Request)
    requires req.SaveReq?
    ensures WorksOn(TransactSave(st, req).1, req)
  {
  }

  lemma StepWorksOn(st: Store, pc: Pc, e: Env, req: Request)
    requires WorksOn(pc, req)
    ensures WorksOn(ThreadStep(st, pc, e).1, req)
  {
    match pc
    case Transact(r) =>
      if r.CreateReq? { CreateWorksOn(st, r, e.id); }
      if r.SaveReq? { SaveWorksOn(st, r); }
    case ReadReplay(r, notebook, row, replay) =>
    case ReadHead(r) =>
    case ReadRow(r, head) =>
    case ReadBlob(r, head, row) =>
    case PutBlob(r) =>
    case ExistsBlob(r) =>
    case Finished(_, _) => assert ThreadStep(st, pc, e).1 == pc;
    case Crashed => assert ThreadStep(st, pc, e).1 == pc;
  }

  lemma {:induction false} WorksThroughout(actions: seq<Action>, k: nat, t: nat, req: Request)
    requires Begun(actions, k, t, req)
    ensures t in Exec(INIT, actions).threads && WorksOn(Exec(INIT, actions).threads[t], req)
    decreases |actions|
  {
    var n := |actions| - 1;
    if k < n {
      assert actions[..n][..k] == actions[..k];
      WorksThroughout(actions[..n], k, t, req);
      var s := Exec(INIT, actions[..n]);
      StepOf(s, t, actions[n]);
      if actions[n].Advance? && actions[n].thread == t {
        StepWorksOn(s.store, s.threads[t], actions[n].env, req);
      }
    }
  }

  predicate Open(pc: Pc) {
    !pc.Finished? && !pc.Crashed?
  }

  /** Action `j` is the step in which the thread answers. */
  ghost predicate Answers(actions: seq<Action>, j: nat, t: nat, req: Request, r: Response) {
    && j < |actions| && actions[j].Advance? && actions[j].thread == t
    && t in Exec(INIT, actions[..j]).threads && Open(Exec(INIT, actions[..j]).threads[t])
    && WorksOn(Exec(INIT, actions[..j]).threads[t], req)
    && ThreadStep(Exec(INIT, actions[..j]).store, Exec(INIT, actions[..j]).threads[t], actions[j].env).1 ==
       Finished(req, r)
  }

  lemma JustBegun(actions: seq<Action>, t: nat, req: Request)
    requires actions != [] && Begun(actions, |actions| - 1, t, req)
    ensures t in Exec(INIT, actions).threads && Exec(INIT, actions).threads[t] == Start(req)
    ensures !Start(req).Finished?
  {
  }

  /** An answered request has been answered in a step of its own. */
  lemma {:induction false} AnsweringStep(actions: seq<Action>, k: nat, t: nat, req: Request, r: Response)
    returns (j: nat)
    requires Begun(actions, k, t, req) && t in Exec(INIT, actions).threads
    requires Exec(INIT, actions).threads[t] == Finished(req, r)
    ensures k < j && Answers(actions, j, t, req, r)
    decreases |actions|
  {
    var n := |actions| - 1;
    if k == n {
      JustBegun(actions, t, req);
      assert false;
    } else {
      var front := actions[..n];
      assert front[..k] == actions[..k];
      WorksThroughout(front, k, t, req);
      StepOf(Exec(INIT, front), t, actions[n]);
      if Open(Exec(INIT, front).threads[t]) {
        j := n;
      } else {
        StaysAnswered(Exec(INIT, front), t, actions[n]);
        j := AnsweringStep(front, k, t, req, r);
        assert front[..j] == actions[..j] && front[j] == actions[j];
      }
    }
  }

  lemma StaysAnswered(s: State, t: nat, a: Action)
    requires t in s.threads && !Open(s.threads[t])
    ensures t in Step(s, a).threads && Step(s, a).threads[t] == s.threads[t]
  {
  }

  // ---------------------------------------------------------------------------------------------
  // Reads.

  /** What a read is answered, given the rows at its answering step and whether that step's call fails. */
  ghost predicate ReadAnswer(st: Store, req: Request, fails: bool, r: Response)
    requires IsRead(req)
  {
    var known := req.id in st.db.notebooks;
    var kept := req.GetRevisionReq? ==> (req.id, req.revision) in st.db.revisions;
    && (r == Failed(StorageUnavailable) <==> fails)
    && (r == Failed(NoSuchNotebook) <==> !fails && !known)
    && (r == Failed(NoSuchRevision) <==> !fails && known && !kept)
    && (r.GetOk? <==> !fails && known && kept)
    && (r.GetOk? ==> GetOkOk(st, req, r.got))
  }

  lemma HeadAnswer(st: Store, req: Request, e: Env, r: Response)
    requires IsRead(req) && ThreadStep(st, ReadHead(req), e).1 == Finished(req, r)
    ensures ReadAnswer(st, req, e.fails, r)
  {
  }

  /** The row that a read looks for. */
  function Wanted(req: Request, head: NotebookRow): RevisionKey
    requires IsRead(req)
  {
    (req.id, if req.GetReq? then head.current else req.revision)
  }

  /** What a seen head and a found row say about the store. */
  ghost predicate RowKnown(st: Store, req: Request, head: NotebookRow)
    requires IsRead(req)
  {
    var k := Wanted(req, head);
    && head.id == req.id && HeadSeen(st.db, head)
    && (req.GetReq? ==> k in st.db.revisions)
    && (k in st.db.revisions ==>
          && k in st.saved && st.db.revisions[k].revision == k.1
          && ReadContent(st.blobs, st.db.revisions[k]) == Some(st.saved[k]))
  }

  lemma RowIsKnown(st: Store, req: Request, head: NotebookRow)
    requires StoreOk(st) && IsRead(req) && head.id == req.id && HeadSeen(st.db, head)
    ensures RowKnown(st, req, head)
  {
    HeadIsSeen(st, req.id);
    if Wanted(req, head) in st.db.revisions {
      RevisionReadable(st, Wanted(req, head));
    }
  }

  lemma RowAnswer(st: Store, req: Request, head: NotebookRow, e: Env, r: Response)
    requires IsRead(req) && RowKnown(st, req, head)
    requires ThreadStep(st, ReadRow(req, head), e).1 == Finished(req, r)
    ensures ReadAnswer(st, req, e.fails, r)
  {
  }

  lemma BlobAnswer(st: Store, req: Request, head: NotebookRow, row: RevisionRow, e: Env, r: Response)
    requires IsRead(req) && RowKnown(st, req, head)
    requires Wanted(req, head) in st.db.revisions && st.db.revisions[Wanted(req, head)] == row
    requires !EtagMatches(req.ifNoneMatch, FormatEtag(req.id, row.revision))
    requires ThreadStep(st, ReadBlob(req, head, row), e).1 == Finished(req, r)
    ensures ReadAnswer(st, req, e.fails, r)
  {
  }

  predicate Reading(pc: Pc) {
    pc.ReadHead? || pc.ReadRow? || pc.ReadBlob?
  }

  lemma ReadAnswerAt(st: Store, pc: Pc, req: Request, e: Env, r: Response)
    requires StoreOk(st) && ThreadOk(st, pc) && Reading(pc) && pc.req == req
    requires ThreadStep(st, pc, e).1 == Finished(req, r)
    ensures IsRead(req) && ReadAnswer(st, req, e.fails, r)
  {
    match pc
    case ReadHead(_) => HeadAnswer(st, req, e, r);
    case ReadRow(_, head) => RowIsKnown(st, req, head); RowAnswer(st, req, head, e, r);
    case ReadBlob(_, head, row) => RowIsKnown(st, req, head); BlobAnswer(st, req, head, row, e, r);
  }

  /** Every read that is answered is answered by the rows that are there at its answering step, exactly. */
  lemma ReadAnsweredExactly(actions: seq<Action>, k: nat, t: nat, req: Request, r: Response) returns (j: nat)
    requires Begun(actions, k, t, req) && IsRead(req) && t in Exec(INIT, actions).threads
    requires Exec(INIT, actions).threads[t] == Finished(req, r)
    ensures k < j && Answers(actions, j, t, req, r)
    ensures ReadAnswer(Exec(INIT, actions[..j]).store, req, actions[j].env.fails, r)
  {
    j := AnsweringStep(actions, k, t, req, r);
    ReachableInv(actions[..j]);
    var s := Exec(INIT, actions[..j]);
    assert ThreadOk(s.store, s.threads[t]);
    ReadAnswerAt(s.store, s.threads[t], req, actions[j].env, r);
  }

  lemma GrowsUpTo(actions: seq<Action>, i: nat, j: nat)
    requires i <= j <= |actions|
    ensures Grows(Exec(INIT, actions[..i]).store, Exec(INIT, actions[..j]).store)
  {
    assert actions[..j][..i] == actions[..i];
    RunGrows(actions[..j], i);
  }

  /** A step of the thread fails. */
  predicate FailsAfter(actions: seq<Action>, k: nat, t: nat) {
    exists j :: k < j < |actions| && actions[j].Advance? && actions[j].thread == t && actions[j].env.fails
  }

  /** A revision that was committed before the read began is found: the answer names it and, unless the client
      holds it already, contains the document saved as it. Only a failing call can keep it from being read. */
  lemma CommittedIsFound(actions: seq<Action>, i: nat, k: nat, t: nat, req: Request, r: Response)
    requires i <= k && Begun(actions, k, t, req) && req.GetRevisionReq? && t in Exec(INIT, actions).threads
    requires Exec(INIT, actions).threads[t] == Finished(req, r)
    requires (req.id, req.revision) in Exec(INIT, actions[..i]).store.db.revisions
    ensures r == Failed(StorageUnavailable) || r.GetOk?
    ensures r == Failed(StorageUnavailable) ==> FailsAfter(actions, k, t)
    ensures r.GetOk? ==>
              && r.got.id == req.id && r.got.revision == req.revision
              && (r.got.content.None? <==> EtagMatches(req.ifNoneMatch, FormatEtag(req.id, req.revision)))
              && (req.id, req.revision) in Exec(INIT, actions[..i]).store.saved
              && (r.got.content.Some? ==>
                    r.got.content.value == Exec(INIT, actions[..i]).store.saved[(req.id, req.revision)])
  {
    var j := ReadAnsweredExactly(actions, k, t, req, r);
    StillSaved(actions, i, j, (req.id, req.revision));
  }

  lemma StillSaved(actions: seq<Action>, i: nat, j: nat, k: RevisionKey)
    requires i <= j <= |actions| && k in Exec(INIT, actions[..i]).store.db.revisions
    ensures var st, st' := Exec(INIT, actions[..i]).store, Exec(INIT, actions[..j]).store;
            && k in st'.db.revisions && k.0 in st'.db.notebooks
            && k in st.saved && k in st'.saved && st'.saved[k] == st.saved[k]
  {
    GrowsUpTo(actions, i, j);
    ReachableInv(actions[..i]);
    SavedStays(Exec(INIT, actions[..i]).store, Exec(INIT, actions[..j]).store, k);
  }

  lemma SavedStays(st: Store, st': Store, k: RevisionKey)
    requires StoreOk(st) && Grows(st, st') && k in st.db.revisions
    ensures k in st'.db.revisions && k.0 in st'.db.notebooks
    ensures k in st.saved && k in st'.saved && st'.saved[k] == st.saved[k]
  {
    assert RevisionOk(st, k);
  }

  /** The same for the head of a notebook: an answer names a revision no older than the one that was current
      before the read began. */
  lemma CurrentIsFound(actions: seq<Action>, i: nat, k: nat, t: nat, req: Request, r: Response)
    requires i <= k && Begun(actions, k, t, req) && req.GetReq? && t in Exec(INIT, actions).threads
    requires Exec(INIT, actions).threads[t] == Finished(req, r)
    requires req.id in Exec(INIT, actions[..i]).store.db.notebooks
    ensures r == Failed(StorageUnavailable) || r.GetOk?
    ensures r == Failed(StorageUnavailable) ==> FailsAfter(actions, k, t)
    ensures r.GetOk? ==>
              && r.got.id == req.id && r.got.title == Exec(INIT, actions[..i]).store.db.notebooks[req.id].title
              && r.got.revision >= Exec(INIT, actions[..i]).store.db.notebooks[req.id].current
  {
    var j := ReadAnsweredExactly(actions, k, t, req, r);
    HeadGrown(actions, i, j, req.id);
    if r.GetOk? {
      HeadGrown(actions, i, k, req.id);
      HeadNotOlder(actions, k, t, req, r.got);
    }
  }

  /** Since its head was read no earlier than the request began. */
  predicate HeadSince(pc: Pc, current: nat) {
    match pc
    case ReadRow(_, head) => head.current >= current
    case ReadBlob(_, head, row) => head.current >= current && row.revision >= current
    case Finished(_, GetOk(g)) => g.revision >= current
    case _ => true
  }

  lemma RowSince(st: Store, req: Request, head: NotebookRow, e: Env, current: nat)
    requires req.GetReq? && head.current >= current
    requires Wanted(req, head) in st.db.revisions ==> st.db.revisions[Wanted(req, head)].revision == head.current
    ensures HeadSince(ThreadStep(st, ReadRow(req, head), e).1, current)
  {
  }

  lemma ReadSince(st: Store, pc: Pc, e: Env, req: Request, current: nat)
    requires (pc == ReadHead(req) || pc.ReadBlob?) && req.GetReq? && HeadSince(pc, current)
    requires req.id in st.db.notebooks ==> st.db.notebooks[req.id].current >= current
    ensures HeadSince(ThreadStep(st, pc, e).1, current)
  {
  }

  lemma HeadSinceStep(st: Store, pc: Pc, e: Env, req: Request, current: nat)
    requires Fits(pc) && WorksOn(pc, req) && req.GetReq? && HeadSince(pc, current)
    requires pc.ReadRow? ==> RowKnown(st, req, pc.head)
    requires req.id in st.db.notebooks ==> st.db.notebooks[req.id].current >= current
    ensures HeadSince(ThreadStep(st, pc, e).1, current)
  {
    match pc
    case ReadRow(_, head) => RowSince(st, req, head, e, current);
    case ReadHead(_) => ReadSince(st, pc, e, req, current);
    case ReadBlob(_, _, _) => ReadSince(st, pc, e, req, current);
    case Finished(_, _) => assert ThreadStep(st, pc, e).1 == pc;
    case Crashed => assert ThreadStep(st, pc, e).1 == pc;
  }

  lemma SeenRow(st: Store, pc: Pc, req: Request)
    requires StoreOk(st) && ThreadOk(st, pc) && WorksOn(pc, req) && IsRead(req)
    ensures Fits(pc) && (pc.ReadRow? ==> RowKnown(st, req, pc.head))
  {
    if pc.ReadRow? {
      RowIsKnown(st, req, pc.head);
    }
  }

  lemma ThreadSeen(actions: seq<Action>, t: nat, req: Request)
    requires t in Exec(INIT, actions).threads && WorksOn(Exec(INIT, actions).threads[t], req) && IsRead(req)
    ensures var s := Exec(INIT, actions);
            Fits(s.threads[t]) && (s.threads[t].ReadRow? ==> RowKnown(s.store, req, s.threads[t].head))
  {
    ReachableInv(actions);
    var s := Exec(INIT, actions);
    assert ThreadOk(s.store, s.threads[t]);
    SeenRow(s.store, s.threads[t], req);
  }

  lemma HeadSinceAction(s: State, a: Action, t: nat, req: Request, current: nat)
    requires t in s.threads && WorksOn(s.threads[t], req) && req.GetReq? && HeadSince(s.threads[t], current)
    requires Fits(s.threads[t]) && (s.threads[t].ReadRow? ==> RowKnown(s.store, req, s.threads[t].head))
    requires req.id in s.store.db.notebooks ==> s.store.db.notebooks[req.id].current >= current
    ensures t in Step(s, a).threads && HeadSince(Step(s, a).threads[t], current)
  {
    StepOf(s, t, a);
    if a.Advance? && a.thread == t {
      HeadSinceStep(s.store, s.threads[t], a.env, req, current);
    }
  }

  lemma HeadGrown(actions: seq<Action>, i: nat, j: nat, id: string)
    requires i <= j <= |actions| && id in Exec(INIT, actions[..i]).store.db.notebooks
    ensures var before := Exec(INIT, actions[..i]).store.db.notebooks;
            var after := Exec(INIT, actions[..j]).store.db.notebooks;
            id in after && after[id].current >= before[id].current && after[id].title == before[id].title
  {
    GrowsUpTo(actions, i, j);
  }

  lemma ExecMore(front: seq<Action>, a: Action)
    ensures Exec(INIT, front + [a]) == Step(Exec(INIT, front), a)
  {
    assert (front + [a])[..|front|] == front;
  }

  /** The head of the notebook has not gone back since the request began. */
  ghost predicate HeadAtLeast(actions: seq<Action>, id: string, current: nat) {
    var notebooks := Exec(INIT, actions).store.db.notebooks;
    id in notebooks ==> notebooks[id].current >= current
  }

  lemma HeadStaysUp(front: seq<Action>, k: nat, id: string)
    requires k <= |front| && id in Exec(INIT, front[..k]).store.db.notebooks
    ensures HeadAtLeast(front, id, Exec(INIT, front[..k]).store.db.notebooks[id].current)
  {
    HeadGrown(front, k, |front|, id);
    assert front[..|front|] == front;
  }

  ghost predicate ThreadSince(actions: seq<Action>, t: nat, current: nat) {
    var s := Exec(INIT, actions);
    t in s.threads && HeadSince(s.threads[t], current)
  }

  lemma HeadSinceNext(front: seq<Action>, a: Action, t: nat, req: Request, current: nat)
    requires req.GetReq? && ThreadSince(front, t, current) && HeadAtLeast(front, req.id, current)
    requires WorksOn(Exec(INIT, front).threads[t], req)
    ensures ThreadSince(front + [a], t, current)
  {
    ThreadSeen(front, t, req);
    HeadSinceAction(Exec(INIT, front), a, t, req, current);
    ExecMore(front, a);
  }

  lemma BeganSince(actions: seq<Action>, t: nat, req: Request, current: nat)
    requires actions != [] && Begun(actions, |actions| - 1, t, req) && req.GetReq?
    ensures ThreadSince(actions, t, current)
  {
    JustBegun(actions, t, req);
  }

  lemma {:induction false} HeadSinceThroughout(actions: seq<Action>, k: nat, t: nat, req: Request, current: nat)
    requires Begun(actions, k, t, req) && req.GetReq? && req.id in Exec(INIT, actions[..k]).store.db.notebooks
    requires current == Exec(INIT, actions[..k]).store.db.notebooks[req.id].current
    ensures ThreadSince(actions, t, current)
    decreases |actions|
  {
    var n := |actions| - 1;
    if k < n {
      var front := actions[..n];
      assert front[..k] == actions[..k];
      HeadSinceThroughout(front, k, t, req, current);
      WorksThroughout(front, k, t, req);
      HeadStaysUp(front, k, req.id);
      HeadSinceNext(front, actions[n], t, req, current);
      assert actions == front + [actions[n]];
    } else {
      BeganSince(actions, t, req, current);
    }
  }

  lemma HeadNotOlder(actions: seq<Action>, k: nat, t: nat, req: Request, g: GetResult)
    requires Begun(actions, k, t, req) && req.GetReq? && t in Exec(INIT, actions).threads
    requires req.id in Exec(INIT, actions[..k]).store.db.notebooks
    requires Exec(INIT, actions).threads[t] == Finished(req, GetOk(g))
    ensures g.revision >= Exec(INIT, actions[..k]).store.db.notebooks[req.id].current
  {
    HeadSinceThroughout(actions, k, t, req, Exec(INIT, actions[..k]).store.db.notebooks[req.id].current);
  }

  // ---------------------------------------------------------------------------------------------
  // Every request is answered.

  /** How many of its own steps a request may still take. */
  function Remaining(pc: Pc): nat {
    match pc
    case ExistsBlob(_) => 4
    case PutBlob(_) => 3
    case Transact(_) => 2
    case ReadReplay(_, _, _, _) => 1
    case ReadHead(_) => 3
    case ReadRow(_, _) => 2
    case ReadBlob(_, _, _) => 1
    case Finished(_, _) => 0
    case Crashed => 0
  }

  lemma CreateRemaining(st: Store, req: Request, id: string)
    requires req.CreateReq?
    ensures Remaining(TransactCreate(st, req, id).1) <= 1
  {
  }

  lemma SaveRemaining(st: Store, req: Request)
    requires req.SaveReq?
    ensures Remaining(TransactSave(st, req).1) == 0
  {
  }

  /** The program point is one of the request's kind. */
  predicate Fits(pc: Pc) {
    match pc
    case PutBlob(req) => req.CreateReq? || req.SaveReq?
    case ExistsBlob(req) => req.SaveReq?
    case Transact(req) => req.CreateReq? || req.SaveReq?
    case ReadHead(req) => IsRead(req)
    case ReadRow(req, _) => IsRead(req)
    case ReadBlob(req, _, _) => IsRead(req)
    case ReadReplay(req, _, _, _) => req.CreateReq?
    case _ => true
  }

  lemma ThreadFits(actions: seq<Action>, t: nat)
    requires t in Exec(INIT, actions).threads
    ensures Fits(Exec(INIT, actions).threads[t])
  {
    ReachableInv(actions);
    assert ThreadOk(Exec(INIT, actions).store, Exec(INIT, actions).threads[t]);
  }

  lemma StepRemaining(st: Store, pc: Pc, e: Env)
    requires Fits(pc) && Open(pc) && (pc.Transact? && pc.req.CreateReq? ==> e.id !in st.db.notebooks)
    ensures Remaining(ThreadStep(st, pc, e).1) < Remaining(pc) <= 4
  {
    match pc
    case Transact(req) =>
      if req.CreateReq? { CreateRemaining(st, req, e.id); } else { SaveRemaining(st, req); }
    case _ =>
  }

  /** Each step of an open request brings it nearer to its answer; a create needs an id that is not taken. */
  lemma EveryStepCounts(actions: seq<Action>, t: nat, e: Env)
    requires t in Exec(INIT, actions).threads && Open(Exec(INIT, actions).threads[t])
    requires var s := Exec(INIT, actions);
             s.threads[t].Transact? && s.threads[t].req.CreateReq? ==> e.id !in s.store.db.notebooks
    ensures var s := Exec(INIT, actions);
            Remaining(Step(s, Advance(t, e)).threads[t]) < Remaining(s.threads[t]) <= 4
  {
    ThreadFits(actions, t);
    StepOf(Exec(INIT, actions), t, Advance(t, e));
    StepRemaining(Exec(INIT, actions).store, Exec(INIT, actions).threads[t], e);
  }

  // ---------------------------------------------------------------------------------------------
  // Writes.

  /** What a save with a new key is answered, and the rows after it: the missing notebook, the conflict with the
      head it met, the unchanged content, or the next revision. */
  ghost predicate FreshSave(st: Store, req: Request, st': Store, r: Response)
    requires req.SaveReq?
  {
    var hash := DocHash(req.body.doc);
    if req.id !in st.db.notebooks then r == Failed(NoSuchNotebook) && st' == st
    else
      var head := st.db.notebooks[req.id];
      if head.current != req.base then r == Failed(Conflict(req.base, head.current, head.hash)) && st' == st
      else if head.hash == hash then
        && r == SaveOk(SaveResult(req.id, head.current, hash, head.updatedAt, true, FormatEtag(req.id, head.current)))
        && st'.db.notebooks == st.db.notebooks && st'.db.revisions == st.db.revisions && st'.saved == st.saved
      else
        var next := head.current + 1;
        && r == SaveOk(SaveResult(req.id, next, hash, req.body.now, false, FormatEtag(req.id, next)))
        && st'.db.notebooks ==
           st.db.notebooks[req.id := head.(current := next, hash := hash, updatedAt := req.body.now)]
        && st'.db.revisions.Keys == st.db.revisions.Keys + {(req.id, next)}
        && st'.saved == st.saved[(req.id, next) := req.body.doc]
  }

  ghost predicate SaveAnswered(st: Store, req: Request, fails: bool, st': Store, r: Response)
    requires req.SaveReq? && StoreOk(st)
  {
    var rk: RecordKey := (PutNotebook, req.body.key);
    if fails then r == Failed(StorageUnavailable) && st' == st
    else if rk in st.db.records then
      && st' == st
      && r == (if st.db.records[rk].requestHash == req.body.requestHash then SaveOk(SaveAnswer(st, req.body.key))
               else Failed(KeyReused))
    else FreshSave(st, req, st', r)
  }

  lemma SaveReplayed(st: Store, req: Request)
    requires StoreOk(st) && req.SaveReq? && (PutNotebook, req.body.key) in st.db.records
    ensures var (st', pc) := TransactSave(st, req); pc.Finished? && SaveAnswered(st, req, false, st', pc.response)
  {
    SaveReplayIs(st, req);
  }

  /** What the head of a notebook promises to a save. */
  ghost predicate HeadSound(st: Store, id: string)
    requires id in st.db.notebooks
  {
    var head := st.db.notebooks[id];
    && head.id == id && (id, head.current) in st.db.revisions && (id, head.current + 1) !in st.db.revisions
    && head.updatedAt == st.db.revisions[(id, head.current)].createdAt
  }

  lemma HeadIsSound(st: Store, id: string)
    requires StoreOk(st) && id in st.db.notebooks
    ensures HeadSound(st, id)
  {
    assert NotebookOk(st.db, id);
  }

  lemma SaveFresh(st: Store, req: Request)
    requires req.SaveReq? && (PutNotebook, req.body.key) !in st.db.records
    requires req.id in st.db.notebooks ==> HeadSound(st, req.id)
    ensures var (st', pc) := TransactSave(st, req); pc.Finished? && FreshSave(st, req, st', pc.response)
  {
  }

  /** The transaction of a save, in every reachable state: the failing call, the replay, the reused key, the
      missing notebook, the conflict with the head it met, the unchanged content, or the next revision. */
  lemma SaveAnsweredExactly(actions: seq<Action>, t: nat, req: Request, e: Env)
    requires t in Exec(INIT, actions).threads && Exec(INIT, actions).threads[t] == Transact(req) && req.SaveReq?
    ensures Inv(Exec(INIT, actions))
    ensures var s := Exec(INIT, actions);
            var s' := Step(s, Advance(t, e));
            && s'.threads[t].Finished? && s'.threads[t].req == req
            && SaveAnswered(s.store, req, e.fails, s'.store, s'.threads[t].response)
  {
    ReachableInv(actions);
    var s := Exec(INIT, actions);
    StepOf(s, t, Advance(t, e));
    SaveWorksOn(s.store, req);
    if !e.fails {
      TransactStep(s.store, req, e);
      if (PutNotebook, req.body.key) in s.store.db.records {
        SaveReplayed(s.store, req);
      } else {
        if req.id in s.store.db.notebooks {
          HeadIsSound(s.store, req.id);
        }
        SaveFresh(s.store, req);
      }
    }
  }

  /** A new notebook, as it was asked for, with one revision. */
  ghost predicate FreshCreate(st: Store, req: Request, id: string, st': Store, pc: Pc)
    requires req.CreateReq?
  {
    var hash, now := DocHash(req.body.doc), req.body.now;
    && pc == Finished(req, CreateOk(CreateResult(201, id, req.title, 1, hash, now, now, req.body.doc,
                                                 Some(LocationOf(id)), FormatEtag(id, 1))))
    && st'.db.notebooks == st.db.notebooks[id := NotebookRow(id, req.title, 1, hash, now, now)]
    && st'.db.revisions.Keys == st.db.revisions.Keys + {(id, 1)}
    && st'.saved == st.saved[(id, 1) := req.body.doc]
  }

  lemma CreateFresh(st: Store, req: Request, id: string)
    requires req.CreateReq? && (PostNotebooks, req.body.key) !in st.db.records
    requires id !in st.db.notebooks && (id, 1) !in st.db.revisions
    ensures var (st', pc) := TransactCreate(st, req, id); FreshCreate(st, req, id, st', pc)
  {
  }

  lemma NoRevisionYet(st: Store, id: string)
    requires StoreOk(st) && id !in st.db.notebooks
    ensures (id, 1) !in st.db.revisions
  {
    forall k | k in st.db.revisions
      ensures k.0 in st.db.notebooks
    {
      assert RevisionOk(st, k);
    }
  }

  /** The transaction of a create that is no replay, in every reachable state. */
  lemma CreateCommits(actions: seq<Action>, t: nat, req: Request, e: Env)
    requires t in Exec(INIT, actions).threads && Exec(INIT, actions).threads[t] == Transact(req) && req.CreateReq?
    requires !e.fails && e.id !in Exec(INIT, actions).store.db.notebooks
    requires (PostNotebooks, req.body.key) !in Exec(INIT, actions).store.db.records
    ensures var s := Exec(INIT, actions);
            var s' := Step(s, Advance(t, e));
            FreshCreate(s.store, req, e.id, s'.store, s'.threads[t])
  {
    ReachableInv(actions);
    var s := Exec(INIT, actions);
    NoRevisionYet(s.store, e.id);
    StepOf(s, t, Advance(t, e));
    TransactStep(s.store, req, e);
    CreateFresh(s.store, req, e.id);
  }

  lemma CreateNeverUnavailable(st: Store, req: Request, id: string)
    requires req.CreateReq?
    ensures TransactCreate(st, req, id).1 != Finished(req, Failed(StorageUnavailable))
  {
  }

  lemma SaveNeverUnavailable(st: Store, req: Request)
    requires req.SaveReq?
    ensures TransactSave(st, req).1 != Finished(req, Failed(StorageUnavailable))
  {
  }

  /** A step answers `storage unavailable` exactly when its call fails; the existence check of a blob cannot. */
  lemma UnavailableExactly(st: Store, pc: Pc, req: Request, e: Env)
    requires Fits(pc) && Open(pc) && WorksOn(pc, req)
    ensures ThreadStep(st, pc, e).1 == Finished(req, Failed(StorageUnavailable)) <==> e.fails && !pc.ExistsBlob?
  {
    match pc
    case Transact(_) =>
      if req.CreateReq? { CreateNeverUnavailable(st, req, e.id); }
      if req.SaveReq? { SaveNeverUnavailable(st, req); }
    case _ =>
  }

  /** A write is answered by its transaction, by the read of a replayed create, or by a failing call. */
  lemma WriteAnsweredWhere(actions: seq<Action>, k: nat, t: nat, req: Request, r: Response) returns (j: nat)
    requires Begun(actions, k, t, req) && !IsRead(req) && t in Exec(INIT, actions).threads
    requires Exec(INIT, actions).threads[t] == Finished(req, r)
    ensures k < j && Answers(actions, j, t, req, r)
    ensures var pc := Exec(INIT, actions[..j]).threads[t];
            && (r == Failed(StorageUnavailable) <==> actions[j].env.fails)
            && (r != Failed(StorageUnavailable) ==> pc.Transact? || pc.ReadReplay?)
  {
    j := AnsweringStep(actions, k, t, req, r);
    var s := Exec(INIT, actions[..j]);
    ThreadFits(actions[..j], t);
    UnavailableExactly(s.store, s.threads[t], req, actions[j].env);
    BlobStepsGoOn(s.store, s.threads[t], req, actions[j].env);
  }

  /** The steps before the transaction answer nothing but a failing call. */
  lemma BlobStepsGoOn(st: Store, pc: Pc, req: Request, e: Env)
    requires Fits(pc) && Open(pc) && WorksOn(pc, req) && !IsRead(req)
    ensures ThreadStep(st, pc, e).1.Finished? ==> pc.Transact? || pc.ReadReplay? || (pc.PutBlob? && e.fails)
  {
  }
}
