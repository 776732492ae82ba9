/** A concrete run of the notebook service: a replayed save that names another notebook than its URL. */
module NotebookInstances {
  import opened Common
  import opened Json
  import opened Etag
  import opened NotebookRepository
  import opened NotebookService

  lemma ExecMore(s: State, a: seq<Action>, x: Action)
    ensures Exec(s, a + [x]) == Step(Exec(s, a), x)
  {
    assert (a + [x])[..|a|] == a;
  }

  lemma {:induction false} ExecCat(s: State, a: seq<Action>, b: seq<Action>)
    ensures Exec(s, a + b) == Exec(Exec(s, a), b)
    decreases |b|
  {
    if b == [] {
      assert a + b == a;
    } else {
      assert (a + b)[..|a + b| - 1] == a + b[..|b| - 1];
      ExecCat(s, a, b[..|b| - 1]);
    }
  }

  lemma ExecOne(s: State, x: Action)
    ensures Exec(s, [x]) == Step(s, x)
  {
    assert [x][..0] == [];
  }

  lemma ExecTwo(s: State, x: Action, y: Action)
    ensures Exec(s, [x, y]) == Step(Exec(s, [x]), y)
  {
    ExecMore(s, [x], y);
    assert [x] + [y] == [x, y];
  }

  lemma ExecLast(s: State, x: Action, y: Action, z: Action)
    ensures Exec(s, [x, y, z]) == Step(Exec(s, [x, y]), z)
  {
    ExecMore(s, [x, y], z);
    assert [x, y] + [z] == [x, y, z];
  }

  lemma ExecThree(s: State, x: Action, y: Action, z: Action)
    ensures Exec(s, [x, y, z]) == Step(Step(Step(s, x), y), z)
  {
    ExecOne(s, x);
    ExecTwo(s, x, y);
    ExecLast(s, x, y, z);
  }

  function Go(t: nat, id: string): Action {
    Advance(t, Env(false, id))
  }

  /** One step of a thread, when nothing fails. */
  lemma Goes(st: Store, threads: map<nat, Pc>, t: nat, pc: Pc, id: string, st': Store, pc': Pc)
    requires ThreadStep(st, pc, Env(false, id)) == (st', pc')
    ensures Step(State(st, threads[t := pc]), Go(t, id)) == State(st', threads[t := pc'])
  {
    assert threads[t := pc][t := pc'] == threads[t := pc'];
  }

  function WithBlob(st: Store, req: Request): Store
    requires req.CreateReq? || req.SaveReq?
  {
    st.(blobs := Put(st.blobs, Canonical(req.body.doc)))
  }

  /** A create that nothing disturbs: publish the blob, then commit. */
  lemma CreateRuns(s: State, t: nat, req: Request, id: string)
    requires t !in s.threads && req.CreateReq? && id !in s.store.db.notebooks
    ensures var (store, pc) := TransactCreate(WithBlob(s.store, req), req, id);
            Exec(s, [Begin(t, req), Go(t, id), Go(t, id)]) == State(store, s.threads[t := pc])
  {
    var st := WithBlob(s.store, req);
    var (store, pc) := TransactCreate(st, req, id);
    ExecThree(s, Begin(t, req), Go(t, id), Go(t, id));
    Goes(s.store, s.threads, t, PutBlob(req), id, st, Transact(req));
    Goes(st, s.threads, t, Transact(req), id, store, pc);
  }

  /** A save of new content that nothing disturbs: the blob is missing, so it is published first. */
  lemma SaveRuns(s: State, t: nat, req: Request)
    requires t !in s.threads && req.SaveReq? && KeyFor(DocHash(req.body.doc)) !in s.store.blobs
    ensures var (store, pc) := TransactSave(WithBlob(s.store, req), req);
            Exec(s, [Begin(t, req), Go(t, ""), Go(t, "")] + [Go(t, "")]) == State(store, s.threads[t := pc])
  {
    var st := WithBlob(s.store, req);
    var (store, pc) := TransactSave(st, req);
    ExecThree(s, Begin(t, req), Go(t, ""), Go(t, ""));
    ExecMore(s, [Begin(t, req), Go(t, ""), Go(t, "")], Go(t, ""));
    Goes(s.store, s.threads, t, ExistsBlob(req), "", s.store, PutBlob(req));
    Goes(s.store, s.threads, t, PutBlob(req), "", st, Transact(req));
    Goes(st, s.threads, t, Transact(req), "", store, pc);
  }

  /** A save of content that is stored already. */
  lemma SaveAgainRuns(s: State, t: nat, req: Request)
    requires t !in s.threads && req.SaveReq? && KeyFor(DocHash(req.body.doc)) in s.store.blobs
    ensures var (store, pc) := TransactSave(s.store, req);
            Exec(s, [Begin(t, req), Go(t, ""), Go(t, "")]) == State(store, s.threads[t := pc])
  {
    var (store, pc) := TransactSave(s.store, req);
    ExecThree(s, Begin(t, req), Go(t, ""), Go(t, ""));
    Goes(s.store, s.threads, t, ExistsBlob(req), "", s.store, Transact(req));
    Goes(s.store, s.threads, t, Transact(req), "", store, pc);
  }

  // ---------------------------------------------------------------------------------------------
  // The run.

  const FIRST := CreateReq(Body("ka", "ha", Null, 0, 0), "A")
  const SECOND := CreateReq(Body("kb", "hb", Null, 0, 0), "B")
  const SAVE := Body("s", "h", Bool(true), 0, 0)

  /** Create notebook a, create notebook b, save a under the key "s". */
  const CREATED := CREATE + [Begin(1, SECOND), Go(1, "b"), Go(1, "b")]
  const SAVED := CREATED + ([Begin(2, SaveReq(SAVE, "a", 1)), Go(2, ""), Go(2, "")] + [Go(2, "")])

  /** What matters of the state after it. */
  predicate BothExist(s: State) {
    && s.threads.Keys == {0, 1}
    && s.store.db.notebooks.Keys == {"a", "b"}
    && s.store.db.notebooks["a"].current == 1 && s.store.db.notebooks["a"].hash == DocHash(Null)
    && s.store.db.notebooks["b"].current == 1
    && s.store.db.revisions.Keys == {("a", 1), ("b", 1)}
    && s.store.db.records.Keys == {(PostNotebooks, "ka"), (PostNotebooks, "kb")}
    && s.store.blobs.Keys == {KeyFor(DocHash(Null))}
  }

  const CREATE := [Begin(0, FIRST), Go(0, "a"), Go(0, "a")]

  predicate OneExists(s: State) {
    && s.threads.Keys == {0}
    && s.store.db.notebooks.Keys == {"a"}
    && s.store.db.notebooks["a"].current == 1 && s.store.db.notebooks["a"].hash == DocHash(Null)
    && s.store.db.revisions.Keys == {("a", 1)}
    && s.store.db.records.Keys == {(PostNotebooks, "ka")}
    && s.store.blobs.Keys == {KeyFor(DocHash(Null))}
  }

  lemma OneCreated()
    ensures OneExists(Exec(INIT, CREATE))
  {
    CreateRuns(INIT, 0, FIRST, "a");
  }

  lemma TwoCreated()
    ensures BothExist(Exec(INIT, CREATED))
  {
    OneCreated();
    ExecCat(INIT, CREATE, [Begin(1, SECOND), Go(1, "b"), Go(1, "b")]);
    CreateRuns(Exec(INIT, CREATE), 1, SECOND, "b");
  }

  predicate SavedUnder(s: State) {
    && s.threads.Keys == {0, 1, 2}
    && s.store.db.notebooks.Keys == {"a", "b"} && s.store.db.notebooks["b"].current == 1
    && ("a", 2) in s.store.db.revisions && KeyFor(DocHash(SAVE.doc)) in s.store.blobs
    && (PutNotebook, "s") in s.store.db.records
    && s.store.db.records[(PutNotebook, "s")] == SaveRecord(WriteOf(SAVE), "a", 2, DocHash(SAVE.doc), 0, false)
  }

  lemma OneSaved()
    ensures SavedUnder(Exec(INIT, SAVED))
  {
    var req := SaveReq(SAVE, "a", 1);
    TwoCreated();
    var s := Exec(INIT, CREATED);
    ExecCat(INIT, CREATED, [Begin(2, req), Go(2, ""), Go(2, "")] + [Go(2, "")]);
    SaveRuns(s, 2, req);
  }

  /** A save of notebook b with the key and the body of a save of notebook a succeeds, names a and its
      revision 2, and leaves b alone. */
  lemma ReplayNamesAnother()
    ensures var req := SaveReq(SAVE, "b", 1);
            var s := Exec(INIT, SAVED + [Begin(3, req), Go(3, ""), Go(3, "")]);
            && 3 in s.threads
            && s.threads[3] ==
               Finished(req, SaveOk(SaveResult("a", 2, DocHash(SAVE.doc), 0, false, FormatEtag("a", 2))))
            && "b" in s.store.db.notebooks && s.store.db.notebooks["b"].current == 1
  {
    var req := SaveReq(SAVE, "b", 1);
    OneSaved();
    var s := Exec(INIT, SAVED);
    ExecCat(INIT, SAVED, [Begin(3, req), Go(3, ""), Go(3, "")]);
    SaveAgainRuns(s, 3, req);
  }
}
