/** Every interleaving of the notebook service keeps the invariant. */
module NotebookServiceProofs {
  import opened Common
  import opened Json
  import opened Etag
  import opened NotebookRepository
  import opened NotebookService

  // ---------------------------------------------------------------------------------------------
  // Stability under growth.

  lemma CreateAnswerStable(st: Store, st': Store, key: string)
    requires StoreOk(st) && StoreOk(st') && Grows(st, st') && (PostNotebooks, key) in st.db.records
    ensures CreateAnswer(st', key) == CreateAnswer(st, key)
  {
    assert RecordOk(st, (PostNotebooks, key));
  }

  lemma SaveAnswerStable(st: Store, st': Store, key: string)
    requires StoreOk(st) && StoreOk(st') && Grows(st, st') && (PutNotebook, key) in st.db.records
    ensures SaveAnswer(st', key) == SaveAnswer(st, key)
  {
    assert RecordOk(st, (PutNotebook, key));
  }

  lemma HeadStable(st: Store, st': Store, head: NotebookRow)
    requires Grows(st, st') && HeadSeen(st.db, head)
    ensures HeadSeen(st'.db, head)
  {
  }

  lemma RowStable(st: Store, st': Store, id: string, row: RevisionRow)
    requires Grows(st, st') && RowSeen(st, id, row)
    ensures RowSeen(st', id, row)
  {
  }

  lemma GetStable(st: Store, st': Store, req: Request, g: GetResult)
    requires Grows(st, st') && GetOkOk(st, req, g)
    ensures GetOkOk(st', req, g)
  {
  }

  lemma ResponseStable(st: Store, st': Store, req: Request, r: Response)
    requires StoreOk(st) && StoreOk(st') && Grows(st, st') && ResponseOk(st, req, r)
    ensures ResponseOk(st', req, r)
  {
    match r
    case CreateOk(c) => CreateAnswerStable(st, st', req.body.key);
    case SaveOk(c) => SaveAnswerStable(st, st', req.body.key);
    case GetOk(g) => GetStable(st, st', req, g);
    case Failed(_) =>
  }

  lemma BlobStays(st: Store, st': Store, b: BlobKey)
    requires Grows(st, st') && b in st.blobs
    ensures b in st'.blobs
  {
  }

  lemma RecordStays(st: Store, st': Store, rk: RecordKey)
    requires Grows(st, st') && rk in st.db.records
    ensures rk in st'.db.records && st'.db.records[rk] == st.db.records[rk]
  {
  }

  lemma ReplayStable(st: Store, st': Store, req: Request, notebook: NotebookRow, row: RevisionRow, replay: IdemRecord)
    requires StoreOk(st) && StoreOk(st') && Grows(st, st') && ThreadOk(st, ReadReplay(req, notebook, row, replay))
    ensures ThreadOk(st', ReadReplay(req, notebook, row, replay))
  {
    RecordStays(st, st', (PostNotebooks, req.body.key));
    HeadStable(st, st', notebook);
    RowStable(st, st', replay.notebook, row);
  }

  lemma ReadingStable(st: Store, st': Store, pc: Pc)
    requires StoreOk(st) && StoreOk(st') && Grows(st, st') && ThreadOk(st, pc)
    requires pc.ReadHead? || pc.ReadRow? || pc.ReadBlob?
    ensures ThreadOk(st', pc)
  {
    if !pc.ReadHead? {
      HeadStable(st, st', pc.head);
    }
    if pc.ReadBlob? {
      RowStable(st, st', pc.req.id, pc.row);
    }
  }

  lemma ThreadStable(st: Store, st': Store, pc: Pc)
    requires StoreOk(st) && StoreOk(st') && Grows(st, st') && ThreadOk(st, pc)
    ensures ThreadOk(st', pc)
  {
    match pc
    case PutBlob(_) =>
    case ExistsBlob(_) =>
    case Transact(req) => BlobStays(st, st', KeyFor(DocHash(req.body.doc)));
    case ReadReplay(req, notebook, row, replay) => ReplayStable(st, st', req, notebook, row, replay);
    case ReadHead(_) => ReadingStable(st, st', pc);
    case ReadRow(_, _) => ReadingStable(st, st', pc);
    case ReadBlob(_, _, _) => ReadingStable(st, st', pc);
    case Finished(req, r) => ResponseStable(st, st', req, r);
    case Crashed =>
  }

  // ---------------------------------------------------------------------------------------------
  // Store steps.

  lemma PutKeeps(st: Store, doc: Json)
    requires StoreOk(st)
    ensures StoreOk(st.(blobs := Put(st.blobs, Canonical(doc))))
            && Grows(st, st.(blobs := Put(st.blobs, Canonical(doc))))
  {
    var st' := st.(blobs := Put(st.blobs, Canonical(doc)));
    forall k | k in st'.db.revisions
      ensures RevisionOk(st', k)
    {
      assert RevisionOk(st, k);
    }
    forall rk | rk in st'.db.records
      ensures RecordOk(st', rk)
    {
      assert RecordOk(st, rk);
    }
  }

  ghost predicate WriteOk(st: Store, w: Write, doc: Json) {
    w.hash == DocHash(doc) && w.blobKey == KeyFor(w.hash) && w.blobKey in st.blobs
  }

  /** The two states agree but for the revision `k0` and the record `rk0`, which the first lacks. */
  ghost predicate Differ(st: Store, st': Store, k0: RevisionKey, rk0: RecordKey) {
    && k0 !in st.db.revisions && rk0 !in st.db.records
    && (forall id :: id in st.db.notebooks ==> id in st'.db.notebooks
                                                  && st'.db.notebooks[id].title == st.db.notebooks[id].title)
    && st'.blobs == st.blobs
    && (forall k | k != k0 ::
          && (k in st'.db.revisions <==> k in st.db.revisions)
          && (k in st.db.revisions ==> st'.db.revisions[k] == st.db.revisions[k])
          && (k in st.saved ==> k in st'.saved && st'.saved[k] == st.saved[k])
          && (k in st.author ==> k in st'.author && st'.author[k] == st.author[k]))
    && (forall rk | rk != rk0 ::
          && (rk in st'.db.records <==> rk in st.db.records)
          && (rk in st.db.records ==> st'.db.records[rk] == st.db.records[rk])
          && (rk in st.commits ==> rk in st'.commits && st'.commits[rk] == st.commits[rk]))
  }

  lemma RevisionKept(st: Store, st': Store, k0: RevisionKey, rk0: RecordKey, k: RevisionKey)
    requires Differ(st, st', k0, rk0) && k in st.db.revisions && RevisionOk(st, k)
    ensures k in st'.db.revisions && RevisionOk(st', k)
  {
  }

  lemma RecordKept(st: Store, st': Store, k0: RevisionKey, rk0: RecordKey, rk: RecordKey)
    requires Differ(st, st', k0, rk0) && rk in st.db.records && RecordOk(st, rk)
    ensures rk in st'.db.records && RecordOk(st', rk)
  {
  }

  lemma RevisionsKept(st: Store, st': Store, k0: RevisionKey, rk0: RecordKey)
    requires RevisionsOk(st) && Differ(st, st', k0, rk0)
    requires k0 in st'.db.revisions ==> RevisionOk(st', k0)
    ensures RevisionsOk(st')
  {
    forall k | k in st'.db.revisions
      ensures RevisionOk(st', k)
    {
      if k != k0 {
        RevisionKept(st, st', k0, rk0, k);
      }
    }
  }

  lemma RecordsKept(st: Store, st': Store, k0: RevisionKey, rk0: RecordKey)
    requires RecordsOk(st) && Differ(st, st', k0, rk0)
    requires rk0 in st'.db.records && RecordOk(st', rk0)
    ensures RecordsOk(st')
  {
    forall rk | rk in st'.db.records
      ensures RecordOk(st', rk)
    {
      if rk != rk0 {
        RecordKept(st, st', k0, rk0, rk);
      }
    }
  }

  lemma AdjacentKept(st: Store, st': Store, k0: RevisionKey, rk0: RecordKey)
    requires AdjacentDiffer(st.db) && Differ(st, st', k0, rk0)
    requires k0 in st'.db.revisions ==>
               && (k0.0, k0.1 + 1) !in st.db.revisions
               && (k0.1 > 0 && (k0.0, k0.1 - 1) in st.db.revisions ==>
                     st.db.revisions[(k0.0, k0.1 - 1)].hash != st'.db.revisions[k0].hash)
    ensures AdjacentDiffer(st'.db)
  {
    forall id, r: nat, q: nat | (id, r) in st'.db.revisions && (id, q) in st'.db.revisions && q == r + 1
      ensures st'.db.revisions[(id, r)].hash != st'.db.revisions[(id, q)].hash
    {
      if (id, q) == k0 {
        assert r == k0.1 - 1;
      }
    }
  }

  lemma DifferKeeps(st: Store, st': Store, k0: RevisionKey, rk0: RecordKey)
    requires StoreOk(st) && Differ(st, st', k0, rk0)
    requires NotebooksOk(st'.db) && AdjacentDiffer(st'.db)
    requires k0 in st'.db.revisions ==> RevisionOk(st', k0)
    requires rk0 in st'.db.records && RecordOk(st', rk0)
    ensures StoreOk(st')
  {
    RevisionsKept(st, st', k0, rk0);
    RecordsKept(st, st', k0, rk0);
  }

  /** The store after a create has committed. */
  function AfterCreate(st: Store, w: Write, id: string, title: string, doc: Json): Store {
    Store(Db(st.db.notebooks[id := NotebookRow(id, title, 1, w.hash, w.now, w.now)],
             st.db.revisions[(id, 1) := RevisionRow(id, 1, w.hash, w.blobKey, w.size, w.now)],
             st.db.records[(PostNotebooks, w.key) := CreateRecord(w, id, title)]),
          st.blobs, st.saved[(id, 1) := doc], st.author[(id, 1) := (PostNotebooks, w.key)],
          st.commits[(PostNotebooks, w.key) := Commit(w.requestHash, None, doc)])
  }

  lemma NoRows(st: Store, id: string)
    requires StoreOk(st) && id !in st.db.notebooks
    ensures forall r: nat :: (id, r) !in st.db.revisions
  {
    assert forall r: nat :: (id, r) in st.db.revisions ==> RevisionOk(st, (id, r));
  }

  lemma CreateDiffers(st: Store, w: Write, id: string, title: string, doc: Json)
    requires id !in st.db.notebooks && (id, 1) !in st.db.revisions && (PostNotebooks, w.key) !in st.db.records
    ensures Differ(st, AfterCreate(st, w, id, title, doc), (id, 1), (PostNotebooks, w.key))
    ensures Grows(st, AfterCreate(st, w, id, title, doc))
  {
  }

  lemma CreateKeepsNotebooks(st: Store, w: Write, id: string, title: string, doc: Json)
    requires NotebooksOk(st.db) && id !in st.db.notebooks && forall r: nat :: (id, r) !in st.db.revisions
    ensures NotebooksOk(AfterCreate(st, w, id, title, doc).db)
  {
    var db := AfterCreate(st, w, id, title, doc).db;
    forall other | other in db.notebooks
      ensures NotebookOk(db, other)
    {
      if other != id {
        assert NotebookOk(st.db, other);
      }
    }
  }

  lemma CreateKeepsRows(st: Store, w: Write, id: string, title: string, doc: Json)
    requires StoreOk(st) && WriteOk(st, w, doc) && id !in st.db.notebooks && (PostNotebooks, w.key) !in st.db.records
    ensures NotebooksOk(AfterCreate(st, w, id, title, doc).db) && AdjacentDiffer(AfterCreate(st, w, id, title, doc).db)
  {
    NoRows(st, id);
    CreateDiffers(st, w, id, title, doc);
    CreateKeepsNotebooks(st, w, id, title, doc);
    AdjacentKept(st, AfterCreate(st, w, id, title, doc), (id, 1), (PostNotebooks, w.key));
  }

  lemma CreatedRowsOk(st: Store, w: Write, id: string, title: string, doc: Json)
    requires WriteOk(st, w, doc)
    ensures RevisionOk(AfterCreate(st, w, id, title, doc), (id, 1))
    ensures RecordOk(AfterCreate(st, w, id, title, doc), (PostNotebooks, w.key))
  {
  }

  lemma CreateKeeps(st: Store, w: Write, id: string, title: string, doc: Json)
    requires StoreOk(st) && WriteOk(st, w, doc) && id !in st.db.notebooks && (PostNotebooks, w.key) !in st.db.records
    ensures StoreOk(AfterCreate(st, w, id, title, doc)) && Grows(st, AfterCreate(st, w, id, title, doc))
  {
    NoRows(st, id);
    CreateDiffers(st, w, id, title, doc);
    CreateKeepsRows(st, w, id, title, doc);
    CreatedRowsOk(st, w, id, title, doc);
    DifferKeeps(st, AfterCreate(st, w, id, title, doc), (id, 1), (PostNotebooks, w.key));
  }

  /** The store after a save has committed the new revision `next`. */
  function AfterSave(st: Store, w: Write, id: string, next: nat, doc: Json): Store
    requires id in st.db.notebooks
  {
    Store(Db(st.db.notebooks[id := st.db.notebooks[id].(current := next, hash := w.hash, updatedAt := w.now)],
             st.db.revisions[(id, next) := RevisionRow(id, next, w.hash, w.blobKey, w.size, w.now)],
             st.db.records[(PutNotebook, w.key) := SaveRecord(w, id, next, w.hash, w.now, false)]),
          st.blobs, st.saved[(id, next) := doc], st.author[(id, next) := (PutNotebook, w.key)],
          st.commits[(PutNotebook, w.key) := Commit(w.requestHash, Some(next - 1), doc)])
  }

  ghost predicate Saves(st: Store, w: Write, id: string, next: nat) {
    && (PutNotebook, w.key) !in st.db.records && id in st.db.notebooks
    && st.db.notebooks[id].current + 1 == next && st.db.notebooks[id].hash != w.hash
  }

  lemma SaveDiffers(st: Store, w: Write, id: string, next: nat, doc: Json)
    requires Saves(st, w, id, next) && (id, next) !in st.db.revisions
    ensures Differ(st, AfterSave(st, w, id, next, doc), (id, next), (PutNotebook, w.key))
    ensures Grows(st, AfterSave(st, w, id, next, doc))
  {
  }

  lemma SaveKeepsNotebooks(st: Store, w: Write, id: string, next: nat, doc: Json)
    requires NotebooksOk(st.db) && Saves(st, w, id, next)
    ensures NotebooksOk(AfterSave(st, w, id, next, doc).db)
  {
    var db := AfterSave(st, w, id, next, doc).db;
    forall other | other in db.notebooks
      ensures NotebookOk(db, other)
    {
      assert NotebookOk(st.db, other);
    }
  }

  lemma SavedRowsOk(st: Store, w: Write, id: string, next: nat, doc: Json)
    requires WriteOk(st, w, doc) && Saves(st, w, id, next) && next >= 2
    requires (id, next - 1) in st.db.revisions && st.db.revisions[(id, next - 1)].hash == st.db.notebooks[id].hash
    ensures RevisionOk(AfterSave(st, w, id, next, doc), (id, next))
    ensures RecordOk(AfterSave(st, w, id, next, doc), (PutNotebook, w.key))
  {
  }

  lemma SaveKeeps(st: Store, w: Write, id: string, next: nat, doc: Json)
    requires StoreOk(st) && WriteOk(st, w, doc) && Saves(st, w, id, next)
    ensures (id, next - 1) in st.db.revisions && (id, next) !in st.db.revisions
    ensures StoreOk(AfterSave(st, w, id, next, doc)) && Grows(st, AfterSave(st, w, id, next, doc))
  {
    var st' := AfterSave(st, w, id, next, doc);
    assert NotebookOk(st.db, id);
    SaveDiffers(st, w, id, next, doc);
    SaveKeepsNotebooks(st, w, id, next, doc);
    SavedRowsOk(st, w, id, next, doc);
    AdjacentKept(st, st', (id, next), (PutNotebook, w.key));
    DifferKeeps(st, st', (id, next), (PutNotebook, w.key));
  }

  /** A save of the head's own content records the request and nothing else. */
  function AfterNoop(st: Store, w: Write, id: string, doc: Json): Store
    requires id in st.db.notebooks && (id, st.db.notebooks[id].current) in st.db.revisions
  {
    var head := st.db.notebooks[id];
    st.(db := st.db.(records := st.db.records[(PutNotebook, w.key) :=
          SaveRecord(w, id, head.current, head.hash, st.db.revisions[(id, head.current)].createdAt, true)]),
        commits := st.commits[(PutNotebook, w.key) := Commit(w.requestHash, Some(head.current), doc)])
  }

  lemma NoopDiffers(st: Store, w: Write, id: string, doc: Json, k0: RevisionKey)
    requires id in st.db.notebooks && (id, st.db.notebooks[id].current) in st.db.revisions
    requires (PutNotebook, w.key) !in st.db.records && k0 !in st.db.revisions
    ensures Differ(st, AfterNoop(st, w, id, doc), k0, (PutNotebook, w.key))
    ensures Grows(st, AfterNoop(st, w, id, doc))
  {
  }

  lemma NoopKeepsNotebooks(st: Store, w: Write, id: string, doc: Json)
    requires NotebooksOk(st.db) && id in st.db.notebooks && (id, st.db.notebooks[id].current) in st.db.revisions
    ensures NotebooksOk(AfterNoop(st, w, id, doc).db)
  {
    forall other | other in st.db.notebooks
      ensures NotebookOk(AfterNoop(st, w, id, doc).db, other)
    {
      assert NotebookOk(st.db, other);
    }
  }

  lemma NoopRecordOk(st: Store, w: Write, id: string, doc: Json)
    requires WriteOk(st, w, doc) && id in st.db.notebooks && st.db.notebooks[id].hash == w.hash
    requires var k := (id, st.db.notebooks[id].current);
             k in st.db.revisions && RevisionOk(st, k) && st.db.revisions[k].hash == w.hash
    ensures RecordOk(AfterNoop(st, w, id, doc), (PutNotebook, w.key))
  {
  }

  lemma NoopKeeps(st: Store, w: Write, id: string, doc: Json)
    requires StoreOk(st) && WriteOk(st, w, doc) && (PutNotebook, w.key) !in st.db.records
    requires id in st.db.notebooks && st.db.notebooks[id].hash == w.hash
    ensures (id, st.db.notebooks[id].current) in st.db.revisions
    ensures StoreOk(AfterNoop(st, w, id, doc)) && Grows(st, AfterNoop(st, w, id, doc))
  {
    var current := st.db.notebooks[id].current;
    assert NotebookOk(st.db, id);
    assert RevisionOk(st, (id, current));
    var st' := AfterNoop(st, w, id, doc);
    NoopDiffers(st, w, id, doc, (id, current + 1));
    NoopKeepsNotebooks(st, w, id, doc);
    NoopRecordOk(st, w, id, doc);
    DifferKeeps(st, st', (id, current + 1), (PutNotebook, w.key));
  }

  // ---------------------------------------------------------------------------------------------
  // The steps of a thread.

  ghost predicate StepGood(st: Store, st': Store, pc': Pc) {
    StoreOk(st') && Grows(st, st') && ThreadOk(st', pc')
  }

  /** What an idempotency record replays: never an integrity fault. */
  lemma ReplayOk(st: Store, rk: RecordKey, requestHash: string)
    requires StoreOk(st) && rk in st.db.records
    ensures var rec := st.db.records[rk];
            && rec.notebook in st.db.notebooks && (rec.notebook, rec.revision) in st.db.revisions
            && Resolve(st.db, rec, requestHash) ==
                 (if rec.requestHash != requestHash then KeyConflict
                  else Replayed(st.db.notebooks[rec.notebook], st.db.revisions[(rec.notebook, rec.revision)], rec))
            && HeadSeen(st.db, st.db.notebooks[rec.notebook]) && st.db.notebooks[rec.notebook].id == rec.notebook
            && RowSeen(st, rec.notebook, st.db.revisions[(rec.notebook, rec.revision)])
            && st.db.revisions[(rec.notebook, rec.revision)].revision == rec.revision
  {
    assert RecordOk(st, rk);
    var rec := st.db.records[rk];
    assert RevisionOk(st, (rec.notebook, rec.revision));
    assert NotebookOk(st.db, rec.notebook);
  }

  /** The response to a committed create is the answer every replay gives. */
  lemma CreatedAnswer(st: Store, w: Write, id: string, title: string, doc: Json)
    requires StoreOk(AfterCreate(st, w, id, title, doc))
    ensures CreateAnswer(AfterCreate(st, w, id, title, doc), w.key) ==
            CreateResult(201, id, title, 1, w.hash, w.now, w.now, doc, Some(LocationOf(id)), FormatEtag(id, 1))
  {
  }

  lemma GrowsSelf(st: Store)
    ensures Grows(st, st)
  {
  }

  lemma StaysGood(st: Store, pc': Pc)
    requires StoreOk(st) && ThreadOk(st, pc')
    ensures StepGood(st, st, pc')
  {
    GrowsSelf(st);
  }

  lemma CommittedCreate(st: Store, req: Request, id: string)
    requires req.CreateReq? && (PostNotebooks, req.body.key) !in st.db.records
    requires id !in st.db.notebooks && (id, 1) !in st.db.revisions
    ensures var w := WriteOf(req.body);
            TransactCreate(st, req, id) ==
            (AfterCreate(st, w, id, req.title, req.body.doc),
             Finished(req, CreateOk(CreateResult(201, id, req.title, 1, w.hash, w.now, w.now, req.body.doc,
                                                 Some(LocationOf(id)), FormatEtag(id, 1)))))
  {
  }

  lemma CommittedCreateOk(st: Store, req: Request, id: string)
    requires req.CreateReq? && StoreOk(AfterCreate(st, WriteOf(req.body), id, req.title, req.body.doc))
    ensures var w := WriteOf(req.body);
            ThreadOk(AfterCreate(st, w, id, req.title, req.body.doc),
                     Finished(req, CreateOk(CreateResult(201, id, req.title, 1, w.hash, w.now, w.now, req.body.doc,
                                                         Some(LocationOf(id)), FormatEtag(id, 1)))))
  {
    CreatedAnswer(st, WriteOf(req.body), id, req.title, req.body.doc);
  }

  lemma ReplayedCreate(st: Store, req: Request, id: string)
    requires req.CreateReq? && (PostNotebooks, req.body.key) in st.db.records
    ensures var outcome := Resolve(st.db, st.db.records[(PostNotebooks, req.body.key)], req.body.requestHash);
            && TransactCreate(st, req, id).0 == st
            && TransactCreate(st, req, id).1 ==
                 (match outcome
                  case KeyConflict => Finished(req, Failed(KeyReused))
                  case Replayed(notebook, row, replay) => ReadReplay(req, notebook, row, replay)
                  case _ => Finished(req, Failed(InternalError)))
  {
  }

  lemma CreateReplayGood(st: Store, req: Request, id: string)
    requires StoreOk(st) && req.CreateReq? && (PostNotebooks, req.body.key) in st.db.records
    ensures StepGood(st, TransactCreate(st, req, id).0, TransactCreate(st, req, id).1)
  {
    ReplayOk(st, (PostNotebooks, req.body.key), req.body.requestHash);
    ReplayedCreate(st, req, id);
    StaysGood(st, TransactCreate(st, req, id).1);
  }

  lemma TransactCreateGood(st: Store, req: Request, id: string)
    requires StoreOk(st) && req.CreateReq? && ThreadOk(st, Transact(req)) && id !in st.db.notebooks
    ensures StepGood(st, TransactCreate(st, req, id).0, TransactCreate(st, req, id).1)
  {
    var w := WriteOf(req.body);
    if (PostNotebooks, w.key) in st.db.records {
      CreateReplayGood(st, req, id);
    } else {
      NoRows(st, id);
      CommittedCreate(st, req, id);
      CreateKeeps(st, w, id, req.title, req.body.doc);
      CommittedCreateOk(st, req, id);
    }
  }

  lemma ReplayedSave(st: Store, req: Request)
    requires req.SaveReq? && (PutNotebook, req.body.key) in st.db.records
    requires st.db.records[(PutNotebook, req.body.key)].metadata.SaveMeta?
    requires !Resolve(st.db, st.db.records[(PutNotebook, req.body.key)], req.body.requestHash).IntegrityFault?
    ensures var rec := st.db.records[(PutNotebook, req.body.key)];
            && TransactSave(st, req).0 == st
            && TransactSave(st, req).1 == Finished(req,
                 if rec.requestHash != req.body.requestHash then Failed(KeyReused)
                 else SaveOk(SaveResult(rec.notebook, rec.revision, rec.metadata.hash, rec.metadata.updatedAt,
                                         rec.metadata.noop, rec.etag)))
  {
  }

  lemma ReplayedSaveOk(st: Store, req: Request)
    requires StoreOk(st) && req.SaveReq? && (PutNotebook, req.body.key) in st.db.records
    ensures var rec := st.db.records[(PutNotebook, req.body.key)];
            && rec.metadata.SaveMeta?
            && SaveAnswer(st, req.body.key) ==
                 SaveResult(rec.notebook, rec.revision, rec.metadata.hash, rec.metadata.updatedAt, rec.metadata.noop,
                            rec.etag)
  {
    assert RecordOk(st, (PutNotebook, req.body.key));
  }

  lemma SaveReplayGood(st: Store, req: Request)
    requires StoreOk(st) && req.SaveReq? && (PutNotebook, req.body.key) in st.db.records
    ensures StepGood(st, TransactSave(st, req).0, TransactSave(st, req).1)
  {
    ReplayOk(st, (PutNotebook, req.body.key), req.body.requestHash);
    ReplayedSaveOk(st, req);
    ReplayedSave(st, req);
    StaysGood(st, TransactSave(st, req).1);
  }

  lemma CommittedNoop(st: Store, req: Request)
    requires req.SaveReq? && (PutNotebook, req.body.key) !in st.db.records
    requires req.id in st.db.notebooks && st.db.notebooks[req.id].current == req.base
             && st.db.notebooks[req.id].id == req.id
    requires st.db.notebooks[req.id].hash == DocHash(req.body.doc)
             && (req.id, st.db.notebooks[req.id].current) in st.db.revisions
    ensures var head := st.db.notebooks[req.id];
            TransactSave(st, req) ==
            (AfterNoop(st, WriteOf(req.body), req.id, req.body.doc),
             Finished(req, SaveOk(SaveResult(req.id, head.current, head.hash,
                                             st.db.revisions[(req.id, head.current)].createdAt,
                                             true, FormatEtag(req.id, head.current)))))
  {
  }

  lemma NoopAnswer(st: Store, w: Write, id: string, doc: Json)
    requires id in st.db.notebooks && (id, st.db.notebooks[id].current) in st.db.revisions
    requires st.db.revisions[(id, st.db.notebooks[id].current)].hash == st.db.notebooks[id].hash
    requires StoreOk(AfterNoop(st, w, id, doc))
    ensures var head := st.db.notebooks[id];
            SaveAnswer(AfterNoop(st, w, id, doc), w.key) ==
            SaveResult(id, head.current, head.hash, st.db.revisions[(id, head.current)].createdAt, true,
                       FormatEtag(id, head.current))
  {
  }

  lemma CommittedNoopOk(st: Store, req: Request)
    requires req.SaveReq? && req.id in st.db.notebooks && (req.id, st.db.notebooks[req.id].current) in st.db.revisions
    requires st.db.revisions[(req.id, st.db.notebooks[req.id].current)].hash == st.db.notebooks[req.id].hash
    requires StoreOk(AfterNoop(st, WriteOf(req.body), req.id, req.body.doc))
    ensures var head := st.db.notebooks[req.id];
            ThreadOk(AfterNoop(st, WriteOf(req.body), req.id, req.body.doc),
                     Finished(req, SaveOk(SaveResult(req.id, head.current, head.hash,
                                                     st.db.revisions[(req.id, head.current)].createdAt,
                                                     true, FormatEtag(req.id, head.current)))))
  {
    NoopAnswer(st, WriteOf(req.body), req.id, req.body.doc);
  }

  lemma SaveNoopGood(st: Store, req: Request)
    requires StoreOk(st) && req.SaveReq? && ThreadOk(st, Transact(req)) && (PutNotebook, req.body.key) !in st.db.records
    requires req.id in st.db.notebooks && st.db.notebooks[req.id].current == req.base
    requires st.db.notebooks[req.id].hash == DocHash(req.body.doc)
    ensures StepGood(st, TransactSave(st, req).0, TransactSave(st, req).1)
  {
    var w := WriteOf(req.body);
    NoopKeeps(st, w, req.id, req.body.doc);
    assert NotebookOk(st.db, req.id);
    CommittedNoop(st, req);
    CommittedNoopOk(st, req);
  }

  /** The answer of a save that wrote a revision. */
  function SavedPc(req: Request): Pc
    requires req.SaveReq? && req.base >= 0
  {
    var w := WriteOf(req.body);
    Finished(req, SaveOk(SaveResult(req.id, req.base + 1, w.hash, w.now, false, FormatEtag(req.id, req.base + 1))))
  }

  lemma CommittedSave(st: Store, req: Request, w: Write, next: nat)
    requires req.SaveReq? && (PutNotebook, req.body.key) !in st.db.records && w == WriteOf(req.body)
             && next == req.base + 1
    requires req.id in st.db.notebooks && st.db.notebooks[req.id].current == req.base
    requires st.db.notebooks[req.id].hash != DocHash(req.body.doc)
    requires (req.id, next - 1) in st.db.revisions && (req.id, next) !in st.db.revisions
    ensures TransactSave(st, req) == (AfterSave(st, w, req.id, next, req.body.doc), SavedPc(req))
  {
  }

  lemma SavedAnswer(st: Store, w: Write, id: string, next: nat, doc: Json)
    requires id in st.db.notebooks && StoreOk(AfterSave(st, w, id, next, doc))
    ensures SaveAnswer(AfterSave(st, w, id, next, doc), w.key) ==
            SaveResult(id, next, w.hash, w.now, false, FormatEtag(id, next))
  {
  }

  /** Answering with the recorded result is good. */
  lemma SaveAnswered(st: Store, req: Request, c: SaveResult)
    requires StoreOk(st) && req.SaveReq? && (PutNotebook, req.body.key) in st.db.records
    requires st.db.records[(PutNotebook, req.body.key)].requestHash == req.body.requestHash
    requires c == SaveAnswer(st, req.body.key)
    ensures ThreadOk(st, Finished(req, SaveOk(c)))
  {
  }

  lemma SavedRecord(st: Store, req: Request)
    requires req.SaveReq? && req.id in st.db.notebooks && req.base >= 0
    ensures var rk: RecordKey := (PutNotebook, req.body.key);
            var st' := AfterSave(st, WriteOf(req.body), req.id, req.base + 1, req.body.doc);
            rk in st'.db.records && st'.db.records[rk].requestHash == req.body.requestHash
  {
  }

  lemma CommittedSaveOk(st: Store, st': Store, req: Request)
    requires req.SaveReq? && req.id in st.db.notebooks && req.base >= 0
    requires st' == AfterSave(st, WriteOf(req.body), req.id, req.base + 1, req.body.doc) && StoreOk(st')
    ensures ThreadOk(st', SavedPc(req))
  {
    SavedAnswer(st, WriteOf(req.body), req.id, req.base + 1, req.body.doc);
    SavedRecord(st, req);
    SaveAnswered(st', req, SavedPc(req).response.saved);
  }

  /** What a committed save leaves behind is good. */
  lemma CommittedSaveGood(st: Store, req: Request, w: Write, next: nat)
    requires StoreOk(st) && req.SaveReq? && w == WriteOf(req.body) && next == req.base + 1
    requires WriteOk(st, w, req.body.doc) && Saves(st, w, req.id, next)
    ensures (req.id, next - 1) in st.db.revisions && (req.id, next) !in st.db.revisions
    ensures StepGood(st, AfterSave(st, w, req.id, next, req.body.doc), SavedPc(req))
  {
    SaveKeeps(st, w, req.id, next, req.body.doc);
    CommittedSaveOk(st, AfterSave(st, w, req.id, next, req.body.doc), req);
  }

  lemma SaveCommitGood(st: Store, req: Request, w: Write, next: nat)
    requires StoreOk(st) && req.SaveReq? && w == WriteOf(req.body) && next == req.base + 1
    requires WriteOk(st, w, req.body.doc) && Saves(st, w, req.id, next)
    ensures StepGood(st, TransactSave(st, req).0, TransactSave(st, req).1)
  {
    CommittedSaveGood(st, req, w, next);
    CommittedSave(st, req, w, next);
  }

  lemma RejectedSave(st: Store, req: Request)
    requires req.SaveReq? && (PutNotebook, req.body.key) !in st.db.records
    requires req.id !in st.db.notebooks || st.db.notebooks[req.id].current != req.base
    ensures TransactSave(st, req).0 == st
    ensures TransactSave(st, req).1 ==
            Finished(req, Failed(if req.id !in st.db.notebooks then NoSuchNotebook
                                 else Conflict(req.base, st.db.notebooks[req.id].current,
                                               st.db.notebooks[req.id].hash)))
  {
  }

  lemma TransactSaveGood(st: Store, req: Request)
    requires StoreOk(st) && req.SaveReq? && ThreadOk(st, Transact(req))
    ensures StepGood(st, TransactSave(st, req).0, TransactSave(st, req).1)
  {
    if (PutNotebook, req.body.key) in st.db.records {
      SaveReplayGood(st, req);
    } else if req.id !in st.db.notebooks || st.db.notebooks[req.id].current != req.base {
      RejectedSave(st, req);
      StaysGood(st, TransactSave(st, req).1);
    } else if st.db.notebooks[req.id].hash == DocHash(req.body.doc) {
      SaveNoopGood(st, req);
    } else {
      SaveCommitGood(st, req, WriteOf(req.body), req.base + 1);
    }
  }

  /** A committed revision can be read: its blob is there, has its hash, and is the document saved. */
  lemma RevisionReadable(st: Store, k: RevisionKey)
    requires StoreOk(st) && k in st.db.revisions
    ensures k in st.saved && ReadContent(st.blobs, st.db.revisions[k]) == Some(st.saved[k])
    ensures st.db.revisions[k].revision == k.1
  {
    assert RevisionOk(st, k);
  }

  lemma ReplayStep(st: Store, req: Request, notebook: NotebookRow, row: RevisionRow, replay: IdemRecord, e: Env,
                   content: Json)
    requires ReadContent(st.blobs, row) == Some(content)
    ensures ThreadStep(st, ReadReplay(req, notebook, row, replay), e) ==
            (st, if e.fails then Finished(req, Failed(StorageUnavailable))
                 else Finished(req, CreateOk(CreateResult(replay.status, notebook.id, notebook.title, row.revision,
                                                          row.hash,
                                                          notebook.createdAt, row.createdAt, content, replay.location,
                                                          replay.etag))))
  {
  }

  /** The rows behind a create's record hold what every answer to its key says. */
  lemma RecordedRows(st: Store, key: string)
    requires StoreOk(st) && (PostNotebooks, key) in st.db.records
    ensures var rec := st.db.records[(PostNotebooks, key)];
            var k: RevisionKey := (rec.notebook, 1);
            && rec.revision == 1 && k.0 in st.db.notebooks && k in st.db.revisions && k in st.saved
            && ReadContent(st.blobs, st.db.revisions[k]) == Some(st.saved[k])
            && st.db.notebooks[k.0].createdAt == st.db.revisions[k].createdAt && st.db.revisions[k].revision == 1
            && CreateAnswer(st, key) ==
                 CreateResult(rec.status, rec.notebook, st.db.notebooks[k.0].title, 1, st.db.revisions[k].hash,
                              st.db.revisions[k].createdAt, st.db.revisions[k].createdAt, st.saved[k], rec.location,
                              rec.etag)
  {
    assert RecordOk(st, (PostNotebooks, key));
    var rec := st.db.records[(PostNotebooks, key)];
    RevisionReadable(st, (rec.notebook, 1));
    assert NotebookOk(st.db, rec.notebook);
  }

  lemma ReadReplayGood(st: Store, req: Request, notebook: NotebookRow, row: RevisionRow, replay: IdemRecord, e: Env)
    requires StoreOk(st) && ThreadOk(st, ReadReplay(req, notebook, row, replay))
    ensures var r := ThreadStep(st, ReadReplay(req, notebook, row, replay), e); StepGood(st, r.0, r.1)
  {
    RecordedRows(st, req.body.key);
    ReplayStep(st, req, notebook, row, replay, e, st.saved[(replay.notebook, 1)]);
    StaysGood(st, ThreadStep(st, ReadReplay(req, notebook, row, replay), e).1);
  }

  lemma HeadIsSeen(st: Store, id: string)
    requires StoreOk(st) && id in st.db.notebooks
    ensures st.db.notebooks[id].id == id && HeadSeen(st.db, st.db.notebooks[id])
    ensures forall r: nat :: 1 <= r <= st.db.notebooks[id].current ==> (id, r) in st.db.revisions
  {
    assert NotebookOk(st.db, id);
  }

  lemma ReadHeadStep(st: Store, req: Request, e: Env)
    requires IsRead(req) && (req.id in st.db.notebooks ==>
                             st.db.notebooks[req.id].id == req.id && HeadSeen(st.db, st.db.notebooks[req.id]))
    ensures var r := ThreadStep(st, ReadHead(req), e);
            && r.0 == st
            && (r.1 == Finished(req, Failed(StorageUnavailable)) || r.1 == Finished(req, Failed(NoSuchNotebook))
                || (r.1.ReadRow? && r.1.req == req && r.1.head.id == req.id && HeadSeen(st.db, r.1.head)))
  {
  }

  lemma ReadHeadGood(st: Store, req: Request, e: Env)
    requires StoreOk(st) && ThreadOk(st, ReadHead(req))
    ensures var r := ThreadStep(st, ReadHead(req), e); StepGood(st, r.0, r.1)
  {
    if req.id in st.db.notebooks {
      HeadIsSeen(st, req.id);
    }
    ReadHeadStep(st, req, e);
    StaysGood(st, ThreadStep(st, ReadHead(req), e).1);
  }

  /** The row read for a seen head is there, and answers the request with or without content. */
  lemma ReadRowStep(st: Store, req: Request, head: NotebookRow, e: Env)
    requires IsRead(req) && head.id == req.id && HeadSeen(st.db, head)
    requires forall r: nat :: 1 <= r <= st.db.notebooks[req.id].current ==> (req.id, r) in st.db.revisions
    requires var k := (req.id, if req.GetReq? then head.current else req.revision);
             k in st.db.revisions ==> k in st.saved && st.db.revisions[k].revision == k.1
    ensures var r := ThreadStep(st, ReadRow(req, head), e);
            && r.0 == st
            && (r.1 == Finished(req, Failed(StorageUnavailable)) || r.1 == Finished(req, Failed(NoSuchRevision))
                || (r.1.Finished? && r.1.req == req && r.1.response.GetOk? && GetOkOk(st, req, r.1.response.got))
                || (&& r.1.ReadBlob? && r.1.req == req && r.1.head == head && RowSeen(st, req.id, r.1.row)
                    && r.1.row.revision == (if req.GetReq? then head.current else req.revision)
                    && !EtagMatches(req.ifNoneMatch, FormatEtag(req.id, r.1.row.revision))))
  {
  }

  lemma ReadRowGood(st: Store, req: Request, head: NotebookRow, e: Env)
    requires StoreOk(st) && ThreadOk(st, ReadRow(req, head))
    ensures var r := ThreadStep(st, ReadRow(req, head), e); StepGood(st, r.0, r.1)
  {
    HeadIsSeen(st, req.id);
    var k: RevisionKey := (req.id, if req.GetReq? then head.current else req.revision);
    if k in st.db.revisions {
      RevisionReadable(st, k);
    }
    ReadRowStep(st, req, head, e);
    StaysGood(st, ThreadStep(st, ReadRow(req, head), e).1);
  }

  lemma ReadBlobStep(st: Store, req: Request, head: NotebookRow, row: RevisionRow, e: Env)
    requires IsRead(req) && head.id == req.id && HeadSeen(st.db, head) && RowSeen(st, req.id, row)
    requires row.revision == (if req.GetReq? then head.current else req.revision)
    requires !EtagMatches(req.ifNoneMatch, FormatEtag(req.id, row.revision))
    requires (req.id, row.revision) in st.saved && ReadContent(st.blobs, row) == Some(st.saved[(req.id, row.revision)])
    ensures var r := ThreadStep(st, ReadBlob(req, head, row), e);
            && r.0 == st
            && (r.1 == Finished(req, Failed(StorageUnavailable))
                || (r.1.Finished? && r.1.req == req && r.1.response.GetOk? && GetOkOk(st, req, r.1.response.got)))
  {
  }

  lemma ReadBlobGood(st: Store, req: Request, head: NotebookRow, row: RevisionRow, e: Env)
    requires StoreOk(st) && ThreadOk(st, ReadBlob(req, head, row))
    ensures var r := ThreadStep(st, ReadBlob(req, head, row), e); StepGood(st, r.0, r.1)
  {
    RevisionReadable(st, (req.id, row.revision));
    ReadBlobStep(st, req, head, row, e);
    StaysGood(st, ThreadStep(st, ReadBlob(req, head, row), e).1);
  }

  lemma TransactGood(st: Store, req: Request, e: Env)
    requires StoreOk(st) && ThreadOk(st, Transact(req))
    ensures var r := ThreadStep(st, Transact(req), e); StepGood(st, r.0, r.1)
  {
    if e.fails || (req.CreateReq? && e.id in st.db.notebooks) {
      StaysGood(st, ThreadStep(st, Transact(req), e).1);
    } else if req.CreateReq? {
      TransactCreateGood(st, req, e.id);
    } else {
      TransactSaveGood(st, req);
    }
  }

  lemma PutBlobGood(st: Store, req: Request, e: Env)
    requires StoreOk(st) && ThreadOk(st, PutBlob(req))
    ensures var r := ThreadStep(st, PutBlob(req), e); StepGood(st, r.0, r.1)
  {
    if e.fails {
      StaysGood(st, ThreadStep(st, PutBlob(req), e).1);
    } else {
      PutKeeps(st, req.body.doc);
    }
  }

  lemma ThreadStepGood(st: Store, pc: Pc, e: Env)
    requires StoreOk(st) && ThreadOk(st, pc)
    ensures StepGood(st, ThreadStep(st, pc, e).0, ThreadStep(st, pc, e).1)
  {
    match pc
    case PutBlob(req) => PutBlobGood(st, req, e);
    case ExistsBlob(req) => StaysGood(st, ThreadStep(st, pc, e).1);
    case Transact(req) => TransactGood(st, req, e);
    case ReadReplay(req, notebook, row, replay) => ReadReplayGood(st, req, notebook, row, replay, e);
    case ReadHead(req) => ReadHeadGood(st, req, e);
    case ReadRow(req, head) => ReadRowGood(st, req, head, e);
    case ReadBlob(req, head, row) => ReadBlobGood(st, req, head, row, e);
    case Finished(_, _) => StaysGood(st, pc);
    case Crashed => StaysGood(st, pc);
  }

  // ---------------------------------------------------------------------------------------------
  // Runs.

  lemma OthersStable(s: State, st': Store, t: nat, pc': Pc)
    requires Inv(s) && StepGood(s.store, st', pc')
    ensures Inv(State(st', s.threads[t := pc']))
  {
    forall u | u in s.threads && u != t
      ensures ThreadOk(st', s.threads[u])
    {
      ThreadStable(s.store, st', s.threads[u]);
    }
  }

  lemma StepInv(s: State, a: Action)
    requires Inv(s)
    ensures Inv(Step(s, a)) && Grows(s.store, Step(s, a).store)
  {
    match a
    case Begin(t, req) =>
      StaysGood(s.store, Start(req));
      OthersStable(s, s.store, t, Start(req));
    case Crash(t) =>
      StaysGood(s.store, Crashed);
      OthersStable(s, s.store, t, Crashed);
    case Advance(t, e) =>
      if t in s.threads {
        var r := ThreadStep(s.store, s.threads[t], e);
        ThreadStepGood(s.store, s.threads[t], e);
        OthersStable(s, r.0, t, r.1);
      } else {
        StaysGood(s.store, Crashed);
      }
  }

  lemma {:induction false} ReachableInv(actions: seq<Action>)
    ensures Inv(Exec(INIT, actions))
    decreases |actions|
  {
    if actions != [] {
      ReachableInv(actions[..|actions| - 1]);
      StepInv(Exec(INIT, actions[..|actions| - 1]), actions[|actions| - 1]);
    }
  }

  lemma GrowsTransitive(a: Store, b: Store, c: Store)
    requires Grows(a, b) && Grows(b, c) && StoreOk(a)
    ensures Grows(a, c)
  {
  }

  /** Along a run the durable state only grows. */
  lemma {:induction false} RunGrows(actions: seq<Action>, k: nat)
    requires k <= |actions|
    ensures Grows(Exec(INIT, actions[..k]).store, Exec(INIT, actions).store)
    decreases |actions|
  {
    ReachableInv(actions[..k]);
    if k == |actions| {
      assert actions[..k] == actions;
    } else {
      var front := actions[..|actions| - 1];
      assert front[..k] == actions[..k];
      RunGrows(front, k);
      ReachableInv(front);
      StepInv(Exec(INIT, front), actions[|actions| - 1]);
      GrowsTransitive(Exec(INIT, actions[..k]).store, Exec(INIT, front).store, Exec(INIT, actions).store);
    }
  }
}
