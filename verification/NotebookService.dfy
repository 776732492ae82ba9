/** The notebook service as a transition system (notebook-service/app/services/notebooks.py).

    Each request runs in its own thread: blob calls, transactions and single-row reads are atomic steps,
    any thread may take the next one, calls may fail and roll back, and a thread may die anywhere. */
module NotebookService {
  import opened Common
  import opened Json
  import opened Etag
  import opened NotebookRepository

  // ---------------------------------------------------------------------------------------------
  // Requests, responses, state.

  /** A validated write: the document has been normalised or checked, and the clock read. */
  datatype Body = Body(key: string, requestHash: string, doc: Json, size: nat, now: int)

  datatype Request =
    | CreateReq(body: Body, title: string)
    | SaveReq(body: Body, id: string, base: int)
    | GetReq(id: string, ifNoneMatch: Option<string>)
    | GetRevisionReq(id: string, revision: nat, ifNoneMatch: Option<string>)

  datatype CreateResult = CreateResult(
    status: nat, id: string, title: string, revision: nat, hash: Digest, createdAt: int, updatedAt: int,
    content: Json, location: Option<string>, etag: string)

  datatype SaveResult = SaveResult(
    id: string, revision: nat, hash: Digest, updatedAt: int, noop: bool, etag: string)

  /** `content` is None for a 304. */
  datatype GetResult = GetResult(
    id: string, title: string, revision: nat, hash: Digest, createdAt: int, updatedAt: int,
    content: Option<Json>, etag: string)

  datatype Failure =
    | KeyReused
    | NoSuchNotebook
    | NoSuchRevision
    | Conflict(base: int, current: nat, hash: Digest)
    | StorageUnavailable
    | InternalError

  datatype Response =
    | CreateOk(created: CreateResult)
    | SaveOk(saved: SaveResult)
    | GetOk(got: GetResult)
    | Failed(failure: Failure)

  datatype Pc =
    | PutBlob(req: Request)
    | ExistsBlob(req: Request)
    | Transact(req: Request)
    | ReadReplay(req: Request, notebook: NotebookRow, row: RevisionRow, replay: IdemRecord)
    | ReadHead(req: Request)
    | ReadRow(req: Request, head: NotebookRow)
    | ReadBlob(req: Request, head: NotebookRow, row: RevisionRow)
    | Finished(req: Request, response: Response)
    | Crashed

  datatype Commit = Commit(requestHash: string, base: Option<int>, doc: Json)

  /** The durable state, with its history: the document saved as each revision, the idempotency record
      written together with each revision, and the request behind each record. */
  datatype Store = Store(
    db: Db,
    blobs: Blobs,
    saved: map<RevisionKey, Json>,
    author: map<RevisionKey, RecordKey>,
    commits: map<RecordKey, Commit>)

  datatype State = State(store: Store, threads: map<nat, Pc>)

  /** The environment's choices for one step: whether the call fails, and a generated notebook id. */
  datatype Env = Env(fails: bool, id: string)

  datatype Action =
    | Begin(thread: nat, req: Request)
    | Advance(thread: nat, env: Env)
    | Crash(thread: nat)

  // ---------------------------------------------------------------------------------------------
  // Steps.

  const TTL := 86400

  function WriteOf(body: Body): Write {
    Write(body.key, body.requestHash, DocHash(body.doc), KeyFor(DocHash(body.doc)), body.size, body.now, TTL)
  }

  /** _read_content: None is one of the integrity faults. */
  function ReadContent(blobs: Blobs, row: RevisionRow): Option<Json> {
    if row.blobKey !in blobs then None
    else if Sha256(blobs[row.blobKey]) != row.hash then None
    else Decode(blobs[row.blobKey])
  }

  /** _etag_matches. */
  predicate EtagMatches(ifNoneMatch: Option<string>, etag: string) {
    ifNoneMatch.Some? && Strip(ifNoneMatch.value) == etag
  }

  function TransactCreate(st: Store, req: Request, id: string): (Store, Pc)
    requires req.CreateReq?
  {
    var w := WriteOf(req.body);
    var (db, outcome) := CreateTx(st.db, w, id, req.title);
    match outcome
    case KeyConflict => (st, Finished(req, Failed(KeyReused)))
    case Replayed(notebook, row, replay) => (st, ReadReplay(req, notebook, row, replay))
    case Created(notebook, row) =>
      (Store(db, st.blobs, st.saved[(id, 1) := req.body.doc], st.author[(id, 1) := (PostNotebooks, w.key)],
             st.commits[(PostNotebooks, w.key) := Commit(w.requestHash, None, req.body.doc)]),
       Finished(req, CreateOk(CreateResult(201, notebook.id, req.title, 1, w.hash, w.now, w.now, req.body.doc,
                                           Some(LocationOf(notebook.id)), FormatEtag(notebook.id, 1)))))
    case _ => (st, Finished(req, Failed(InternalError)))
  }

  function TransactSave(st: Store, req: Request): (Store, Pc)
    requires req.SaveReq?
  {
    var w := WriteOf(req.body);
    var (db, outcome) := SaveTx(st.db, w, req.id, req.base);
    var commits := st.commits[(PutNotebook, w.key) := Commit(w.requestHash, Some(req.base), req.body.doc)];
    match outcome
    case KeyConflict => (st, Finished(req, Failed(KeyReused)))
    case NotFound => (st, Finished(req, Failed(NoSuchNotebook)))
    case RevisionConflict(current, hash) => (st, Finished(req, Failed(Conflict(req.base, current, hash))))
    case Replayed(notebook, row, replay) =>
      if replay.metadata.SaveMeta? then
        (st, Finished(req, SaveOk(SaveResult(replay.notebook, replay.revision, replay.metadata.hash,
                                             replay.metadata.updatedAt, replay.metadata.noop, replay.etag))))
      else (st, Finished(req, Failed(InternalError)))
    case Unchanged(notebook, row) =>
      (st.(db := db, commits := commits),
       Finished(req, SaveOk(SaveResult(notebook.id, notebook.current, notebook.hash, row.createdAt, true,
                                       FormatEtag(notebook.id, notebook.current)))))
    case Saved(row) =>
      (Store(db, st.blobs, st.saved[(req.id, row.revision) := req.body.doc],
             st.author[(req.id, row.revision) := (PutNotebook, w.key)], commits),
       Finished(req, SaveOk(SaveResult(req.id, row.revision, row.hash, row.createdAt, false,
                                       FormatEtag(req.id, row.revision)))))
    case _ => (st, Finished(req, Failed(InternalError)))
  }

  /** The answer of get and get_revision once the row is known, if no content is needed. */
  function Answer(head: NotebookRow, row: RevisionRow, content: Option<Json>): GetResult {
    GetResult(head.id, head.title, row.revision, row.hash, head.createdAt, row.createdAt, content,
              FormatEtag(head.id, row.revision))
  }

  function ThreadStep(st: Store, pc: Pc, e: Env): (Store, Pc) {
    match pc
    case PutBlob(req) =>
      if !(req.CreateReq? || req.SaveReq?) then (st, pc)
      else if e.fails then (st, Finished(req, Failed(StorageUnavailable)))
      else (st.(blobs := Put(st.blobs, Canonical(req.body.doc))), Transact(req))
    case ExistsBlob(req) =>
      if !req.SaveReq? then (st, pc)
      else (st, if KeyFor(DocHash(req.body.doc)) in st.blobs then Transact(req) else PutBlob(req))
    case Transact(req) =>
      if e.fails then (st, Finished(req, Failed(StorageUnavailable)))
      else if req.CreateReq? then
        (if e.id in st.db.notebooks then (st, pc) else TransactCreate(st, req, e.id))
      else if req.SaveReq? then TransactSave(st, req)
      else (st, pc)
    case ReadReplay(req, notebook, row, replay) =>
      if e.fails then (st, Finished(req, Failed(StorageUnavailable)))
      else (match ReadContent(st.blobs, row)
            case None => (st, Finished(req, Failed(InternalError)))
            case Some(content) =>
              (st, Finished(req, CreateOk(CreateResult(replay.status, notebook.id, notebook.title, row.revision,
                                                       row.hash,
                                                       notebook.createdAt, row.createdAt, content,
                                                       replay.location, replay.etag)))))
    case ReadHead(req) =>
      if !(req.GetReq? || req.GetRevisionReq?) then (st, pc)
      else if e.fails then (st, Finished(req, Failed(StorageUnavailable)))
      else if req.id !in st.db.notebooks then (st, Finished(req, Failed(NoSuchNotebook)))
      else (st, ReadRow(req, st.db.notebooks[req.id]))
    case ReadRow(req, head) =>
      if !(req.GetReq? || req.GetRevisionReq?) then (st, pc)
      else if e.fails then (st, Finished(req, Failed(StorageUnavailable)))
      else
        var revision := if req.GetReq? then head.current else req.revision;
        if (req.id, revision) !in st.db.revisions then
          (st, Finished(req, Failed(if req.GetReq? then InternalError else NoSuchRevision)))
        else
          var row := st.db.revisions[(req.id, revision)];
          if EtagMatches(req.ifNoneMatch, FormatEtag(req.id, row.revision)) then
            (st, Finished(req, GetOk(Answer(head, row, None))))
          else (st, ReadBlob(req, head, row))
    case ReadBlob(req, head, row) =>
      if e.fails then (st, Finished(req, Failed(StorageUnavailable)))
      else (match ReadContent(st.blobs, row)
            case None => (st, Finished(req, Failed(InternalError)))
            case Some(content) => (st, Finished(req, GetOk(Answer(head, row, Some(content))))))
    case Finished(_, _) => (st, pc)
    case Crashed => (st, pc)
  }

  function Start(req: Request): Pc {
    match req
    case CreateReq(_, _) => PutBlob(req)
    case SaveReq(_, _, _) => ExistsBlob(req)
    case _ => ReadHead(req)
  }

  function Step(s: State, a: Action): State {
    match a
    case Begin(t, req) => if t in s.threads then s else s.(threads := s.threads[t := Start(req)])
    case Crash(t) =>
      if t in s.threads && !s.threads[t].Finished? then s.(threads := s.threads[t := Crashed]) else s
    case Advance(t, e) =>
      if t !in s.threads then s
      else
        var (store, pc) := ThreadStep(s.store, s.threads[t], e);
        State(store, s.threads[t := pc])
  }

  function Exec(s: State, actions: seq<Action>): State
    decreases |actions|
  {
    if actions == [] then s else Step(Exec(s, actions[..|actions| - 1]), actions[|actions| - 1])
  }

  const INIT := State(Store(EMPTY, map[], map[], map[], map[]), map[])

  // ---------------------------------------------------------------------------------------------
  // Invariant.

  /** A notebook's revisions are exactly 1..current, and its head repeats the last row. */
  ghost predicate NotebookOk(db: Db, id: string)
    requires id in db.notebooks
  {
    var head := db.notebooks[id];
    && head.id == id && head.current >= 1
    && (forall r: nat :: (id, r) in db.revisions <==> 1 <= r <= head.current)
    && head.hash == db.revisions[(id, head.current)].hash
    && head.updatedAt == db.revisions[(id, head.current)].createdAt
    && head.createdAt == db.revisions[(id, 1)].createdAt
  }

  /** The record was written together with its revision, rather than for a save that changed nothing. */
  predicate WroteRevision(rk: RecordKey, rec: IdemRecord) {
    rk.0 == PostNotebooks || (rec.metadata.SaveMeta? && !rec.metadata.noop)
  }

  ghost predicate RevisionOk(st: Store, k: RevisionKey)
    requires k in st.db.revisions
  {
    var row := st.db.revisions[k];
    && k.0 in st.db.notebooks && row.notebook == k.0 && row.revision == k.1 && k.1 >= 1
    && k in st.saved && row.hash == DocHash(st.saved[k])
    && row.blobKey == KeyFor(row.hash) && row.blobKey in st.blobs
    && k in st.author
    && var rk := st.author[k];
    && rk in st.db.records && WroteRevision(rk, st.db.records[rk])
    && st.db.records[rk].notebook == k.0 && st.db.records[rk].revision == k.1
    && rk in st.commits && st.commits[rk].doc == st.saved[k]
    && (if k.1 == 1 then rk.0 == PostNotebooks else rk.0 == PutNotebook && st.commits[rk].base == Some(k.1 - 1))
  }

  ghost predicate RecordOk(st: Store, rk: RecordKey)
    requires rk in st.db.records
  {
    var rec := st.db.records[rk];
    var k := (rec.notebook, rec.revision);
    && k in st.db.revisions && k.0 in st.db.notebooks
    && rec.etag == FormatEtag(k.0, k.1)
    && rk in st.commits && st.commits[rk].requestHash == rec.requestHash
    && k in st.saved && st.commits[rk].doc == st.saved[k]
    && (WroteRevision(rk, rec) ==> k in st.author && st.author[k] == rk)
    && var row := st.db.revisions[k];
    match rk.0
    case PostNotebooks =>
      && rec.revision == 1 && rec.status == 201 && rec.location == Some(LocationOf(k.0))
      && rec.metadata == CreateMeta(k.0, st.db.notebooks[k.0].title, 1, row.hash, row.createdAt, row.createdAt)
    case PutNotebook =>
      && rec.status == 200 && rec.location == None && rec.metadata.SaveMeta?
      && rec.metadata == SaveMeta(k.0, k.1, row.hash, row.createdAt, rec.metadata.noop)
  }

  ghost predicate NotebooksOk(db: Db) {
    forall id :: id in db.notebooks ==> NotebookOk(db, id)
  }

  ghost predicate RevisionsOk(st: Store) {
    forall k :: k in st.db.revisions ==> RevisionOk(st, k)
  }

  ghost predicate RecordsOk(st: Store) {
    forall rk :: rk in st.db.records ==> RecordOk(st, rk)
  }

  /** No revision repeats the content of the one before it. */
  ghost predicate AdjacentDiffer(db: Db) {
    forall id, r: nat, q: nat :: (id, r) in db.revisions && (id, q) in db.revisions && q == r + 1
      ==> db.revisions[(id, r)].hash != db.revisions[(id, q)].hash
  }

  ghost predicate StoreOk(st: Store) {
    NotebooksOk(st.db) && AdjacentDiffer(st.db) && RevisionsOk(st) && RecordsOk(st) && ContentAddressed(st.blobs)
  }

  /** The durable state only grows: rows, records and blobs are never changed, except that a head moves up. */
  ghost predicate Grows(st: Store, st': Store) {
    && (forall id :: id in st.db.notebooks ==>
          && id in st'.db.notebooks && st'.db.notebooks[id].id == st.db.notebooks[id].id
          && st'.db.notebooks[id].title == st.db.notebooks[id].title
          && st'.db.notebooks[id].createdAt == st.db.notebooks[id].createdAt
          && st.db.notebooks[id].current <= st'.db.notebooks[id].current)
    && (forall k :: k in st.db.revisions ==> k in st'.db.revisions && st'.db.revisions[k] == st.db.revisions[k])
    && (forall k :: k in st.db.revisions && k in st.saved ==> k in st'.saved && st'.saved[k] == st.saved[k])
    && (forall rk :: rk in st.db.records ==> rk in st'.db.records && st'.db.records[rk] == st.db.records[rk])
    && (forall b :: b in st.blobs ==> b in st'.blobs && st'.blobs[b] == st.blobs[b])
  }

  /** What every answer to a create with this key says: the result of the one commit behind the record. */
  ghost function CreateAnswer(st: Store, key: string): CreateResult
    requires StoreOk(st) && (PostNotebooks, key) in st.db.records
  {
    var rk: RecordKey := (PostNotebooks, key);
    assert RecordOk(st, rk);
    var rec := st.db.records[rk];
    var k := (rec.notebook, rec.revision);
    CreateResult(201, k.0, st.db.notebooks[k.0].title, 1, st.db.revisions[k].hash, st.db.revisions[k].createdAt,
                 st.db.revisions[k].createdAt, st.saved[k], Some(LocationOf(k.0)), FormatEtag(k.0, 1))
  }

  ghost function SaveAnswer(st: Store, key: string): SaveResult
    requires StoreOk(st) && (PutNotebook, key) in st.db.records
  {
    var rk: RecordKey := (PutNotebook, key);
    assert RecordOk(st, rk);
    var rec := st.db.records[rk];
    var k := (rec.notebook, rec.revision);
    SaveResult(k.0, k.1, st.db.revisions[k].hash, st.db.revisions[k].createdAt, rec.metadata.noop, FormatEtag(k.0, k.1))
  }

  /** The head row as some earlier read saw it. */
  ghost predicate HeadSeen(db: Db, head: NotebookRow) {
    && head.id in db.notebooks
    && db.notebooks[head.id].title == head.title && db.notebooks[head.id].createdAt == head.createdAt
    && 1 <= head.current <= db.notebooks[head.id].current
  }

  predicate IsRead(req: Request) {
    req.GetReq? || req.GetRevisionReq?
  }

  ghost predicate GetOkOk(st: Store, req: Request, g: GetResult) {
    && IsRead(req) && g.id == req.id
    && var k := (g.id, g.revision);
    && k in st.db.revisions && k in st.saved && g.id in st.db.notebooks
    && g.title == st.db.notebooks[g.id].title && g.createdAt == st.db.notebooks[g.id].createdAt
    && g.hash == st.db.revisions[k].hash && g.updatedAt == st.db.revisions[k].createdAt
    && g.etag == FormatEtag(g.id, g.revision)
    && (g.content.Some? ==> g.content.value == st.saved[k])
    && (g.content.None? <==> EtagMatches(req.ifNoneMatch, g.etag))
    && (req.GetRevisionReq? ==> g.revision == req.revision)
  }

  ghost predicate ResponseOk(st: Store, req: Request, r: Response)
    requires StoreOk(st)
  {
    match r
    case CreateOk(c) =>
      && req.CreateReq? && (PostNotebooks, req.body.key) in st.db.records
      && st.db.records[(PostNotebooks, req.body.key)].requestHash == req.body.requestHash
      && c == CreateAnswer(st, req.body.key)
    case SaveOk(c) =>
      && req.SaveReq? && (PutNotebook, req.body.key) in st.db.records
      && st.db.records[(PutNotebook, req.body.key)].requestHash == req.body.requestHash
      && c == SaveAnswer(st, req.body.key)
    case GetOk(g) => GetOkOk(st, req, g)
    case Failed(f) => f != InternalError
  }

  ghost predicate RowSeen(st: Store, id: string, row: RevisionRow) {
    (id, row.revision) in st.db.revisions && st.db.revisions[(id, row.revision)] == row
  }

  ghost predicate ThreadOk(st: Store, pc: Pc)
    requires StoreOk(st)
  {
    match pc
    case PutBlob(req) => req.CreateReq? || req.SaveReq?
    case ExistsBlob(req) => req.SaveReq?
    case Transact(req) => (req.CreateReq? || req.SaveReq?) && KeyFor(DocHash(req.body.doc)) in st.blobs
    case ReadReplay(req, notebook, row, replay) =>
      && req.CreateReq? && (PostNotebooks, req.body.key) in st.db.records
      && replay == st.db.records[(PostNotebooks, req.body.key)] && replay.requestHash == req.body.requestHash
      && notebook.id == replay.notebook && HeadSeen(st.db, notebook)
      && row.revision == replay.revision && RowSeen(st, replay.notebook, row)
    case ReadHead(req) => IsRead(req)
    case ReadRow(req, head) => IsRead(req) && head.id == req.id && HeadSeen(st.db, head)
    case ReadBlob(req, head, row) =>
      && IsRead(req) && head.id == req.id && HeadSeen(st.db, head) && RowSeen(st, req.id, row)
      && row.revision == (if req.GetReq? then head.current else req.revision)
      && !EtagMatches(req.ifNoneMatch, FormatEtag(req.id, row.revision))
    case Finished(req, r) => ResponseOk(st, req, r)
    case Crashed => true
  }

  ghost predicate Inv(s: State) {
    StoreOk(s.store) && forall t :: t in s.threads ==> ThreadOk(s.store, s.threads[t])
  }
}
