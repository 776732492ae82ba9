/** The notebook metadata tables and their two write transactions
    (notebook-service/app/repositories/sqlalchemy.py), and the blob store
    (notebook-service/app/storage/local.py).

    A transaction runs under BEGIN IMMEDIATE, so it is one step. The functions on values are the
    specification; the classes are the code's own form and are proved equal to them. */
module NotebookRepository {
  import opened Common
  import opened Json
  import opened Etag

  // ---------------------------------------------------------------------------------------------
  // Content.

  /** Byte strings: the canonical JSON of a document, or anything else. */
  datatype Bytes = Canonical(doc: Json) | Raw(data: string)

  function Decode(data: Bytes): Option<Json> {
    if data.Canonical? then Some(data.doc) else None
  }

  /** SHA-256, taken to be injective. */
  datatype Digest = Sha256(data: Bytes)

  /** LocalBlobStore.key_for. */
  datatype BlobKey = KeyFor(digest: Digest)

  function DocHash(doc: Json): Digest {
    Sha256(Canonical(doc))
  }

  // ---------------------------------------------------------------------------------------------
  // Rows.

  datatype NotebookRow = NotebookRow(
    id: string, title: string, current: nat, hash: Digest, createdAt: int, updatedAt: int)

  datatype RevisionRow = RevisionRow(
    notebook: string, revision: nat, hash: Digest, blobKey: BlobKey, size: nat, createdAt: int)

  datatype Scope = PostNotebooks | PutNotebook

  /** The result stored with an idempotency record. */
  datatype Metadata =
    | CreateMeta(notebook: string, title: string, revision: nat, hash: Digest, createdAt: int, updatedAt: int)
    | SaveMeta(notebook: string, revision: nat, hash: Digest, updatedAt: int, noop: bool)

  datatype IdemRecord = IdemRecord(
    requestHash: string, status: nat, notebook: string, revision: nat, metadata: Metadata,
    location: Option<string>, etag: string, createdAt: int, expiresAt: int)

  type RecordKey = (Scope, string)
  type RevisionKey = (string, nat)

  datatype Db = Db(
    notebooks: map<string, NotebookRow>,
    revisions: map<RevisionKey, RevisionRow>,
    records: map<RecordKey, IdemRecord>)

  const EMPTY := Db(map[], map[], map[])

  /** The arguments the two transactions share. */
  datatype Write = Write(key: string, requestHash: string, hash: Digest, blobKey: BlobKey, size: nat, now: int,
                         ttl: int)

  datatype Outcome =
    | Created(notebook: NotebookRow, revision: RevisionRow)
    | Saved(revision: RevisionRow)
    | Unchanged(notebook: NotebookRow, revision: RevisionRow)
    | Replayed(notebook: NotebookRow, revision: RevisionRow, replay: IdemRecord)
    | KeyConflict
    | NotFound
    | RevisionConflict(current: nat, hash: Digest)
    | IntegrityFault

  // ---------------------------------------------------------------------------------------------
  // Transactions.

  /** _resolve_idempotency. */
  function Resolve(db: Db, existing: IdemRecord, requestHash: string): Outcome {
    if existing.requestHash != requestHash then KeyConflict
    else if existing.notebook !in db.notebooks
            || (existing.notebook, existing.revision) !in db.revisions then IntegrityFault
    else Replayed(db.notebooks[existing.notebook], db.revisions[(existing.notebook, existing.revision)], existing)
  }

  function LocationOf(id: string): string {
    "/api/v1/notebooks/" + id
  }

  function CreateRecord(w: Write, id: string, title: string): IdemRecord {
    IdemRecord(w.requestHash, 201, id, 1, CreateMeta(id, title, 1, w.hash, w.now, w.now),
               Some(LocationOf(id)), FormatEtag(id, 1), w.now, w.now + w.ttl)
  }

  function SaveRecord(w: Write, id: string, revision: nat, hash: Digest, updatedAt: int, noop: bool): IdemRecord {
    IdemRecord(w.requestHash, 200, id, revision, SaveMeta(id, revision, hash, updatedAt, noop),
               None, FormatEtag(id, revision), w.now, w.now + w.ttl)
  }

  /** create_notebook. A primary key that is taken raises and rolls back. */
  function CreateTx(db: Db, w: Write, id: string, title: string): (Db, Outcome) {
    if (PostNotebooks, w.key) in db.records then
      (db, Resolve(db, db.records[(PostNotebooks, w.key)], w.requestHash))
    else if id in db.notebooks || (id, 1) in db.revisions then (db, IntegrityFault)
    else
      var notebook := NotebookRow(id, title, 1, w.hash, w.now, w.now);
      var revision := RevisionRow(id, 1, w.hash, w.blobKey, w.size, w.now);
      (Db(db.notebooks[id := notebook],
          db.revisions[(id, 1) := revision],
          db.records[(PostNotebooks, w.key) := CreateRecord(w, id, title)]),
       Created(notebook, revision))
  }

  /** save_notebook. */
  function SaveTx(db: Db, w: Write, id: string, base: int): (Db, Outcome) {
    if (PutNotebook, w.key) in db.records then
      (db, Resolve(db, db.records[(PutNotebook, w.key)], w.requestHash))
    else if id !in db.notebooks then (db, NotFound)
    else
      var notebook := db.notebooks[id];
      if notebook.current != base then (db, RevisionConflict(notebook.current, notebook.hash))
      else if (id, notebook.current) !in db.revisions then (db, IntegrityFault)
      else if notebook.hash == w.hash then
        var head := db.revisions[(id, notebook.current)];
        (db.(records := db.records[(PutNotebook, w.key) :=
               SaveRecord(w, id, notebook.current, notebook.hash, head.createdAt, true)]),
         Unchanged(notebook, head))
      else if (id, notebook.current + 1) in db.revisions then (db, IntegrityFault)
      else
        var next := notebook.current + 1;
        var revision := RevisionRow(id, next, w.hash, w.blobKey, w.size, w.now);
        (Db(db.notebooks[id := notebook.(current := next, hash := w.hash, updatedAt := w.now)],
            db.revisions[(id, next) := revision],
            db.records[(PutNotebook, w.key) := SaveRecord(w, id, next, w.hash, w.now, false)]),
         Saved(revision))
  }

  // ---------------------------------------------------------------------------------------------
  // The code's own form.

  class SqlNotebookRepository {
    var notebooks: map<string, NotebookRow>
    var revisions: map<RevisionKey, RevisionRow>
    var records: map<RecordKey, IdemRecord>

    function Contents(): Db
      reads this
    {
      Db(notebooks, revisions, records)
    }

    constructor ()
      ensures Contents() == EMPTY
    {
      notebooks, revisions, records := map[], map[], map[];
    }

    /** _resolve_idempotency: reads only. */
    method ResolveIdempotency(existing: IdemRecord, requestHash: string) returns (outcome: Outcome)
      ensures outcome == Resolve(Contents(), existing, requestHash)
    {
      if existing.requestHash != requestHash {
        return KeyConflict;
      }
      var id, revision := existing.notebook, existing.revision;
      if id !in notebooks || (id, revision) !in revisions {
        return IntegrityFault;
      }
      return Replayed(notebooks[id], revisions[(id, revision)], existing);
    }

    method CreateNotebook(w: Write, id: string, title: string) returns (outcome: Outcome)
      modifies this
      ensures Contents() == CreateTx(old(Contents()), w, id, title).0
      ensures outcome == CreateTx(old(Contents()), w, id, title).1
    {
      if (PostNotebooks, w.key) in records {
        outcome := ResolveIdempotency(records[(PostNotebooks, w.key)], w.requestHash);
        return;
      }
      if id in notebooks || (id, 1) in revisions {
        return IntegrityFault;
      }
      var notebook := NotebookRow(id, title, 1, w.hash, w.now, w.now);
      var revision := RevisionRow(id, 1, w.hash, w.blobKey, w.size, w.now);
      notebooks := notebooks[id := notebook];
      revisions := revisions[(id, 1) := revision];
      records := records[(PostNotebooks, w.key) := CreateRecord(w, id, title)];
      return Created(notebook, revision);
    }

    method SaveNotebook(w: Write, id: string, base: int) returns (outcome: Outcome)
      modifies this
      ensures Contents() == SaveTx(old(Contents()), w, id, base).0
      ensures outcome == SaveTx(old(Contents()), w, id, base).1
    {
      if (PutNotebook, w.key) in records {
        outcome := ResolveIdempotency(records[(PutNotebook, w.key)], w.requestHash);
        return;
      }
      if id !in notebooks {
        return NotFound;
      }
      var notebook := notebooks[id];
      if notebook.current != base {
        return RevisionConflict(notebook.current, notebook.hash);
      }
      if (id, notebook.current) !in revisions {
        return IntegrityFault;
      }
      var head := revisions[(id, notebook.current)];
      if notebook.hash == w.hash {
        var answer := SaveRecord(w, id, notebook.current, notebook.hash, head.createdAt, true);
        records := records[(PutNotebook, w.key) := answer];
        return Unchanged(notebook, head);
      }
      var next := notebook.current + 1;
      if (id, next) in revisions {
        return IntegrityFault;
      }
      notebooks := notebooks[id := notebook.(current := next, hash := w.hash, updatedAt := w.now)];
      var revision := RevisionRow(id, next, w.hash, w.blobKey, w.size, w.now);
      revisions := revisions[(id, next) := revision];
      records := records[(PutNotebook, w.key) := SaveRecord(w, id, next, w.hash, w.now, false)];
      return Saved(revision);
    }
  }

  type Blobs = map<BlobKey, Bytes>

  /** Every blob holds the bytes its key was computed from. */
  ghost predicate ContentAddressed(blobs: Blobs) {
    forall k :: k in blobs ==> KeyFor(Sha256(blobs[k])) == k
  }

  /** put publishes by an atomic rename, under the key computed from the bytes. */
  function Put(blobs: Blobs, data: Bytes): Blobs {
    blobs[KeyFor(Sha256(data)) := data]
  }

  function PutAll(blobs: Blobs, puts: seq<Bytes>): Blobs
    decreases |puts|
  {
    if puts == [] then blobs else Put(PutAll(blobs, puts[..|puts| - 1]), puts[|puts| - 1])
  }

  /** After any further publications each blob is found under its own key, those that were there before
      included, and every key holds only bytes that hash to it. */
  lemma {:induction false} PublishedReadsBack(blobs: Blobs, puts: seq<Bytes>)
    requires ContentAddressed(blobs)
    ensures var after := PutAll(blobs, puts);
            && ContentAddressed(after)
            && (forall k :: k in blobs ==> k in after && after[k] == blobs[k])
            && (forall i :: 0 <= i < |puts| ==>
                  KeyFor(Sha256(puts[i])) in after && after[KeyFor(Sha256(puts[i]))] == puts[i])
    decreases |puts|
  {
    if puts != [] {
      PublishedReadsBack(blobs, puts[..|puts| - 1]);
    }
  }

  class LocalBlobStore {
    var files: Blobs

    constructor ()
      ensures files == map[]
    {
      files := map[];
    }

    /** None is the ValueError for bytes that do not hash to the digest. */
    method PutBlob(digest: Digest, data: Bytes) returns (key: Option<BlobKey>)
      modifies this
      ensures key == if Sha256(data) == digest then Some(KeyFor(digest)) else None
      ensures files == if Sha256(data) == digest then Put(old(files), data) else old(files)
      ensures old(ContentAddressed(files)) ==>
                ContentAddressed(files) && forall k :: k in old(files) ==> k in files && files[k] == old(files)[k]
    {
      if Sha256(data) != digest {
        return None;
      }
      files := files[KeyFor(digest) := data];
      return Some(KeyFor(digest));
    }

    /** None is BlobNotFoundError. Bytes that are found are those the key was computed from. */
    method GetBlob(key: BlobKey) returns (data: Option<Bytes>)
      ensures data.Some? <==> key in files
      ensures data.Some? ==> data.value == files[key]
      ensures ContentAddressed(files) && data.Some? ==> KeyFor(Sha256(data.value)) == key
    {
      data := if key in files then Some(files[key]) else None;
    }
  }
}
