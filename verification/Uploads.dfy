/** Resumable uploads: sessions, chunk files, and a completion that first writes the blob file
    and then commits the rows that make it visible. */
module Uploads {
  import opened Common
  import opened Schema
  import opened Access
  import opened Nodes

  const MAX_CHUNK_SIZE: nat := 8_388_608
  const MAX_CHUNK_COUNT: nat := 65_536
  const MAX_OPEN_SESSIONS: nat := 64

  /** The owner may add a version to its own file, a READ_WRITE recipient to a file it reaches. */
  function AuthorizeFileWrite(t: Tables, user: Id, x: Id): Result<Option<Id>>
    requires x in t.nodes
  {
    if t.nodes[x].owner == user then Ok(None)
    else match ShareGrant(t.nodes, t.shares, user, x)
      case None => Err(Forbidden)
      case Some(g) => if g.permission == ReadWrite then Ok(Some(g.root)) else Err(Forbidden)
  }

  predicate LiveFile(ns: map<Id, Node>, x: Id) {
    x in ns && ns[x].kind == File && ns[x].deletedAt.None?
  }

  // ---------------------------------------------------------------- create a session

  datatype UploadInput = UploadInput(
    user: Id, device: Id, target: Id, version: Id, blob: Id, expected: nat,
    chunkSize: nat, chunkCount: nat, metadata: Bytes, metadataKeyVersion: int, wrappedKey: Bytes)

  /** The blob or version ID is committed, or reserved by an open session. */
  predicate IdInUse(t: Tables, blob: Id, version: Id) {
    || blob in t.blobs
    || version in t.versions
    || exists u | u in t.sessions.Keys ::
         (t.sessions[u].blob == blob || t.sessions[u].version == version) && t.sessions[u].status == Open
  }

  function OpenUploads(sessions: map<Id, Session>, device: Id, now: Time): set<Id> {
    set u | u in sessions && sessions[u].device == device && sessions[u].status == Open && now < sessions[u].expiresAt
  }

  function NewSession(u: UploadInput, expiresAt: Time): Session {
    Session(u.user, u.device, u.target, u.version, u.blob, u.expected, u.chunkSize, u.chunkCount,
            u.metadata, u.metadataKeyVersion, u.wrappedKey, Open, expiresAt)
  }

  predicate WellFormedUpload(u: UploadInput) {
    && 1 <= u.chunkCount <= MAX_CHUNK_COUNT && 1 <= u.chunkSize <= MAX_CHUNK_SIZE
    && |u.wrappedKey| > 0 && |u.metadata| > 0 && u.metadataKeyVersion >= 1
  }

  /** What is checked about device, target and actor before the transaction. */
  function UploadAllowed(t: Tables, u: UploadInput): Check {
    if !ActiveDevice(t.devices, u.user, u.device) then Fail(Forbidden)
    else if !LiveFile(t.nodes, u.target) then Fail(TargetNodeMissing)
    else match AuthorizeFileWrite(t, u.user, u.target)
      case Ok(_) => Pass
      case Err(e) => Fail(e)
  }

  /** The transaction alone: it reserves the IDs and opens the session. Of the target it needs only
      the row that the foreign key names. `uid` is the session identifier the server generates;
      `limit` is the configured file limit. */
  function ReserveTx(t: Tables, u: UploadInput, uid: Id, now: Time, limit: nat, lifetime: Time): (r: Tx<Id>)
    ensures r.Ok? ==> r.value.tables == t.(sessions := r.value.tables.sessions)
  {
    if !WellFormedUpload(u) then Err(BadInput) else
    :- Need(u.chunkCount * u.chunkSize <= limit, TooLarge);
    :- Need(!IdInUse(t, u.blob, u.version), IdTaken);
    :- Need(|OpenUploads(t.sessions, u.device, now)| < MAX_OPEN_SESSIONS, TooManyUploads);
    :- Need(u.target in t.nodes, MissingRow);
    :- Need(uid !in t.sessions, IdTaken);
    Ok(Committed(t.(sessions := t.sessions[uid := NewSession(u, now + lifetime)]), uid))
  }

  /** The whole request when nothing comes between its checks and its transaction. */
  function CreateUploadTx(t: Tables, u: UploadInput, uid: Id, now: Time, limit: nat, lifetime: Time): (r: Tx<Id>)
    ensures r.Ok? ==> r == ReserveTx(t, u, uid, now, limit, lifetime)
  {
    if !WellFormedUpload(u) then Err(BadInput) else
    var allowed := UploadAllowed(t, u);
    :- allowed;
    ReserveTx(t, u, uid, now, limit, lifetime)
  }

  method ReserveUpload(db: Database, u: UploadInput, uid: Id, now: Time, limit: nat, lifetime: Time)
    returns (r: Result<Id>)
    requires WellFormedUpload(u) && u.chunkCount * u.chunkSize <= limit
    modifies db
    ensures db.tables == After(old(db.tables), ReserveTx(old(db.tables), u, uid, now, limit, lifetime))
    ensures r == Answer(ReserveTx(old(db.tables), u, uid, now, limit, lifetime))
  {
    if IdInUse(db.tables, u.blob, u.version) {
      return Err(IdTaken);
    }
    var openUploads := OpenUploads(db.tables.sessions, u.device, now);
    :- Need(|openUploads| < MAX_OPEN_SESSIONS, TooManyUploads);
    :- Need(u.target in db.tables.nodes, MissingRow);
    :- Need(uid !in db.tables.sessions, IdTaken);
    db.tables := db.tables.(sessions := db.tables.sessions[uid := NewSession(u, now + lifetime)]);
    r := Ok(uid);
  }

  method CreateUpload(db: Database, u: UploadInput, uid: Id, now: Time, limit: nat, lifetime: Time)
    returns (r: Result<Id>)
    modifies db
    ensures db.tables == After(old(db.tables), CreateUploadTx(old(db.tables), u, uid, now, limit, lifetime))
    ensures r == Answer(CreateUploadTx(old(db.tables), u, uid, now, limit, lifetime))
  {
    if !(1 <= u.chunkCount <= MAX_CHUNK_COUNT && 1 <= u.chunkSize <= MAX_CHUNK_SIZE) {
      return Err(BadInput);
    }
    :- Need(|u.wrappedKey| > 0 && |u.metadata| > 0 && u.metadataKeyVersion >= 1, BadInput);
    :- Need(ActiveDevice(db.tables.devices, u.user, u.device), Forbidden);
    :- Need(LiveFile(db.tables.nodes, u.target), TargetNodeMissing);
    var _ :- AuthorizeFileWrite(db.tables, u.user, u.target);
    :- Need(u.chunkCount * u.chunkSize <= limit, TooLarge);
    r := ReserveUpload(db, u, uid, now, limit, lifetime);
  }

  /** The product of two accepted framing fields fits a signed 64-bit integer. */
  lemma FramingFits(chunkCount: nat, chunkSize: nat)
    requires chunkCount <= MAX_CHUNK_COUNT && chunkSize <= MAX_CHUNK_SIZE
    ensures chunkCount * chunkSize <= 0x80_0000_0000 < 0x8000_0000_0000_0000
  {
    MulMonotone(chunkCount, chunkSize, MAX_CHUNK_COUNT, MAX_CHUNK_SIZE);
  }

  lemma MulMonotone(a: nat, b: nat, c: nat, d: nat)
    requires a <= c && b <= d
    ensures a * b <= c * d
  {
    assert c * d == a * b + (c - a) * b + c * (d - b);
  }

  // ---------------------------------------------------------------- chunks

  predicate OwnsSession(t: Tables, user: Id, device: Id, upload: Id) {
    upload in t.sessions && t.sessions[upload].user == user && t.sessions[upload].device == device
  }

  datatype ChunkInput = ChunkInput(user: Id, device: Id, upload: Id, no: nat, content: Bytes)

  /** The recorded rows and temporary files after one accepted or repeated chunk. */
  datatype Chunked = Chunked(rows: map<(Id, nat), Chunk>, files: map<(Id, nat), Bytes>)

  /** Whether a chunk may be stored, without looking at what was stored before. */
  function ChunkAllowed(t: Tables, p: ChunkInput, now: Time): Check {
    if !(0 < |p.content| <= MAX_CHUNK_SIZE) then Fail(BadInput)
    else if !OwnsSession(t, p.user, p.device, p.upload) then Fail(NotFound)
    else
      var s := t.sessions[p.upload];
      if s.status != Open || now >= s.expiresAt then Fail(InvalidState)
      else Need(p.no < s.chunkCount && |p.content| <= s.chunkSize, BadInput)
  }

  /** First writer wins: a repeated chunk is accepted unchanged, a different one refused. */
  function StoreChunk(rows: map<(Id, nat), Chunk>, files: map<(Id, nat), Bytes>, p: ChunkInput): Result<Chunked> {
    var k := (p.upload, p.no);
    if k in rows then (if rows[k].digest == Digest(p.content) then Ok(Chunked(rows, files)) else Err(ChunkConflict))
    else Ok(Chunked(rows[k := Chunk(|p.content|, Digest(p.content))], files[k := p.content]))
  }

  function PutChunkStep(t: Tables, files: map<(Id, nat), Bytes>, p: ChunkInput, now: Time): Result<Chunked> {
    var allowed := ChunkAllowed(t, p, now);
    :- allowed;
    StoreChunk(t.chunks, files, p)
  }

  method PutChunk(db: Database, st: Storage, p: ChunkInput, now: Time) returns (r: Result<()>)
    modifies db, st
    ensures st.blobFiles == old(st.blobFiles)
    ensures match PutChunkStep(old(db.tables), old(st.tempFiles), p, now)
            case Ok(c) => r.Ok? && db.tables == old(db.tables).(chunks := c.rows) && st.tempFiles == c.files
            case Err(e) => r == Err(e) && db.tables == old(db.tables) && st.tempFiles == old(st.tempFiles)
  {
    var allowed := ChunkAllowed(db.tables, p, now);
    :- allowed;
    var k := (p.upload, p.no);
    if k in db.tables.chunks {
      if db.tables.chunks[k].digest != Digest(p.content) {
        return Err(ChunkConflict);
      }
      return Ok(());
    }
    st.tempFiles := st.tempFiles[k := p.content];
    db.tables := db.tables.(chunks := db.tables.chunks[k := Chunk(|p.content|, Digest(p.content))]);
    r := Ok(());
  }

  function AbortTx(t: Tables, user: Id, device: Id, upload: Id): (r: Tx<bool>)
    ensures r.Ok? ==> r.value.tables == t.(sessions := r.value.tables.sessions)
  {
    if !OwnsSession(t, user, device, upload) then Err(NotFound) else
    if t.sessions[upload].status != Open then Ok(Committed(t, false))
    else Ok(Committed(t.(sessions := t.sessions[upload := t.sessions[upload].(status := Aborted)]), true))
  }

  /** Cancels an open session and removes its directory; other sessions are left alone. */
  method Abort(db: Database, st: Storage, user: Id, device: Id, upload: Id) returns (r: Result<bool>)
    modifies db, st
    ensures db.tables == After(old(db.tables), AbortTx(old(db.tables), user, device, upload))
    ensures r == Answer(AbortTx(old(db.tables), user, device, upload))
    ensures st.blobFiles == old(st.blobFiles)
    ensures st.tempFiles == if r == Ok(true) then WithoutDirectory(old(st.tempFiles), upload) else old(st.tempFiles)
  {
    if !OwnsSession(db.tables, user, device, upload) {
      return Err(NotFound);
    }
    if db.tables.sessions[upload].status != Open {
      return Ok(false);
    }
    db.tables := db.tables.(sessions := db.tables.sessions[upload := db.tables.sessions[upload].(status := Aborted)]);
    st.tempFiles := WithoutDirectory(st.tempFiles, upload);
    r := Ok(true);
  }

  // ---------------------------------------------------------------- load and assemble

  /** Bytes recorded for chunk numbers below n. */
  function RecordedBytes(rows: map<(Id, nat), Chunk>, upload: Id, n: nat): nat {
    if n == 0 then 0
    else RecordedBytes(rows, upload, n - 1) + (if (upload, n - 1) in rows then rows[(upload, n - 1)].size else 0)
  }

  /** The recorded numbers are exactly 0, 1, ..., count - 1. */
  predicate AllRecorded(rows: map<(Id, nat), Chunk>, upload: Id, count: nat) {
    && (forall k | k in rows.Keys :: k.0 == upload ==> k.1 < count)
    && (forall n | 0 <= n < count :: (upload, n) in rows)
  }

  /** Rows arrive in any order; each fills its slot. */
  method FillSlots(rows: map<(Id, nat), Chunk>, upload: Id, slots: array<Option<Chunk>>) returns (r: Result<nat>)
    requires forall n :: 0 <= n < slots.Length ==> slots[n].None?
    modifies slots
    ensures r.Err? ==> r.error == MissingChunks && exists k :: k in rows && k.0 == upload && k.1 >= slots.Length
    ensures r.Ok? ==> forall k :: k in rows && k.0 == upload ==> k.1 < slots.Length
    ensures r.Ok? ==> forall n: nat :: n < slots.Length ==>
              slots[n] == if (upload, n) in rows then Some(rows[(upload, n)]) else None
    ensures r.Ok? ==> r.value == RecordedBytes(rows, upload, slots.Length)
  {
    var pending: set<(Id, nat)> := set k | k in rows && k.0 == upload;
    ghost var visited: set<nat> := {};
    var total := 0;
    NothingVisited(rows, upload, slots.Length);
    while pending != {}
      invariant forall k :: k in pending ==> k in rows && k.0 == upload && k.1 !in visited
      invariant forall k :: k in rows && k.0 == upload ==> k in pending || k.1 in visited
      invariant forall n :: n in visited ==> n < slots.Length && (upload, n) in rows
      invariant forall n: nat :: n < slots.Length ==> slots[n] == if n in visited then Some(rows[(upload, n)]) else None
      invariant total == RecordedBytes(VisitedRows(rows, upload, visited), upload, slots.Length)
      decreases pending
    {
      var k: (Id, nat) :| k in pending;
      if k.1 >= slots.Length {
        return Err(MissingChunks);
      }
      slots[k.1] := Some(rows[k]);
      total := total + rows[k].size;
      VisitOne(rows, upload, visited, k.1, slots.Length);
      visited, pending := visited + {k.1}, pending - {k};
    }
    SameBytes(VisitedRows(rows, upload, visited), rows, upload, slots.Length);
    r := Ok(total);
  }

  /** Loads the recorded chunks in order; no slot may stay empty. */
  method LoadChunks(rows: map<(Id, nat), Chunk>, upload: Id, count: nat) returns (r: Result<(seq<Digest>, nat)>)
    ensures r.Ok? <==> AllRecorded(rows, upload, count)
    ensures r.Err? ==> r.error == MissingChunks
    ensures r.Ok? ==> |r.value.0| == count && r.value.1 == RecordedBytes(rows, upload, count)
    ensures r.Ok? ==> forall n :: 0 <= n < count ==> r.value.0[n] == rows[(upload, n)].digest
  {
    var slots := new Option<Chunk>[count](_ => None);
    var filled := FillSlots(rows, upload, slots);
    var total :- filled;
    var digests := [];
    for n := 0 to count
      invariant |digests| == n
      invariant forall i :: 0 <= i < n ==> (upload, i) in rows && digests[i] == rows[(upload, i)].digest
    {
      if slots[n].None? {
        return Err(MissingChunks);
      }
      digests := digests + [slots[n].value.digest];
    }
    r := Ok((digests, total));
  }

  ghost function VisitedRows(rows: map<(Id, nat), Chunk>, upload: Id, visited: set<nat>): map<(Id, nat), Chunk> {
    map k | k in rows && k.0 == upload && k.1 in visited :: rows[k]
  }

  lemma {:induction false} SameBytes(a: map<(Id, nat), Chunk>, b: map<(Id, nat), Chunk>, upload: Id, n: nat)
    requires forall i: nat ::
               i < n ==>
                 ((upload, i) in a <==> (upload, i) in b) && ((upload, i) in a ==> a[(upload, i)] == b[(upload, i)])
    ensures RecordedBytes(a, upload, n) == RecordedBytes(b, upload, n)
  {
    if n > 0 { SameBytes(a, b, upload, n - 1); }
  }

  lemma {:induction false} NothingVisited(rows: map<(Id, nat), Chunk>, upload: Id, n: nat)
    ensures RecordedBytes(VisitedRows(rows, upload, {}), upload, n) == 0
  {
    if n > 0 { NothingVisited(rows, upload, n - 1); }
  }

  lemma {:induction false} VisitOne(rows: map<(Id, nat), Chunk>, upload: Id, visited: set<nat>, no: nat, n: nat)
    requires (upload, no) in rows && no !in visited
    ensures RecordedBytes(VisitedRows(rows, upload, visited + {no}), upload, n)
         == RecordedBytes(VisitedRows(rows, upload, visited), upload, n) + if no < n then rows[(upload, no)].size else 0
  {
    if n > 0 { VisitOne(rows, upload, visited, no, n - 1); }
  }

  /** The chunk files 0..n-1 joined, each checked against its recorded digest. */
  function Assembled(rows: map<(Id, nat), Chunk>, files: map<(Id, nat), Bytes>, upload: Id, n: nat): Result<Bytes> {
    if n == 0 then Ok([])
    else
      var before :- Assembled(rows, files, upload, n - 1);
      var k := (upload, n - 1);
      :- Need(k in files && k in rows, MissingRow);
      :- Need(Digest(files[k]) == rows[k].digest, DigestMismatch);
      Ok(before + files[k])
  }

  // ---------------------------------------------------------------- complete, first half

  datatype CompleteInput = CompleteInput(user: Id, device: Id, upload: Id, operation: Id, expected: Option<nat>,
        keyScope: Id, keyVersion: int)

  /** A completion between writing the blob file and committing its rows; `size` is the sum of
      the recorded chunk sizes. */
  datatype Written = Written(request: CompleteInput, session: Session, content: Bytes, size: nat)

  /** Everything checked before the blob file is created; None when the request has already
      been answered by an earlier completion. */
  function Ready(t: Tables, c: CompleteInput, now: Time, limit: nat): Result<Option<Session>> {
    if c.keyVersion < 1 then Err(BadInput) else
    :- Need(OwnsSession(t, c.user, c.device, c.upload), NotFound);
    var s := t.sessions[c.upload];
    if s.status == Completed then Ok(None)
    else
      :- Need(s.status == Open && now < s.expiresAt, InvalidState);
      :- Need(c.expected.None? || c.expected.value == s.expectedRevision, BadInput);
      match ReplayOf(t.processed, c.operation, c.user, UploadComplete)
      case Reused => Err(OperationReused)
      case Applied(_) => Ok(None)
      case Fresh =>
        :- Need(AllRecorded(t.chunks, c.upload, s.chunkCount), MissingChunks);
        :- Need(RecordedBytes(t.chunks, c.upload, s.chunkCount) <= limit, TooLarge);
        Ok(Some(s))
  }

  /** The blob directory after the first half, and the completion it leaves in flight. */
  datatype Begun = Begun(files: map<Id, Bytes>, outcome: Result<Option<Written>>)

  function Begin(t: Tables, files: map<Id, Bytes>, temp: map<(Id, nat), Bytes>, c: CompleteInput, now: Time,
        limit: nat): Begun
  {
    match Ready(t, c, now, limit)
    case Err(e) => Begun(files, Err(e))
    case Ok(None) => Begun(files, Ok(None))
    case Ok(Some(s)) =>
      if s.blob in files && s.blob in t.blobs then Begun(files, Err(IdTaken))
      else match Assembled(t.chunks, temp, c.upload, s.chunkCount)
        case Err(e) => Begun(files - {s.blob}, Err(e))
        case Ok(content) =>
          var bytes := RecordedBytes(t.chunks, c.upload, s.chunkCount);
          Begun(files[s.blob := content], Ok(Some(Written(c, s, content, bytes))))
  }

  /** Exclusively creates the blob file: a leftover without a committed row is replaced. */
  method CreateBlobFile(db: Database, st: Storage, blob: Id) returns (ok: bool)
    modifies st
    ensures st.tempFiles == old(st.tempFiles)
    ensures ok <==> !(blob in old(st.blobFiles) && blob in db.tables.blobs)
    ensures st.blobFiles == if ok then old(st.blobFiles)[blob := []] else old(st.blobFiles)
  {
    if blob in st.blobFiles {
      if blob in db.tables.blobs {
        return false;
      }
      st.blobFiles := st.blobFiles - {blob};
    }
    st.blobFiles := st.blobFiles[blob := []];
    ok := true;
  }

  /** Appends the chunk files in order; any failure removes the unfinished blob file. */
  method AssembleCiphertext(db: Database, st: Storage, upload: Id, blob: Id,
        digests: seq<Digest>) returns (r: Result<Bytes>)
    requires forall n ::
               0 <= n < |digests| ==>
                 (upload, n) in db.tables.chunks && digests[n] == db.tables.chunks[(upload, n)].digest
    modifies st
    ensures st.tempFiles == old(st.tempFiles)
    ensures if blob in old(st.blobFiles) && blob in db.tables.blobs
            then r == Err(IdTaken) && st.blobFiles == old(st.blobFiles)
            else
              && r == Assembled(db.tables.chunks, old(st.tempFiles), upload, |digests|)
              && st.blobFiles == match r
                                 case Ok(content) => old(st.blobFiles)[blob := content]
                                 case Err(_) => old(st.blobFiles) - {blob}
  {
    var created := CreateBlobFile(db, st, blob);
    if !created {
      return Err(IdTaken);
    }
    for n := 0 to |digests|
      invariant st.tempFiles == old(st.tempFiles)
      invariant blob in st.blobFiles && st.blobFiles == old(st.blobFiles)[blob := st.blobFiles[blob]]
      invariant Assembled(db.tables.chunks, st.tempFiles, upload, n) == Ok(st.blobFiles[blob])
    {
      if (upload, n) !in st.tempFiles {
        AssembledFails(db.tables.chunks, st.tempFiles, upload, n, |digests|);
        st.blobFiles := st.blobFiles - {blob};
        return Err(MissingRow);
      }
      if Digest(st.tempFiles[(upload, n)]) != digests[n] {
        AssembledFails(db.tables.chunks, st.tempFiles, upload, n, |digests|);
        st.blobFiles := st.blobFiles - {blob};
        return Err(DigestMismatch);
      }
      st.blobFiles := st.blobFiles[blob := st.blobFiles[blob] + st.tempFiles[(upload, n)]];
    }
    r := Ok(st.blobFiles[blob]);
  }

  /** The first failing chunk decides the result. */
  lemma {:induction false} AssembledFails(rows: map<(Id, nat), Chunk>, files: map<(Id, nat), Bytes>, upload: Id,
        n: nat, m: nat)
    requires n < m && Assembled(rows, files, upload, n + 1).Err?
    ensures Assembled(rows, files, upload, m) == Err(Assembled(rows, files, upload, n + 1).error)
  {
    if n + 1 < m { AssembledFails(rows, files, upload, n, m - 1); }
  }

  method WriteBlob(db: Database, st: Storage, c: CompleteInput, now: Time,
        limit: nat) returns (r: Result<Option<Written>>)
    modifies st
    ensures st.tempFiles == old(st.tempFiles)
    ensures Begun(st.blobFiles, r) == Begin(db.tables, old(st.blobFiles), old(st.tempFiles), c, now, limit)
  {
    if c.keyVersion < 1 {
      return Err(BadInput);
    }
    :- Need(OwnsSession(db.tables, c.user, c.device, c.upload), NotFound);
    var s := db.tables.sessions[c.upload];
    if s.status == Completed {
      return Ok(None);
    }
    :- Need(s.status == Open && now < s.expiresAt, InvalidState);
    :- Need(c.expected.None? || c.expected.value == s.expectedRevision, BadInput);
    match ReplayOf(db.tables.processed, c.operation, c.user, UploadComplete) {
      case Reused => return Err(OperationReused);
      case Applied(_) => return Ok(None);
      case Fresh =>
    }
    var chunks := LoadChunks(db.tables.chunks, c.upload, s.chunkCount);
    var loaded :- chunks;
    :- Need(loaded.1 <= limit, TooLarge);
    var content := AssembleCiphertext(db, st, c.upload, s.blob, loaded.0);
    match content {
      case Err(e) => r := Err(e);
      case Ok(bytes) => r := Ok(Some(Written(c, s, bytes, loaded.1)));
    }
  }

  /** What a completion answers: the IDs of the session and the revision of the commit. */
  datatype CompleteResult = CompleteResult(blob: Id, version: Id, revision: nat)

  /** The rows that answer for a session that is completed already. */
  function CompletedResult(t: Tables, version: Id): Result<CompleteResult> {
    if version !in t.versions || t.versions[version].blob !in t.blobs then Err(MissingRow)
    else Ok(CompleteResult(t.versions[version].blob, version, t.versions[version].revision))
  }

  /** The answer once the session is completed, or gone with its target. */
  function CompleteReply(t: Tables, c: CompleteInput): Result<CompleteResult>
    requires c.upload in t.sessions ==> t.sessions[c.upload].status == Completed
  {
    if c.keyVersion < 1 then Err(BadInput) else
    :- Need(OwnsSession(t, c.user, c.device, c.upload), NotFound);
    CompletedResult(t, t.sessions[c.upload].version)
  }

  // ---------------------------------------------------------------- complete, second half

  /** Whether the commit stored this completion's rows or found an earlier answer. */
  datatype Outcome = Replayed | Stored(revision: nat)

  function FileNode(n: Node, s: Session, c: CompleteInput, revision: nat, now: Time): Node {
    n.(current := Some(s.version), metadata := s.metadata, metadataKeyVersion := s.metadataKeyVersion,
       metadataScope := StoredScope(c.keyScope, n.owner), revision := revision, updatedAt := now)
  }

  function CommitTx(t: Tables, w: Written, now: Time): (r: Tx<Outcome>)
    ensures r.Ok? ==> var t' := r.value.tables;
                      t' == t.(nodes := t'.nodes, log := t'.log, processed := t'.processed, versions := t'.versions,
                               blobs := t'.blobs, sessions := t'.sessions)
  {
    var c, s := w.request, w.session;
    match ReplayOf(t.processed, c.operation, c.user, UploadComplete)
    case Reused => Err(OperationReused)
    case Applied(_) => Ok(Committed(t, Replayed))
    case Fresh =>
      :- Need(c.upload in t.sessions && t.sessions[c.upload].status == Open, InvalidState);
      :- Need(LiveFile(t.nodes, s.target), TargetNodeMissing);
      var n := t.nodes[s.target];
      var root :- AuthorizeFileWrite(t, c.user, s.target);
      :- Need(n.revision == s.expectedRevision, RevisionConflict);
      :- ValidateKeyScope(t.folderKeys, n.owner, c.user, root, c.keyScope, c.keyVersion);
      :- ValidateKeyScope(t.folderKeys, n.owner, c.user, root, c.keyScope, s.metadataKeyVersion);
      :- Need(s.blob !in t.blobs && s.version !in t.versions, IdTaken);
      var t1 := t.(blobs := t.blobs[s.blob := BlobRow(w.size, Digest(w.content), s.chunkCount, now)]);
      var t2 := Logged(t1, n.owner, s.target, Updated, now);
      var revision := |t2.log|;
      var t3 := t2.(versions := t2.versions[
        s.version := Version(s.target, s.blob, s.wrappedKey, c.keyScope, c.keyVersion, now, revision)]);
      var t4 := Recorded(WithNode(t3, s.target, FileNode(n, s, c, revision, now)), c.operation, c.user, c.device,
                         UploadComplete, s.version, now);
      Ok(Committed(t4.(sessions := t4.sessions[c.upload := t4.sessions[c.upload].(status := Completed)]),
                   Stored(revision)))
  }

  predicate StoredRows(tx: Tx<Outcome>) {
    tx.Ok? && tx.value.value.Stored?
  }

  /** Commits the rows; unless they are stored, the blob file just written is removed. */
  method CommitUpload(db: Database, st: Storage, w: Written, now: Time) returns (r: Result<Outcome>)
    modifies db, st
    ensures db.tables == After(old(db.tables), CommitTx(old(db.tables), w, now))
    ensures r == Answer(CommitTx(old(db.tables), w, now))
    ensures st.blobFiles == if StoredRows(CommitTx(old(db.tables), w, now))
                            then old(st.blobFiles) else old(st.blobFiles) - {w.session.blob}
    ensures st.tempFiles == if StoredRows(CommitTx(old(db.tables), w, now))
                            then WithoutDirectory(old(st.tempFiles), w.request.upload) else old(st.tempFiles)
  {
    r := CommitRows(db, w, now);
    if r.Ok? && r.value.Stored? {
      st.tempFiles := WithoutDirectory(st.tempFiles, w.request.upload);
    } else {
      st.blobFiles := st.blobFiles - {w.session.blob};
    }
  }

  method CommitRows(db: Database, w: Written, now: Time) returns (r: Result<Outcome>)
    modifies db
    ensures db.tables == After(old(db.tables), CommitTx(old(db.tables), w, now))
    ensures r == Answer(CommitTx(old(db.tables), w, now))
  {
    var c, s, start := w.request, w.session, db.tables;
    match ReplayOf(start.processed, c.operation, c.user, UploadComplete) {
      case Reused => return Err(OperationReused);
      case Applied(_) => return Ok(Replayed);
      case Fresh =>
    }
    :- Need(c.upload in start.sessions && start.sessions[c.upload].status == Open, InvalidState);
    :- Need(LiveFile(start.nodes, s.target), TargetNodeMissing);
    var n := start.nodes[s.target];
    var root :- AuthorizeFileWrite(start, c.user, s.target);
    :- Need(n.revision == s.expectedRevision, RevisionConflict);
    :- ValidateKeyScope(start.folderKeys, n.owner, c.user, root, c.keyScope, c.keyVersion);
    :- ValidateKeyScope(start.folderKeys, n.owner, c.user, root, c.keyScope, s.metadataKeyVersion);
    if s.blob in db.tables.blobs || s.version in db.tables.versions {
      return Err(IdTaken);
    }
    db.tables := db.tables.(blobs := db.tables.blobs[s.blob := BlobRow(w.size, Digest(w.content), s.chunkCount, now)]);
    var revision := RecordChange(db, n.owner, s.target, Updated, now);
    var version := Version(s.target, s.blob, s.wrappedKey, c.keyScope, c.keyVersion, now, revision);
    db.tables := db.tables.(versions := db.tables.versions[s.version := version]);
    db.tables := db.tables.(nodes := db.tables.nodes[s.target := FileNode(n, s, c, revision, now)]);
    RecordProcessed(db, c.operation, c.user, c.device, UploadComplete, s.version, now);
    db.tables := db.tables.(
      sessions := db.tables.sessions[c.upload := db.tables.sessions[c.upload].(status := Completed)]);
    r := Ok(Stored(revision));
  }
}
