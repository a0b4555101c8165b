/** Exactly when an upload is opened, fed, cancelled and committed, how it is refused, and what each
    row holds afterwards, stated on rows and numbers alone. */
module UploadRules {
  import opened Common
  import opened Schema
  import opened Forest
  import opened Access
  import opened NodeRules
  import opened Uploads

  predicate LiveTarget(t: Tables, x: Id) {
    x in t.nodes && t.nodes[x].kind == File && t.nodes[x].deletedAt.None?
  }

  /** The owner, or a member that reaches the file through a READ_WRITE share. */
  predicate WritesFile(t: Tables, user: Id, x: Id) {
    x in t.nodes && (t.nodes[x].owner == user || MemberWrites(t, user, x))
  }

  lemma FileWriteDecides(t: Tables, user: Id, x: Id)
    requires x in t.nodes
    ensures AuthorizeFileWrite(t, user, x)
         == if WritesFile(t, user, x) then Ok(RootFor(t, t.nodes[x].owner, user, x)) else Err(Forbidden)
  {
  }

  // ---------------------------------------------------------------- open

  predicate UploadFits(u: UploadInput) {
    && 1 <= u.chunkCount <= 65_536 && 1 <= u.chunkSize <= 8_388_608
    && |u.wrappedKey| >= 1 && |u.metadata| >= 1 && u.metadataKeyVersion >= 1
  }

  /** Neither ID is committed or reserved by an open upload. */
  predicate IdsFree(t: Tables, blob: Id, version: Id) {
    && blob !in t.blobs && version !in t.versions
    && forall s | s in t.sessions.Keys ::
         t.sessions[s].status == Open ==> t.sessions[s].blob != blob && t.sessions[s].version != version
  }

  function UnexpiredOpen(t: Tables, device: Id, now: Time): set<Id> {
    set s | s in t.sessions && t.sessions[s].device == device && t.sessions[s].status == Open
            && now < t.sessions[s].expiresAt
  }

  predicate MayReserve(t: Tables, u: UploadInput, uid: Id, now: Time, limit: nat) {
    && UploadFits(u) && u.chunkCount * u.chunkSize <= limit && IdsFree(t, u.blob, u.version)
    && |UnexpiredOpen(t, u.device, now)| < 64 && u.target in t.nodes && uid !in t.sessions
  }

  function ReserveRefusal(t: Tables, u: UploadInput, now: Time, limit: nat): Error {
    if !UploadFits(u) then BadInput
    else if u.chunkCount * u.chunkSize > limit then TooLarge
    else if !IdsFree(t, u.blob, u.version) then IdTaken
    else if |UnexpiredOpen(t, u.device, now)| >= 64 then TooManyUploads
    else if u.target !in t.nodes then MissingRow
    else IdTaken
  }

  lemma ReserveAccepted(t: Tables, u: UploadInput, uid: Id, now: Time, limit: nat, lifetime: Time)
    ensures ReserveTx(t, u, uid, now, limit, lifetime).Ok? <==> MayReserve(t, u, uid, now, limit)
    ensures !MayReserve(t, u, uid, now, limit) ==>
              ReserveTx(t, u, uid, now, limit, lifetime) == Err(ReserveRefusal(t, u, now, limit))
  {
    assert OpenUploads(t.sessions, u.device, now) == UnexpiredOpen(t, u.device, now);
  }

  /** One new open session that holds what was declared; nothing else. */
  lemma ReserveEffect(t: Tables, u: UploadInput, uid: Id, now: Time, limit: nat, lifetime: Time)
    requires ReserveTx(t, u, uid, now, limit, lifetime).Ok?
    ensures var c := ReserveTx(t, u, uid, now, limit, lifetime).value;
            && c.value == uid && uid in c.tables.sessions
            && c.tables == t.(sessions := t.sessions[uid := c.tables.sessions[uid]])
            && var s := c.tables.sessions[uid];
               && s.user == u.user && s.device == u.device && s.target == u.target && s.version == u.version
               && s.blob == u.blob && s.expectedRevision == u.expected && s.chunkSize == u.chunkSize
               && s.chunkCount == u.chunkCount && s.metadata == u.metadata
               && s.metadataKeyVersion == u.metadataKeyVersion && s.wrappedKey == u.wrappedKey && s.status == Open
               && s.expiresAt == now + lifetime
  {
  }

  /** The whole request also needs an own device and a live file that the user may write. */
  lemma OpenAccepted(t: Tables, u: UploadInput, uid: Id, now: Time, limit: nat, lifetime: Time)
    ensures CreateUploadTx(t, u, uid, now, limit, lifetime).Ok? <==>
              && MayReserve(t, u, uid, now, limit) && OwnDevice(t, u.user, u.device)
              && LiveTarget(t, u.target) && WritesFile(t, u.user, u.target)
    ensures CreateUploadTx(t, u, uid, now, limit, lifetime).Err? ==>
              CreateUploadTx(t, u, uid, now, limit, lifetime).error
                == if !UploadFits(u) then BadInput
                   else if !OwnDevice(t, u.user, u.device) then Forbidden
                   else if !LiveTarget(t, u.target) then TargetNodeMissing
                   else if !WritesFile(t, u.user, u.target) then Forbidden
                   else ReserveRefusal(t, u, now, limit)
  {
    ReserveAccepted(t, u, uid, now, limit, lifetime);
    if u.target in t.nodes { FileWriteDecides(t, u.user, u.target); }
  }

  /** A stranger or a READ recipient opens no upload to the file, and commits none. */
  lemma ReadersCannotUpload(t: Tables, u: UploadInput, uid: Id, w: Written, now: Time, limit: nat, lifetime: Time)
    requires LiveTarget(t, u.target) && t.nodes[u.target].owner != u.user
    requires match ShareGrant(t.nodes, t.shares, u.user, u.target)
             case None => true
             case Some(g) => g.permission == Read
    ensures CreateUploadTx(t, u, uid, now, limit, lifetime).Err?
    ensures w.request.user == u.user && w.session.target == u.target ==> !StoredRows(CommitTx(t, w, now))
  {
    OpenAccepted(t, u, uid, now, limit, lifetime);
    if w.request.operation !in t.processed { CommitAccepted(t, w, now); }
  }

  // ---------------------------------------------------------------- chunks

  predicate HoldsUpload(t: Tables, user: Id, device: Id, upload: Id) {
    upload in t.sessions && t.sessions[upload].user == user && t.sessions[upload].device == device
  }

  predicate MayStoreChunk(t: Tables, p: ChunkInput, now: Time) {
    && 1 <= |p.content| <= 8_388_608 && HoldsUpload(t, p.user, p.device, p.upload)
    && var s := t.sessions[p.upload];
       s.status == Open && now < s.expiresAt && p.no < s.chunkCount && |p.content| <= s.chunkSize
  }

  /** A chunk is stored once, repeated with the same bytes without effect, and otherwise refused. */
  lemma ChunkDecides(t: Tables, files: map<(Id, nat), Bytes>, p: ChunkInput, now: Time)
    ensures var r, k := PutChunkStep(t, files, p, now), (p.upload, p.no);
            if !(1 <= |p.content| <= 8_388_608) then r == Err(BadInput)
            else if !HoldsUpload(t, p.user, p.device, p.upload) then r == Err(NotFound)
            else if t.sessions[p.upload].status != Open || t.sessions[p.upload].expiresAt <= now
            then r == Err(InvalidState)
            else if !MayStoreChunk(t, p, now) then r == Err(BadInput)
            else if k !in t.chunks
            then r == Ok(Chunked(t.chunks[k := Chunk(|p.content|, Digest(p.content))], files[k := p.content]))
            else if t.chunks[k].digest == Digest(p.content) then r == Ok(Chunked(t.chunks, files))
            else r == Err(ChunkConflict)
  {
  }

  lemma AbortDecides(t: Tables, user: Id, device: Id, upload: Id)
    ensures var r := AbortTx(t, user, device, upload);
            if !HoldsUpload(t, user, device, upload) then r == Err(NotFound)
            else if t.sessions[upload].status != Open then r == Ok(Committed(t, false))
            else
              && r.Ok? && r.value.value && upload in r.value.tables.sessions
              && r.value.tables == t.(sessions := t.sessions[upload := r.value.tables.sessions[upload]])
              && r.value.tables.sessions[upload] == t.sessions[upload].(status := Aborted)
  {
  }

  // ---------------------------------------------------------------- complete, first half

  /** The completion needs an answer of its own, and may write the blob. */
  predicate MayBegin(t: Tables, c: CompleteInput, now: Time, limit: nat) {
    && c.keyVersion >= 1 && HoldsUpload(t, c.user, c.device, c.upload) && c.operation !in t.processed
    && var s := t.sessions[c.upload];
       && s.status == Open && now < s.expiresAt && (c.expected.Some? ==> c.expected.value == s.expectedRevision)
       && AllChunksThere(t, c, s.chunkCount) && RecordedBytes(t.chunks, c.upload, s.chunkCount) <= limit
  }

  predicate AllChunksThere(t: Tables, c: CompleteInput, count: nat) {
    && (forall k | k in t.chunks.Keys :: k.0 == c.upload ==> k.1 < count)
    && (forall n | 0 <= n < count :: (c.upload, n) in t.chunks)
  }

  function BeginRefusal(t: Tables, c: CompleteInput, now: Time): Error {
    if c.keyVersion < 1 then BadInput
    else if !HoldsUpload(t, c.user, c.device, c.upload) then NotFound
    else
      var s := t.sessions[c.upload];
      if s.status != Open || s.expiresAt <= now then InvalidState
      else if c.expected.Some? && c.expected.value != s.expectedRevision then BadInput
      else if c.operation in t.processed then OperationReused
      else if !AllChunksThere(t, c, s.chunkCount) then MissingChunks
      else TooLarge
  }

  lemma ReadyDecides(t: Tables, c: CompleteInput, now: Time, limit: nat)
    ensures Ready(t, c, now, limit).Ok? && Ready(t, c, now, limit).value.Some? <==> MayBegin(t, c, now, limit)
    ensures MayBegin(t, c, now, limit) ==> Ready(t, c, now, limit).value.value == t.sessions[c.upload]
    ensures Ready(t, c, now, limit).Err? ==> Ready(t, c, now, limit).error == BeginRefusal(t, c, now)
    ensures Ready(t, c, now, limit) == Ok(None) <==>
              && c.keyVersion >= 1 && HoldsUpload(t, c.user, c.device, c.upload)
              && var s := t.sessions[c.upload];
                 || s.status == Completed
                 || (&& s.status == Open && now < s.expiresAt && c.operation in t.processed
                     && (c.expected.Some? ==> c.expected.value == s.expectedRevision)
                     && t.processed[c.operation].user == c.user && t.processed[c.operation].mutation == UploadComplete)
  {
  }

  // ---------------------------------------------------------------- complete, second half

  ghost predicate MayCommit(t: Tables, w: Written) {
    var c, s := w.request, w.session;
    && c.upload in t.sessions && t.sessions[c.upload].status == Open
    && LiveTarget(t, s.target) && WritesFile(t, c.user, s.target)
    && (var n := t.nodes[s.target];
        var root := RootFor(t, n.owner, c.user, s.target);
        && n.revision == s.expectedRevision
        && KeyAccepted(t.folderKeys, n.owner, c.user, root, c.keyScope, c.keyVersion)
        && KeyAccepted(t.folderKeys, n.owner, c.user, root, c.keyScope, s.metadataKeyVersion))
    && s.blob !in t.blobs && s.version !in t.versions
  }

  ghost function CommitRefusal(t: Tables, w: Written): Error {
    var c, s := w.request, w.session;
    if c.upload !in t.sessions || t.sessions[c.upload].status != Open then InvalidState
    else if !LiveTarget(t, s.target) then TargetNodeMissing
    else if !WritesFile(t, c.user, s.target) then Forbidden
    else
      var n := t.nodes[s.target];
      var root := RootFor(t, n.owner, c.user, s.target);
      if n.revision != s.expectedRevision then RevisionConflict
      else if !KeyAccepted(t.folderKeys, n.owner, c.user, root, c.keyScope, c.keyVersion)
      then KeyRefusal(t.folderKeys, n.owner, c.user, root, c.keyScope, c.keyVersion)
      else if !KeyAccepted(t.folderKeys, n.owner, c.user, root, c.keyScope, s.metadataKeyVersion)
      then KeyRefusal(t.folderKeys, n.owner, c.user, root, c.keyScope, s.metadataKeyVersion)
      else IdTaken
  }

  /** A commit stores exactly under these conditions on tables and session, and is otherwise refused
      by the first that fails. */
  lemma CommitAccepted(t: Tables, w: Written, now: Time)
    requires w.request.operation !in t.processed
    ensures StoredRows(CommitTx(t, w, now)) <==> MayCommit(t, w)
    ensures !MayCommit(t, w) ==> CommitTx(t, w, now) == Err(CommitRefusal(t, w))
  {
    var c, s := w.request, w.session;
    if s.target in t.nodes {
      var n := t.nodes[s.target];
      FileWriteDecides(t, c.user, s.target);
      var root := RootFor(t, n.owner, c.user, s.target);
      KeyScopeDecides(t.folderKeys, n.owner, c.user, root, c.keyScope, c.keyVersion);
      KeyScopeDecides(t.folderKeys, n.owner, c.user, root, c.keyScope, s.metadataKeyVersion);
    }
  }

  /** A recorded operation stores nothing. */
  lemma CommitRecorded(t: Tables, w: Written, now: Time)
    requires w.request.operation in t.processed
    ensures var p := t.processed[w.request.operation];
            CommitTx(t, w, now)
              == if p.user == w.request.user && p.mutation == UploadComplete then Ok(Committed(t, Replayed))
                 else Err(OperationReused)
  {
  }

  /** The fields of the replaced file row. */
  ghost predicate ReplacedFile(n: Node, n': Node, s: Session, scope: Id, revision: nat, now: Time) {
    && n'.current == Some(s.version) && n'.metadata == s.metadata && n'.metadataKeyVersion == s.metadataKeyVersion
    && n'.metadataScope == (if scope == n.owner then None else Some(scope))
    && n'.owner == n.owner && n'.parent == n.parent && n'.kind == n.kind && n'.createdAt == n.createdAt
    && n'.deletedAt == n.deletedAt && n'.revision == revision && n'.updatedAt == now
  }

  ghost predicate NewVersionRows(t: Tables, t': Tables, w: Written, now: Time) {
    var c, s := w.request, w.session;
    && t'.blobs == t.blobs[s.blob := BlobRow(w.size, Digest(w.content), s.chunkCount, now)]
    && t'.versions == t.versions[
         s.version := Version(s.target, s.blob, s.wrappedKey, c.keyScope, c.keyVersion, now, |t.log| + 1)]
  }

  /** One blob row, one version row, the file's row, one log entry, the operation record and the
      session's status. */
  ghost predicate CommittedRows(t: Tables, t': Tables, w: Written, now: Time)
    requires w.session.target in t.nodes && w.request.upload in t.sessions
  {
    var c, s := w.request, w.session;
    && t' == t.(nodes := t'.nodes, log := t'.log, processed := t'.processed, versions := t'.versions,
                blobs := t'.blobs, sessions := t'.sessions)
    && s.target in t'.nodes && t'.nodes == t.nodes[s.target := t'.nodes[s.target]]
    && ReplacedFile(t.nodes[s.target], t'.nodes[s.target], s, c.keyScope, |t.log| + 1, now)
    && NewVersionRows(t, t', w, now)
    && t'.log == t.log + [Change(t.nodes[s.target].owner, s.target, Updated, now)]
    && t'.processed == t.processed[
         c.operation := Processed(c.user, c.device, UploadComplete, s.version, now + THIRTY_DAYS)]
    && t'.sessions == t.sessions[c.upload := t.sessions[c.upload].(status := Completed)]
  }

  lemma CommitEffect(t: Tables, w: Written, now: Time)
    requires StoredRows(CommitTx(t, w, now))
    ensures w.session.target in t.nodes && w.request.upload in t.sessions
    ensures CommittedRows(t, CommitTx(t, w, now).value.tables, w, now)
    ensures CommitTx(t, w, now).value.value == Stored(|t.log| + 1)
  {
  }

  /** A completed upload answers with its version's row, and only to its user and device. */
  lemma CompletedDecides(t: Tables, c: CompleteInput)
    requires c.upload in t.sessions ==> t.sessions[c.upload].status == Completed
    ensures CompleteReply(t, c).Ok? <==>
              && c.keyVersion >= 1 && HoldsUpload(t, c.user, c.device, c.upload)
              && t.sessions[c.upload].version in t.versions
              && t.versions[t.sessions[c.upload].version].blob in t.blobs
    ensures CompleteReply(t, c).Ok? ==>
              var v := t.sessions[c.upload].version;
              CompleteReply(t, c).value == CompleteResult(t.versions[v].blob, v, t.versions[v].revision)
    ensures CompleteReply(t, c).Err? ==>
              CompleteReply(t, c).error
                == if c.keyVersion < 1 then BadInput
                   else if !HoldsUpload(t, c.user, c.device, c.upload) then NotFound else MissingRow
  {
  }

  // ---------------------------------------------------------------- two versions of one file

  /** What decides who may write is not changed by replacing a file's row. */
  lemma ReplacedStaysWritable(t: Tables, t': Tables, x: Id, user: Id, y: Id)
    requires IsForest(t.nodes) && x in t.nodes && x in t'.nodes && t'.nodes == t.nodes[x := t'.nodes[x]]
    requires t'.nodes[x].parent == t.nodes[x].parent && t'.nodes[x].kind == t.nodes[x].kind
    requires t'.nodes[x].owner == t.nodes[x].owner && t'.nodes[x].deletedAt == t.nodes[x].deletedAt
    requires t'.shares == t.shares
    ensures ShareGrant(t'.nodes, t'.shares, user, y) == ShareGrant(t.nodes, t.shares, user, y)
  {
    SameShapeForest(t.nodes, t'.nodes);
    GrantFrame(t.nodes, t'.nodes, t.shares, user, Chain(t.nodes, y));
  }

  /** The second upload, as it would have to be to come first. */
  ghost function InPlaceOf(t: Tables, w: Written): Written
    requires w.session.target in t.nodes
  {
    w.(session := w.session.(expectedRevision := t.nodes[w.session.target].revision))
  }

  /** Two uploads to one file under different IDs, the second of which expects the revision the first
      was answered with, are both stored, and the first version and its blob row stay. */
  lemma SecondVersion(t: Tables, w: Written, now: Time, w2: Written, later: Time)
    requires IsForest(t.nodes) && w.request.operation !in t.processed && MayCommit(t, w)
    requires w2.request.operation !in t.processed && w2.session.target == w.session.target
    requires MayCommit(t, InPlaceOf(t, w2)) && w2.session.expectedRevision == |t.log| + 1
    requires w2.request.operation != w.request.operation && w2.request.upload != w.request.upload
    requires w2.session.blob != w.session.blob && w2.session.version != w.session.version
    ensures StoredRows(CommitTx(t, w, now))
    ensures var t1 := CommitTx(t, w, now).value.tables;
            && StoredRows(CommitTx(t1, w2, later))
            && var t2, x := CommitTx(t1, w2, later).value.tables, w.session.target;
               && x in t1.nodes && t1.nodes[x].current == Some(w.session.version)
               && x in t2.nodes && t2.nodes[x].current == Some(w2.session.version)
               && w.session.version in t1.versions && w.session.blob in t1.blobs
               && w.session.version in t2.versions && w2.session.version in t2.versions
               && t2.versions[w.session.version] == t1.versions[w.session.version]
               && w.session.blob in t2.blobs && t2.blobs[w.session.blob] == t1.blobs[w.session.blob]
  {
    CommitAccepted(t, w, now);
    CommitEffect(t, w, now);
    var t1, x := CommitTx(t, w, now).value.tables, w.session.target;
    ReplacedStaysWritable(t, t1, x, w2.request.user, x);
    CommitAccepted(t1, w2, later);
    CommitEffect(t1, w2, later);
  }
}
