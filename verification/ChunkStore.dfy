/** Chunks of open uploads: the first writer of a number wins, what is recorded never changes, a
    completion joins exactly what was recorded, and the space they take is bounded. */
module ChunkStore {
  import opened Common
  import opened Schema
  import opened Trash
  import opened Uploads
  import opened Collector
  import opened Server
  import opened AccessLaws
  import opened Durability

  // ---------------------------------------------------------------- invariant

  ghost predicate Framed(cfg: Config, s: Session) {
    1 <= s.chunkCount <= MAX_CHUNK_COUNT && 1 <= s.chunkSize <= MAX_CHUNK_SIZE
      && s.chunkCount * s.chunkSize <= cfg.limit
  }

  /** A recorded chunk of an open session fits its framing, and its file, if it exists, holds its
      bytes. Only an interrupted purge can have taken the file. */
  ghost predicate ChunkOk(s: State, k: (Id, nat))
    requires k in s.tables.chunks
  {
    OpenSession(s.tables.sessions, k.0) ==>
      && k.1 < s.tables.sessions[k.0].chunkCount && 0 < s.tables.chunks[k].size <= s.tables.sessions[k.0].chunkSize
      && (k in s.tempFiles ==> s.tempFiles[k] == s.tables.chunks[k].digest.of)
  }

  ghost predicate ChunkInv(cfg: Config, s: State) {
    && SizesRecorded(s.tables.chunks)
    && (forall k :: k in s.tables.chunks ==> k.0 in s.tables.sessions && ChunkOk(s, k))
    && (forall u :: u in s.tables.sessions ==> Framed(cfg, s.tables.sessions[u]))
  }

  /** Sessions close or go with their chunks; a file of a recorded chunk of an open session neither
      appears nor changes. */
  ghost predicate Quiet(s: State, s': State) {
    && (forall u ::
          u in s'.tables.sessions ==>
            u in s.tables.sessions && SessionKept(s.tables.sessions[u], s'.tables.sessions[u]))
    && (forall k :: k in s'.tables.chunks ==> k in s.tables.chunks && s'.tables.chunks[k] == s.tables.chunks[k])
    && (forall k :: k in s'.tables.chunks && k.0 in s.tables.sessions ==> k.0 in s'.tables.sessions)
    && (forall k :: k in s.tables.chunks && OpenSession(s'.tables.sessions, k.0) ==> k in s'.tables.chunks)
    && (forall k :: k in s.tables.chunks && OpenSession(s'.tables.sessions, k.0) && k in s'.tempFiles ==>
          k in s.tempFiles && s'.tempFiles[k] == s.tempFiles[k])
  }

  lemma QuietKeeps(cfg: Config, s: State, s': State)
    requires ChunkInv(cfg, s) && Quiet(s, s')
    ensures ChunkInv(cfg, s')
  {
    forall k | k in s'.tables.chunks ensures k.0 in s'.tables.sessions && ChunkOk(s', k) { assert ChunkOk(s, k); }
  }

  lemma SameIsQuiet(s: State, s': State)
    requires s'.tables.sessions == s.tables.sessions && s'.tables.chunks == s.tables.chunks
    requires s'.tempFiles == s.tempFiles
    ensures Quiet(s, s')
  {
  }

  lemma StoreFileQuiet(s: State, p: ChunkInput)
    requires (p.upload, p.no) !in s.tables.chunks
    ensures Quiet(s, s.(tempFiles := s.tempFiles[(p.upload, p.no) := p.content]))
  {
  }

  lemma ExpireQuiet(s: State, u: Id, now: Time)
    ensures Quiet(s, s.(tables := ExpiredSession(s.tables, u, now)))
  {
  }

  lemma RemoveFilesQuiet(s: State, u: Id)
    requires Closed(s.tables.sessions, u)
    ensures Quiet(s, s.(tempFiles := WithoutDirectory(s.tempFiles, u)))
  {
  }

  lemma DropQuiet(s: State, u: Id)
    requires Closed(s.tables.sessions, u)
    ensures Quiet(s, s.(tables := DroppedSession(s.tables, u)))
  {
  }

  lemma SessionsQuiet(cfg: Config, s: State, a: SessionAction, now: Time)
    requires !a.OpenUpload? && !a.RecordChunk?
    ensures Quiet(s, ApplySession(cfg, s, a, now))
  {
    SameIsQuiet(s, s);
    match a {
      case StoreChunkFile(p) => if (p.upload, p.no) !in s.tables.chunks { StoreFileQuiet(s, p); }
      case AbortUpload(user, device, u) => AbortQuiet(cfg, s, user, device, u, now);
      case ExpireUpload(u) => ExpireQuiet(s, u, now);
      case RemoveUploadFiles(u) => if Closed(s.tables.sessions, u) { RemoveFilesQuiet(s, u); }
      case DropUpload(u) => if Closed(s.tables.sessions, u) { DropQuiet(s, u); }
    }
  }

  lemma AbortQuiet(cfg: Config, s: State, user: Id, device: Id, u: Id, now: Time)
    ensures Quiet(s, ApplySession(cfg, s, AbortUpload(user, device, u), now))
  {
    var tx := AbortTx(s.tables, user, device, u);
    if tx.Ok? && tx.value.value {
      assert tx.value.tables == s.tables.(sessions := s.tables.sessions[u := s.tables.sessions[u].(status := Aborted)]);
    }
  }

  lemma CommitQuiet(s: State, u: Id, now: Time)
    requires u in s.writing
    ensures Quiet(s, BlobCommitted(s, u, now))
  {
    CommitEffect(s, u, now);
  }

  lemma PurgeQuiet(s: State, id: Id, cutoff: Time, order: seq<Id>, now: Time)
    ensures Quiet(s, TrashPurged(s, id, cutoff, order, now))
  {
    var gone := TrashSubtree(s.tables.nodes, id, cutoff);
    if Enumerates(order, gone) {
      var doomed := DoomedUploads(s.tables.sessions, gone);
      DoomedQuiet(s, TrashPurged(s, id, cutoff, order, now), doomed);
    } else {
      SameIsQuiet(s, s);
    }
  }

  lemma DoomedQuiet(s: State, s': State, doomed: set<Id>)
    requires s'.tables.sessions == s.tables.sessions - doomed && s'.tables.chunks == ChunksKept(s.tables.chunks, doomed)
    requires s'.tempFiles == s.tempFiles
    ensures Quiet(s, s')
  {
  }

  lemma DiscardQuiet(s: State, uploads: set<Id>)
    ensures Quiet(s, s.(tempFiles := WithoutDirectories(s.tempFiles, uploads)))
  {
  }

  lemma RetentionQuiet(s: State, a: RetentionAction, now: Time)
    ensures Quiet(s, ApplyRetention(s, a, now))
  {
    SameIsQuiet(s, s);
    match a {
      case DiscardPurgedFiles(id, cutoff) => DiscardQuiet(s, PurgedUploads(s.tables, id, cutoff));
      case PurgeTrash(id, cutoff, order) => PurgeQuiet(s, id, cutoff, order, now);
      case PurgeOwn(owner, id, order) =>
        if OwnEntry(s.tables.nodes, owner, id) { PurgeQuiet(s, id, s.tables.nodes[id].deletedAt.value, order, now); }
      case Prune(maxVersions, cutoff) => SameIsQuiet(s, ApplyRetention(s, a, now));
      case ForgetOperations => SameIsQuiet(s, ApplyRetention(s, a, now));
    }
  }

  lemma OpenKeepsChunks(cfg: Config, s: State, u: UploadInput, uid: Id, now: Time)
    requires ChunkInv(cfg, s)
    ensures ChunkInv(cfg, ApplySession(cfg, s, OpenUpload(u, uid), now))
  {
    var s' := ApplySession(cfg, s, OpenUpload(u, uid), now);
    forall k | k in s'.tables.chunks ensures k.0 in s'.tables.sessions && ChunkOk(s', k) { assert ChunkOk(s, k); }
  }

  /** A chunk is recorded at most once, with its file, within the framing of an open session. */
  lemma RecordEffect(cfg: Config, s: State, p: ChunkInput, now: Time)
    ensures var s', k := ApplySession(cfg, s, RecordChunk(p), now), (p.upload, p.no);
            || s' == s
            || (k !in s.tables.chunks && OpenSession(s.tables.sessions, p.upload)
                && p.no < s.tables.sessions[p.upload].chunkCount
                && 0 < |p.content| <= s.tables.sessions[p.upload].chunkSize
                && s'.tables.sessions == s.tables.sessions
                && s'.tables.chunks == s.tables.chunks[k := Chunk(|p.content|, Digest(p.content))]
                && s'.tempFiles == s.tempFiles[k := p.content])
  {
  }

  lemma RecordKeepsChunks(cfg: Config, s: State, p: ChunkInput, now: Time)
    requires ChunkInv(cfg, s)
    ensures ChunkInv(cfg, ApplySession(cfg, s, RecordChunk(p), now))
  {
    RecordEffect(cfg, s, p, now);
    var s' := ApplySession(cfg, s, RecordChunk(p), now);
    if s' != s { RecordedKeeps(cfg, s, s', p); }
  }

  lemma RecordedKeeps(cfg: Config, s: State, s': State, p: ChunkInput)
    requires ChunkInv(cfg, s) && OpenSession(s.tables.sessions, p.upload)
    requires p.no < s.tables.sessions[p.upload].chunkCount && 0 < |p.content| <= s.tables.sessions[p.upload].chunkSize
    requires s'.tables.sessions == s.tables.sessions
    requires s'.tables.chunks == s.tables.chunks[(p.upload, p.no) := Chunk(|p.content|, Digest(p.content))]
    requires s'.tempFiles == s.tempFiles[(p.upload, p.no) := p.content]
    ensures ChunkInv(cfg, s')
  {
    forall k | k in s'.tables.chunks ensures k.0 in s'.tables.sessions && ChunkOk(s', k) {
      if k != (p.upload, p.no) { assert ChunkOk(s, k); }
    }
  }

  lemma CompletionQuiet(cfg: Config, s: State, a: CompletionAction, now: Time)
    ensures Quiet(s, ApplyCompletion(cfg, s, a, now))
  {
    match a {
      case WriteBlobFile(c) => SameIsQuiet(s, BlobWritten(cfg, s, c, now));
      case CommitBlob(u) => if u in s.writing { CommitQuiet(s, u, now); } else { SameIsQuiet(s, s); }
    }
  }

  lemma OthersLeaveChunks(cfg: Config, s: State, e: Event)
    requires !e.action.OnSessions? && !e.action.OnCompletion? && !e.action.OnRetention?
    ensures var s' := Apply(cfg, s, e.action, e.now);
            s'.tables.sessions == s.tables.sessions && s'.tables.chunks == s.tables.chunks
              && s'.tempFiles == s.tempFiles
  {
    match e.action {
      case OnNodes(a) => NodesFrame(s.tables, a, e.now);
      case OnShares(a) =>
      case OnBlobs(a) =>
      case ChangeAccounts(users, devices) =>
      case Crash =>
    }
  }

  /** Every step but opening an upload or recording a chunk is quiet. */
  lemma StepQuiet(cfg: Config, s: State, e: Event)
    requires e.action.OnSessions? ==> !e.action.session.OpenUpload? && !e.action.session.RecordChunk?
    ensures Quiet(s, Apply(cfg, s, e.action, e.now))
  {
    match e.action {
      case OnSessions(a) => SessionsQuiet(cfg, s, a, e.now);
      case OnCompletion(a) => CompletionQuiet(cfg, s, a, e.now);
      case OnRetention(a) => RetentionQuiet(s, a, e.now);
      case _ => OthersLeaveChunks(cfg, s, e); SameIsQuiet(s, Apply(cfg, s, e.action, e.now));
    }
  }

  lemma StepKeepsChunks(cfg: Config, s: State, e: Event)
    requires ChunkInv(cfg, s)
    ensures ChunkInv(cfg, Step(cfg, s, e))
  {
    var s' := Apply(cfg, s, e.action, e.now);
    if e.action.OnSessions? && e.action.session.OpenUpload? {
      OpenKeepsChunks(cfg, s, e.action.session.upload, e.action.session.session, e.now);
    } else if e.action.OnSessions? && e.action.session.RecordChunk? {
      RecordKeepsChunks(cfg, s, e.action.session.chunk, e.now);
    } else {
      StepQuiet(cfg, s, e);
      QuietKeeps(cfg, s, s');
    }
    assert Quiet(s', Step(cfg, s, e)) by { SameIsQuiet(s', Step(cfg, s, e)); }
    QuietKeeps(cfg, s', Step(cfg, s, e));
  }

  lemma {:induction false} RunKeepsChunks(cfg: Config, s: State, es: seq<Event>)
    requires ChunkInv(cfg, s)
    ensures ChunkInv(cfg, Run(cfg, s, es))
    decreases |es|
  {
    if es != [] {
      RunKeepsChunks(cfg, s, es[..|es| - 1]);
      StepKeepsChunks(cfg, Run(cfg, s, es[..|es| - 1]), es[|es| - 1]);
    }
  }

  // ---------------------------------------------------------------- recorded chunks never change

  /** The session is open in every state of the run. */
  ghost predicate StaysOpen(cfg: Config, s: State, es: seq<Event>, u: Id)
    decreases |es|
  {
    OpenSession(Run(cfg, s, es).tables.sessions, u) && (es != [] ==> StaysOpen(cfg, s, es[..|es| - 1], u))
  }

  lemma StepKeepsRecorded(cfg: Config, s: State, e: Event, k: (Id, nat))
    requires k in s.tables.chunks && OpenSession(Step(cfg, s, e).tables.sessions, k.0)
    ensures k in Step(cfg, s, e).tables.chunks && Step(cfg, s, e).tables.chunks[k] == s.tables.chunks[k]
  {
    if e.action.OnSessions? && e.action.session.OpenUpload? {
      OpenLeavesChunks(cfg, s, e.action.session.upload, e.action.session.session, e.now);
    } else if e.action.OnSessions? && e.action.session.RecordChunk? {
      RecordEffect(cfg, s, e.action.session.chunk, e.now);
    } else {
      StepQuiet(cfg, s, e);
    }
  }

  lemma OpenLeavesChunks(cfg: Config, s: State, u: UploadInput, uid: Id, now: Time)
    ensures var s' := ApplySession(cfg, s, OpenUpload(u, uid), now);
            s'.tables.chunks == s.tables.chunks && s'.tempFiles == s.tempFiles
  {
  }

  lemma {:induction false} RecordedRowStays(cfg: Config, s: State, es: seq<Event>, k: (Id, nat))
    requires k in s.tables.chunks && StaysOpen(cfg, s, es, k.0)
    ensures k in Run(cfg, s, es).tables.chunks && Run(cfg, s, es).tables.chunks[k] == s.tables.chunks[k]
    ensures OpenSession(s.tables.sessions, k.0) && OpenSession(Run(cfg, s, es).tables.sessions, k.0)
    decreases |es|
  {
    if es != [] {
      RecordedRowStays(cfg, s, es[..|es| - 1], k);
      StepKeepsRecorded(cfg, Run(cfg, s, es[..|es| - 1]), es[|es| - 1], k);
    }
  }

  lemma RecordedFile(cfg: Config, s: State, k: (Id, nat))
    requires ChunkInv(cfg, s) && k in s.tables.chunks && OpenSession(s.tables.sessions, k.0) && k in s.tempFiles
    ensures s.tempFiles[k] == s.tables.chunks[k].digest.of
  {
    assert ChunkOk(s, k);
  }

  /** While an upload stays open its recorded chunks keep number, size and digest, whatever is sent
      again, out of order or in conflict, and a file that is still there keeps its bytes. */
  lemma RecordedChunkNeverChanges(cfg: Config, s: State, es: seq<Event>, k: (Id, nat))
    requires ChunkInv(cfg, s) && k in s.tables.chunks && StaysOpen(cfg, s, es, k.0)
    ensures var s' := Run(cfg, s, es);
            && k in s'.tables.chunks && s'.tables.chunks[k] == s.tables.chunks[k]
            && (k in s.tempFiles && k in s'.tempFiles ==> s'.tempFiles[k] == s.tempFiles[k])
  {
    RunKeepsChunks(cfg, s, es);
    RecordedRowStays(cfg, s, es, k);
    if k in s.tempFiles { RecordedFile(cfg, s, k); }
    if k in Run(cfg, s, es).tempFiles { RecordedFile(cfg, Run(cfg, s, es), k); }
  }

  // ---------------------------------------------------------------- which files are still there

  /** The event removes the upload's directory although the upload may stay open: a purge removes
      the directories before it commits, and a crash in between brings the session back. */
  predicate Discards(s: State, e: Event, u: Id) {
    match e.action
    case OnRetention(DiscardPurgedFiles(id, cutoff)) => u in PurgedUploads(s.tables, id, cutoff)
    case _ => false
  }

  ghost predicate HasChunks(s: State, u: Id) {
    exists k :: k in s.tables.chunks && k.0 == u
  }

  /** No event of the run removes the directory while the upload has a recorded chunk. */
  ghost predicate NoChunkDiscarded(cfg: Config, s: State, es: seq<Event>, u: Id)
    decreases |es|
  {
    es != [] ==>
      var m := Run(cfg, s, es[..|es| - 1]);
      NoChunkDiscarded(cfg, s, es[..|es| - 1], u) && !(Discards(m, es[|es| - 1], u) && HasChunks(m, u))
  }

  /** Every recorded chunk of the upload has its file. */
  ghost predicate FilesPresent(s: State, u: Id) {
    forall k :: k in s.tables.chunks && k.0 == u ==> k in s.tempFiles
  }

  /** Recorded chunks of the upload keep their files while it is open. */
  ghost predicate FilesStay(s: State, s': State, u: Id) {
    OpenSession(s'.tables.sessions, u) ==>
      forall k :: k in s.tables.chunks && k.0 == u && k in s.tempFiles ==> k in s'.tempFiles
  }

  lemma SessionFilesStay(cfg: Config, s: State, a: SessionAction, now: Time, u: Id)
    requires !a.OpenUpload? && !a.RecordChunk?
    ensures FilesStay(s, ApplySession(cfg, s, a, now), u)
  {
    match a {
      case StoreChunkFile(p) =>
      case AbortUpload(user, device, v) =>
      case ExpireUpload(v) =>
      case RemoveUploadFiles(v) =>
      case DropUpload(v) =>
    }
  }

  lemma RetentionFilesStay(s: State, a: RetentionAction, now: Time, u: Id)
    requires !Discards(s, Event(now, OnRetention(a)), u)
    ensures FilesStay(s, ApplyRetention(s, a, now), u)
  {
    match a {
      case DiscardPurgedFiles(id, cutoff) =>
      case PurgeTrash(id, cutoff, order) =>
      case PurgeOwn(owner, id, order) =>
      case Prune(maxVersions, cutoff) =>
      case ForgetOperations =>
    }
  }

  lemma StepFilesStay(cfg: Config, s: State, e: Event, u: Id)
    requires !Discards(s, e, u)
             && (e.action.OnSessions? ==> !e.action.session.OpenUpload? && !e.action.session.RecordChunk?)
    ensures FilesStay(s, Apply(cfg, s, e.action, e.now), u)
  {
    match e.action {
      case OnSessions(a) => SessionFilesStay(cfg, s, a, e.now, u);
      case OnCompletion(a) => CompletionLeavesFiles(cfg, s, a, e.now);
      case OnRetention(a) => RetentionFilesStay(s, a, e.now, u);
      case _ => OthersLeaveChunks(cfg, s, e);
    }
  }

  lemma CompletionLeavesFiles(cfg: Config, s: State, a: CompletionAction, now: Time)
    ensures ApplyCompletion(cfg, s, a, now).tempFiles == s.tempFiles
  {
  }

  lemma StepFilesPresent(cfg: Config, s: State, e: Event, u: Id)
    requires ChunkInv(cfg, s) && FilesPresent(s, u) && !Discards(s, e, u)
    requires OpenSession(Step(cfg, s, e).tables.sessions, u)
    ensures FilesPresent(Step(cfg, s, e), u)
  {
    if e.action.OnSessions? && e.action.session.OpenUpload? {
      OpenLeavesChunks(cfg, s, e.action.session.upload, e.action.session.session, e.now);
    } else if e.action.OnSessions? && e.action.session.RecordChunk? {
      RecordEffect(cfg, s, e.action.session.chunk, e.now);
    } else {
      StepQuiet(cfg, s, e);
      StepFilesStay(cfg, s, e, u);
    }
  }

  lemma StepStaysMissing(cfg: Config, s: State, e: Event, k: (Id, nat))
    requires k in s.tables.chunks && k !in s.tempFiles && OpenSession(Step(cfg, s, e).tables.sessions, k.0)
    ensures k !in Step(cfg, s, e).tempFiles
  {
    if e.action.OnSessions? && e.action.session.OpenUpload? {
      OpenLeavesChunks(cfg, s, e.action.session.upload, e.action.session.session, e.now);
    } else if e.action.OnSessions? && e.action.session.RecordChunk? {
      RecordEffect(cfg, s, e.action.session.chunk, e.now);
    } else {
      StepQuiet(cfg, s, e);
    }
  }

  lemma DiscardLosesFiles(cfg: Config, s: State, e: Event, u: Id)
    requires Discards(s, e, u) && HasChunks(s, u)
    ensures !FilesPresent(Step(cfg, s, e), u)
  {
    var k :| k in s.tables.chunks && k.0 == u;
    assert k in Step(cfg, s, e).tables.chunks && k !in Step(cfg, s, e).tempFiles;
  }

  lemma DiscardOfNothing(cfg: Config, s: State, e: Event, u: Id)
    requires Discards(s, e, u) && !HasChunks(s, u)
    ensures FilesPresent(Step(cfg, s, e), u)
  {
    assert Step(cfg, s, e).tables == s.tables;
  }

  lemma StepStaysIncomplete(cfg: Config, s: State, e: Event, u: Id)
    requires !FilesPresent(s, u) && OpenSession(Step(cfg, s, e).tables.sessions, u)
    ensures !FilesPresent(Step(cfg, s, e), u)
  {
    var k :| k in s.tables.chunks && k.0 == u && k !in s.tempFiles;
    StepKeepsRecorded(cfg, s, e, k);
    StepStaysMissing(cfg, s, e, k);
  }

  /** While an upload stays open, every chunk it has recorded has its file exactly when no purge
      that was cut off before its commit removed the directory after a chunk had been recorded. */
  lemma {:induction false} FilesPresentExactly(cfg: Config, s: State, es: seq<Event>, u: Id)
    requires ChunkInv(cfg, s) && FilesPresent(s, u) && StaysOpen(cfg, s, es, u)
    ensures FilesPresent(Run(cfg, s, es), u) <==> NoChunkDiscarded(cfg, s, es, u)
    decreases |es|
  {
    if es != [] {
      var before, e := es[..|es| - 1], es[|es| - 1];
      var m := Run(cfg, s, before);
      FilesPresentExactly(cfg, s, before, u);
      RunKeepsChunks(cfg, s, before);
      if !FilesPresent(m, u) {
        StepStaysIncomplete(cfg, m, e, u);
      } else if !Discards(m, e, u) {
        StepFilesPresent(cfg, m, e, u);
      } else if HasChunks(m, u) {
        DiscardLosesFiles(cfg, m, e, u);
      } else {
        DiscardOfNothing(cfg, m, e, u);
      }
    }
  }

  /** A lost chunk file never comes back while its upload stays open: the chunk counts as received,
      so sending it again writes nothing. */
  lemma {:induction false} LostFileStaysLost(cfg: Config, s: State, es: seq<Event>, k: (Id, nat))
    requires k in s.tables.chunks && k !in s.tempFiles && StaysOpen(cfg, s, es, k.0)
    ensures k in Run(cfg, s, es).tables.chunks && k !in Run(cfg, s, es).tempFiles
    decreases |es|
  {
    RecordedRowStays(cfg, s, es, k);
    if es != [] {
      RecordedRowStays(cfg, s, es[..|es| - 1], k);
      LostFileStaysLost(cfg, s, es[..|es| - 1], k);
      StepStaysMissing(cfg, Run(cfg, s, es[..|es| - 1]), es[|es| - 1], k);
    }
  }

  // ---------------------------------------------------------------- any order, any repetition

  lemma OpenSessionFrame(cfg: Config, s: State, input: UploadInput, uid: Id, now: Time, u: Id)
    requires u in s.tables.sessions
    ensures var sessions' := ApplySession(cfg, s, OpenUpload(input, uid), now).tables.sessions;
            u in sessions' && sessions'[u] == s.tables.sessions[u]
  {
  }

  lemma SessionStep(cfg: Config, s: State, e: Event, u: Id)
    requires OpenSession(s.tables.sessions, u) && OpenSession(Step(cfg, s, e).tables.sessions, u)
    ensures Step(cfg, s, e).tables.sessions[u] == s.tables.sessions[u]
  {
    if e.action.OnSessions? && e.action.session.OpenUpload? {
      OpenSessionFrame(cfg, s, e.action.session.upload, e.action.session.session, e.now, u);
    } else if e.action.OnSessions? && e.action.session.RecordChunk? {
      RecordEffect(cfg, s, e.action.session.chunk, e.now);
    } else {
      StepQuiet(cfg, s, e);
      assert SessionKept(s.tables.sessions[u], Step(cfg, s, e).tables.sessions[u]);
    }
  }

  /** An open session keeps everything that was declared when it was opened. */
  lemma {:induction false} OpenSessionUnchanged(cfg: Config, s: State, es: seq<Event>, u: Id)
    requires StaysOpen(cfg, s, es, u)
    ensures OpenSession(s.tables.sessions, u) && Run(cfg, s, es).tables.sessions[u] == s.tables.sessions[u]
    decreases |es|
  {
    if es != [] {
      OpenSessionUnchanged(cfg, s, es[..|es| - 1], u);
      SessionStep(cfg, Run(cfg, s, es[..|es| - 1]), es[|es| - 1], u);
    }
  }

  /** The open session takes this chunk at this time, if it has not been recorded before. */
  predicate Acceptable(session: Session, p: ChunkInput, now: Time) {
    && 0 < |p.content| <= MAX_CHUNK_SIZE && p.user == session.user && p.device == session.device
    && now < session.expiresAt && p.no < session.chunkCount && |p.content| <= session.chunkSize
  }

  /** The event delivers this acceptable content for the chunk. */
  predicate Delivers(session: Session, e: Event, k: (Id, nat), content: Bytes) {
    match e.action
    case OnSessions(RecordChunk(p)) => (p.upload, p.no) == k && p.content == content && Acceptable(session, p, e.now)
    case _ => false
  }

  /** The first acceptable content that a run delivers for a chunk. */
  ghost function FirstSent(session: Session, es: seq<Event>, k: (Id, nat)): Option<Bytes>
    decreases |es|
  {
    if es == [] then None
    else
      var before := FirstSent(session, es[..|es| - 1], k);
      var e := es[|es| - 1];
      if before.Some? then before
      else match e.action
        case OnSessions(RecordChunk(p)) => if Delivers(session, e, k, p.content) then Some(p.content) else None
        case _ => None
  }

  lemma RecordExactly(cfg: Config, s: State, p: ChunkInput, now: Time)
    requires OpenSession(s.tables.sessions, p.upload) && (p.upload, p.no) !in s.tables.chunks
    ensures var s', k := ApplySession(cfg, s, RecordChunk(p), now), (p.upload, p.no);
            if Acceptable(s.tables.sessions[p.upload], p, now)
            then s'.tables.chunks == s.tables.chunks[k := Chunk(|p.content|, Digest(p.content))]
              && s'.tempFiles == s.tempFiles[k := p.content]
            else s' == s
  {
  }

  /** What one event does to a chunk that is not recorded yet. */
  lemma FirstStep(cfg: Config, s: State, e: Event, k: (Id, nat))
    requires OpenSession(s.tables.sessions, k.0) && OpenSession(Step(cfg, s, e).tables.sessions, k.0)
             && k !in s.tables.chunks
    ensures var rows' := Step(cfg, s, e).tables.chunks;
            match FirstSent(s.tables.sessions[k.0], [e], k)
            case Some(content) => k in rows' && rows'[k] == Chunk(|content|, Digest(content))
            case None => k !in rows'
  {
    assert [e][..0] == [];
    assert FirstSent(s.tables.sessions[k.0], [], k).None?;
    if e.action.OnSessions? && e.action.session.RecordChunk? {
      var p := e.action.session.chunk;
      if (p.upload, p.no) == k { RecordExactly(cfg, s, p, e.now); } else { RecordEffect(cfg, s, p, e.now); }
    } else if e.action.OnSessions? && e.action.session.OpenUpload? {
      OpenLeavesChunks(cfg, s, e.action.session.upload, e.action.session.session, e.now);
    } else {
      StepQuiet(cfg, s, e);
    }
  }

  lemma FirstOfLast(session: Session, es: seq<Event>, k: (Id, nat))
    requires es != [] && FirstSent(session, es[..|es| - 1], k).None?
    ensures FirstSent(session, es, k) == FirstSent(session, [es[|es| - 1]], k)
  {
    assert [es[|es| - 1]][..0] == [];
  }

  /** Over any run of an open upload, with anything in between, each chunk ends up as it was
      recorded before, or else as the first acceptable content delivered for it. */
  lemma {:induction false} FirstWriterWins(cfg: Config, s: State, es: seq<Event>, k: (Id, nat))
    requires StaysOpen(cfg, s, es, k.0)
    ensures k.0 in s.tables.sessions
    ensures var rows := Run(cfg, s, es).tables.chunks;
            if k in s.tables.chunks then k in rows && rows[k] == s.tables.chunks[k]
            else match FirstSent(s.tables.sessions[k.0], es, k)
              case Some(content) => k in rows && rows[k] == Chunk(|content|, Digest(content))
              case None => k !in rows
    decreases |es|
  {
    OpenSessionUnchanged(cfg, s, es, k.0);
    if k in s.tables.chunks {
      RecordedRowStays(cfg, s, es, k);
    } else if es != [] {
      var before, e := es[..|es| - 1], es[|es| - 1];
      var m := Run(cfg, s, before);
      FirstWriterWins(cfg, s, before, k);
      OpenSessionUnchanged(cfg, s, before, k.0);
      if k in m.tables.chunks {
        StepKeepsRecorded(cfg, m, e, k);
      } else {
        FirstStep(cfg, m, e, k);
        FirstOfLast(s.tables.sessions[k.0], es, k);
      }
    }
  }

  ghost predicate Sent(session: Session, es: seq<Event>, k: (Id, nat), content: Bytes) {
    exists e :: e in es && Delivers(session, e, k, content)
  }

  lemma {:induction false} FirstSentIsSent(session: Session, es: seq<Event>, k: (Id, nat), content: Bytes)
    ensures FirstSent(session, es, k).None? ==> !Sent(session, es, k, content)
    ensures FirstSent(session, es, k) == Some(content) ==> Sent(session, es, k, content)
    decreases |es|
  {
    if es != [] {
      FirstSentIsSent(session, es[..|es| - 1], k, content);
      SentLast(session, es, k, content);
    }
  }

  lemma SentLast(session: Session, es: seq<Event>, k: (Id, nat), content: Bytes)
    requires es != []
    ensures Sent(session, es, k, content)
            <==> Sent(session, es[..|es| - 1], k, content) || Delivers(session, es[|es| - 1], k, content)
  {
    assert es == es[..|es| - 1] + [es[|es| - 1]];
  }

  /** Two runs deliver the same contents for the chunk, and no two different ones. */
  ghost predicate Agree(session: Session, es: seq<Event>, fs: seq<Event>, k: (Id, nat)) {
    && (forall content :: Sent(session, es, k, content) <==> Sent(session, fs, k, content))
    && (forall a, b :: Sent(session, es, k, a) && Sent(session, es, k, b) ==> a == b)
  }

  /** Uploading is confluent: two runs that deliver the same agreeing contents for a chunk leave the
      same row for it, in whatever order and however often, at whatever times, and whatever else
      happens in between. */
  lemma Confluent(cfg: Config, s: State, es: seq<Event>, fs: seq<Event>, k: (Id, nat))
    requires StaysOpen(cfg, s, es, k.0) && StaysOpen(cfg, s, fs, k.0)
    requires k.0 in s.tables.sessions && Agree(s.tables.sessions[k.0], es, fs, k)
    ensures var a, b := Run(cfg, s, es).tables.chunks, Run(cfg, s, fs).tables.chunks;
            (k in a <==> k in b) && (k in a ==> a[k] == b[k])
  {
    var session := s.tables.sessions[k.0];
    FirstWriterWins(cfg, s, es, k);
    FirstWriterWins(cfg, s, fs, k);
    var first, second := FirstSent(session, es, k), FirstSent(session, fs, k);
    if first.Some? {
      FirstSentIsSent(session, es, k, first.value);
      FirstSentIsSent(session, fs, k, first.value);
    }
    if second.Some? {
      FirstSentIsSent(session, es, k, second.value);
      FirstSentIsSent(session, fs, k, second.value);
    }
  }

  // ---------------------------------------------------------------- the space one device can take

  lemma {:induction false} RecordedWithinFraming(rows: map<(Id, nat), Chunk>, upload: Id, n: nat, chunkSize: nat)
    requires forall i: nat :: i < n && (upload, i) in rows ==> rows[(upload, i)].size <= chunkSize
    ensures RecordedBytes(rows, upload, n) <= n * chunkSize
  {
    if n > 0 {
      RecordedWithinFraming(rows, upload, n - 1, chunkSize);
      assert n * chunkSize == (n - 1) * chunkSize + chunkSize;
    }
  }

  /** The recorded bytes of an open session never exceed the limit it was opened under. */
  lemma OpenWithinLimit(cfg: Config, s: State, u: Id)
    requires ChunkInv(cfg, s) && OpenSession(s.tables.sessions, u)
    ensures RecordedBytes(s.tables.chunks, u, s.tables.sessions[u].chunkCount) <= cfg.limit
  {
    var session := s.tables.sessions[u];
    forall i: nat | i < session.chunkCount && (u, i) in s.tables.chunks
      ensures s.tables.chunks[(u, i)].size <= session.chunkSize
    {
      assert ChunkOk(s, (u, i));
    }
    RecordedWithinFraming(s.tables.chunks, u, session.chunkCount, session.chunkSize);
  }

  ghost predicate Quota(s: State) {
    forall d :: |OpenUploads(s.tables.sessions, d, s.clock)| <= MAX_OPEN_SESSIONS
  }

  lemma FewerOpen(sessions: map<Id, Session>, sessions': map<Id, Session>, d: Id, now: Time, later: Time)
    requires now <= later
    requires forall u :: OpenSession(sessions', u) ==> OpenSession(sessions, u) && sessions'[u] == sessions[u]
    ensures |OpenUploads(sessions', d, later)| <= |OpenUploads(sessions, d, now)|
  {
    assert forall u :: u in OpenUploads(sessions', d, later) ==> OpenSession(sessions', u);
    SubsetSize(OpenUploads(sessions', d, later), OpenUploads(sessions, d, now));
  }

  lemma OpenKeepsQuota(cfg: Config, s: State, u: UploadInput, uid: Id, now: Time, d: Id)
    requires Quota(s) && s.clock <= now && ReserveTx(s.tables, u, uid, now, cfg.limit, cfg.lifetime).Ok?
    ensures |OpenUploads(ReserveTx(s.tables, u, uid, now, cfg.limit, cfg.lifetime).value.tables.sessions, d, now)|
            <= MAX_OPEN_SESSIONS
  {
    FewerOpen(s.tables.sessions, s.tables.sessions, d, s.clock, now);
    OneMoreOpen(s.tables.sessions, uid, NewSession(u, now + cfg.lifetime), d, now);
  }

  /** A new session counts against its own device only, and for one. */
  lemma OneMoreOpen(sessions: map<Id, Session>, uid: Id, session: Session, d: Id, now: Time)
    ensures |OpenUploads(sessions[uid := session], d, now)|
            <= |OpenUploads(sessions, d, now)| + if d == session.device then 1 else 0
  {
    var before, after := OpenUploads(sessions, d, now), OpenUploads(sessions[uid := session], d, now);
    if d == session.device {
      assert after <= before + {uid};
      SubsetSize(after, before + {uid});
    } else {
      assert after <= before;
      SubsetSize(after, before);
    }
  }

  lemma StepKeepsQuota(cfg: Config, s: State, e: Event)
    requires Quota(s) && s.clock <= e.now
    ensures Quota(Step(cfg, s, e))
  {
    var s' := Apply(cfg, s, e.action, e.now);
    forall d ensures |OpenUploads(s'.tables.sessions, d, e.now)| <= MAX_OPEN_SESSIONS {
      if e.action.OnSessions? && e.action.session.OpenUpload?
        && ReserveTx(s.tables, e.action.session.upload, e.action.session.session, e.now, cfg.limit,
                          cfg.lifetime).Ok?
      {
        OpenKeepsQuota(cfg, s, e.action.session.upload, e.action.session.session, e.now, d);
      } else {
        OnlyOpeningOpens(cfg, s, e);
        FewerOpen(s.tables.sessions, s'.tables.sessions, d, s.clock, e.now);
      }
    }
  }

  lemma OnlyOpeningOpens(cfg: Config, s: State, e: Event)
    requires !(e.action.OnSessions? && e.action.session.OpenUpload?
               && ReserveTx(s.tables, e.action.session.upload, e.action.session.session, e.now, cfg.limit,
                                 cfg.lifetime).Ok?)
    ensures var t, t' := s.tables, Apply(cfg, s, e.action, e.now).tables;
            forall u :: OpenSession(t'.sessions, u) ==> OpenSession(t.sessions, u) && t'.sessions[u] == t.sessions[u]
  {
    if e.action.OnSessions? && (e.action.session.OpenUpload? || e.action.session.RecordChunk?) {
    } else {
      StepQuiet(cfg, s, e);
    }
  }

  /** Bytes recorded for a set of uploads. */
  ghost function TotalBytes(rows: map<(Id, nat), Chunk>, sessions: map<Id, Session>, us: set<Id>): nat
    requires us <= sessions.Keys
    decreases us
  {
    if us == {} then 0
    else
      var u :| u in us;
      RecordedBytes(rows, u, sessions[u].chunkCount) + TotalBytes(rows, sessions, us - {u})
  }

  lemma {:induction false} TotalWithin(cfg: Config, s: State, us: set<Id>)
    requires ChunkInv(cfg, s) && us <= s.tables.sessions.Keys
             && forall u :: u in us ==> OpenSession(s.tables.sessions, u)
    ensures TotalBytes(s.tables.chunks, s.tables.sessions, us) <= |us| * cfg.limit
    decreases us
  {
    if us != {} {
      forall u | u in us
        ensures RecordedBytes(s.tables.chunks, u, s.tables.sessions[u].chunkCount) <= cfg.limit
      {
        OpenWithinLimit(cfg, s, u);
      }
      forall u | u in us ensures TotalBytes(s.tables.chunks, s.tables.sessions, us - {u}) <= (|us| - 1) * cfg.limit {
        TotalWithin(cfg, s, us - {u});
      }
      assert |us| * cfg.limit == (|us| - 1) * cfg.limit + cfg.limit;
    }
  }

  /** At any time in any run, the recorded chunks of one device's open and unexpired uploads take
      at most 64 times the file limit. */
  lemma TemporaryStorageBounded(cfg: Config, s: State, es: seq<Event>, device: Id, now: Time)
    requires ChunkInv(cfg, s) && Quota(s) && AllowedRun(cfg, s, es) && Run(cfg, s, es).clock <= now
    ensures var t := Run(cfg, s, es).tables;
            && |OpenUploads(t.sessions, device, now)| <= MAX_OPEN_SESSIONS
            && TotalBytes(t.chunks, t.sessions, OpenUploads(t.sessions, device, now)) <= MAX_OPEN_SESSIONS * cfg.limit
  {
    var s' := Run(cfg, s, es);
    RunKeepsChunks(cfg, s, es);
    RunKeepsQuota(cfg, s, es);
    FewerOpen(s'.tables.sessions, s'.tables.sessions, device, s'.clock, now);
    var us := OpenUploads(s'.tables.sessions, device, now);
    TotalWithin(cfg, s', us);
    MulMonotone(|us|, cfg.limit, MAX_OPEN_SESSIONS, cfg.limit);
  }

  lemma {:induction false} RunKeepsQuota(cfg: Config, s: State, es: seq<Event>)
    requires Quota(s) && AllowedRun(cfg, s, es)
    ensures Quota(Run(cfg, s, es))
    decreases |es|
  {
    if es != [] {
      RunKeepsQuota(cfg, s, es[..|es| - 1]);
      StepKeepsQuota(cfg, Run(cfg, s, es[..|es| - 1]), es[|es| - 1]);
    }
  }
}
