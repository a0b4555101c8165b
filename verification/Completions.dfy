/** What a completion does with the chunks it finds: it joins them, or refuses and leaves nothing
    behind, and what it joined is what the version holds. */
module Completions {
  import opened Common
  import opened Schema
  import opened Nodes
  import opened Uploads
  import opened Server
  import opened Durability
  import opened ChunkStore

  // ---------------------------------------------------------------- what a completion joins

  /** The recorded bytes of chunks 0..n-1, one after the other. */
  ghost function Joined(rows: map<(Id, nat), Chunk>, upload: Id, n: nat): Bytes
    requires forall i: nat :: i < n ==> (upload, i) in rows
  {
    if n == 0 then [] else Joined(rows, upload, n - 1) + rows[(upload, n - 1)].digest.of
  }

  /** Assembling joins the recorded bytes if all files are there, and fails on a missing one. */
  lemma {:induction false} AssembledIsJoined(rows: map<(Id, nat), Chunk>, files: map<(Id, nat), Bytes>, upload: Id,
        n: nat)
    requires forall i: nat :: i < n ==> (upload, i) in rows
    requires forall i: nat :: i < n && (upload, i) in files ==> files[(upload, i)] == rows[(upload, i)].digest.of
    ensures Assembled(rows, files, upload, n)
         == if forall i: nat :: i < n ==> (upload, i) in files then Ok(Joined(rows, upload, n)) else Err(MissingRow)
  {
    if n > 0 { AssembledIsJoined(rows, files, upload, n - 1); }
  }

  /** A request that a completion of an open session looks at: all that can still fail is the
      chunks. */
  predicate Completable(t: Tables, c: CompleteInput, now: Time) {
    && c.keyVersion >= 1 && OwnsSession(t, c.user, c.device, c.upload)
    && t.sessions[c.upload].status == Open && now < t.sessions[c.upload].expiresAt
    && (c.expected.None? || c.expected.value == t.sessions[c.upload].expectedRevision)
    && ReplayOf(t.processed, c.operation, c.user, UploadComplete).Fresh?
  }

  ghost predicate AllNumbers(t: Tables, u: Id, n: nat) {
    forall i: nat :: i < n ==> (u, i) in t.chunks
  }

  lemma ChunksOfOpen(cfg: Config, s: State, u: Id)
    requires ChunkInv(cfg, s) && OpenSession(s.tables.sessions, u)
    ensures forall k :: k in s.tables.chunks && k.0 == u ==>
              k.1 < s.tables.sessions[u].chunkCount
                && (k in s.tempFiles ==> s.tempFiles[k] == s.tables.chunks[k].digest.of)
    ensures AllRecorded(s.tables.chunks, u, s.tables.sessions[u].chunkCount)
       <==> AllNumbers(s.tables, u, s.tables.sessions[u].chunkCount)
  {
    forall k | k in s.tables.chunks && k.0 == u
      ensures k.1 < s.tables.sessions[u].chunkCount
              && (k in s.tempFiles ==> s.tempFiles[k] == s.tables.chunks[k].digest.of)
    {
      assert ChunkOk(s, k);
    }
  }

  /** A completion of an open session finds all chunks exactly when the recorded numbers are
      0..n-1. It then writes them joined in order, and neither a digest nor the size check can fail
      under an unchanged limit; only if a file has been lost does it fail, and leaves no file. */
  lemma CompletionJoinsChunks(cfg: Config, s: State, c: CompleteInput, now: Time)
    requires ChunkInv(cfg, s) && BlobInv(s) && Completable(s.tables, c, now)
    ensures var session, begun := s.tables.sessions[c.upload],
            Begin(s.tables, s.blobFiles, s.tempFiles, c, now, cfg.limit);
            if !AllNumbers(s.tables, c.upload, session.chunkCount)
            then begun == Begun(s.blobFiles, Err(MissingChunks))
            else if !FilesPresent(s, c.upload)
            then begun == Begun(s.blobFiles - {session.blob}, Err(MissingRow))
            else
              var content := Joined(s.tables.chunks, c.upload, session.chunkCount);
              begun == Begun(s.blobFiles[session.blob := content], Ok(Some(Written(c, session, content, |content|))))
  {
    var u, session := c.upload, s.tables.sessions[c.upload];
    assert Reserves(s, u);
    ChunksOfOpen(cfg, s, u);
    if AllNumbers(s.tables, u, session.chunkCount) {
      OpenWithinLimit(cfg, s, u);
      AssembledIsJoined(s.tables.chunks, s.tempFiles, u, session.chunkCount);
      assert FilesPresent(s, u) <==> forall i: nat :: i < session.chunkCount ==> (u, i) in s.tempFiles;
      if FilesPresent(s, u) { AssembledLength(s.tables.chunks, s.tempFiles, u, session.chunkCount); }
      assert Ready(s.tables, c, now, cfg.limit) == Ok(Some(session));
    }
  }

  /** Once all chunks of an upload are recorded, completing it succeeds at any point of any run in
      which it stays open exactly when no interrupted purge removed its directory on the way. */
  lemma CompletesExactly(cfg: Config, s: State, es: seq<Event>, c: CompleteInput, now: Time)
    requires ChunkInv(cfg, s) && BlobInv(s) && AllowedRun(cfg, s, es)
    requires FilesPresent(s, c.upload) && StaysOpen(cfg, s, es, c.upload)
    requires var t := Run(cfg, s, es).tables;
             Completable(t, c, now) && AllNumbers(t, c.upload, t.sessions[c.upload].chunkCount)
    ensures var m := Run(cfg, s, es);
            Begin(m.tables, m.blobFiles, m.tempFiles, c, now, cfg.limit).outcome.Ok? <==>
              NoChunkDiscarded(cfg, s, es, c.upload)
  {
    RunKeepsChunks(cfg, s, es);
    RunKeepsBlobs(cfg, s, es);
    FilesPresentExactly(cfg, s, es, c.upload);
    CompletionJoinsChunks(cfg, Run(cfg, s, es), c, now);
  }

  /** An upload whose recorded chunk has lost its file cannot be completed in any run while it
      stays open, however often its chunks are sent again; it has to be aborted or expire. */
  lemma LostFileStrandsUpload(cfg: Config, s: State, es: seq<Event>, k: (Id, nat), c: CompleteInput, now: Time)
    requires ChunkInv(cfg, s) && BlobInv(s) && AllowedRun(cfg, s, es)
    requires k in s.tables.chunks && k !in s.tempFiles && StaysOpen(cfg, s, es, k.0)
    requires c.upload == k.0
    ensures var m := Run(cfg, s, es);
            var outcome := Begin(m.tables, m.blobFiles, m.tempFiles, c, now, cfg.limit).outcome;
            outcome.Ok? ==> outcome.value.None?
  {
    var m := Run(cfg, s, es);
    LostFileStaysLost(cfg, s, es, k);
    RunKeepsChunks(cfg, s, es);
    RunKeepsBlobs(cfg, s, es);
    if Completable(m.tables, c, now) {
      CompletionJoinsChunks(cfg, m, c, now);
      assert !FilesPresent(m, k.0);
    } else {
      NotCompletable(m.tables, m.blobFiles, m.tempFiles, c, now, cfg.limit);
    }
  }

  lemma NotCompletable(t: Tables, files: map<Id, Bytes>, temp: map<(Id, nat), Bytes>, c: CompleteInput, now: Time,
        limit: nat)
    requires !Completable(t, c, now)
    ensures var outcome := Begin(t, files, temp, c, now, limit).outcome; outcome.Ok? ==> outcome.value.None?
  {
  }

  lemma {:induction false} WritingStays(cfg: Config, s: State, es: seq<Event>, u: Id)
    requires u in s.writing && AllowedRun(cfg, s, es)
    requires forall e :: e in es ==> e.action != Crash && e.action != OnCompletion(CommitBlob(u))
    ensures u in Run(cfg, s, es).writing && Run(cfg, s, es).writing[u] == s.writing[u]
    decreases |es|
  {
    if es != [] {
      assert es[|es| - 1] in es;
      WritingStays(cfg, s, es[..|es| - 1], u);
      WritingStep(cfg, Run(cfg, s, es[..|es| - 1]), es[|es| - 1], u);
    }
  }

  lemma WritingStep(cfg: Config, s: State, e: Event, u: Id)
    requires u in s.writing && Allowed(s, e) && e.action != Crash && e.action != OnCompletion(CommitBlob(u))
    ensures u in Step(cfg, s, e).writing && Step(cfg, s, e).writing[u] == s.writing[u]
  {
    if e.action.OnCompletion? {
      match e.action.completion {
        case WriteBlobFile(c) =>
        case CommitBlob(v) => if v in s.writing { CommitEffect(s, v, e.now); }
      }
    } else if e.action.OnRetention? {
      RetentionWriting(s, e.action.retention, e.now);
    }
  }

  lemma RetentionWriting(s: State, a: RetentionAction, now: Time)
    ensures ApplyRetention(s, a, now).writing == s.writing
  {
  }

  /** A completion that starts at s, is interleaved with anything but a crash, and then stores its
      rows, leaves a version whose bytes are the chunks recorded at s joined in order. */
  lemma CompletedUpload(cfg: Config, s: State, now: Time, c: CompleteInput, s1: State, es: seq<Event>, later: Time)
    requires ChunkInv(cfg, s) && BlobInv(s) && Allowed(s, Event(now, OnCompletion(WriteBlobFile(c))))
    requires s1 == Step(cfg, s, Event(now, OnCompletion(WriteBlobFile(c)))) && c.upload in s1.writing
    requires AllowedRun(cfg, s1, es)
    requires forall e :: e in es ==> e.action != Crash && e.action != OnCompletion(CommitBlob(c.upload))
    requires var m := Run(cfg, s1, es);
             c.upload in m.writing && StoredRows(CommitTx(m.tables, m.writing[c.upload], later))
    ensures c.upload in s.tables.sessions && AllNumbers(s.tables, c.upload, s.tables.sessions[c.upload].chunkCount)
    ensures var s', session := BlobCommitted(Run(cfg, s1, es), c.upload, later), s.tables.sessions[c.upload];
            && session.version in s'.tables.versions
            && s'.tables.versions[session.version].blob in s'.blobFiles
            && s'.blobFiles[s'.tables.versions[session.version].blob]
               == Joined(s.tables.chunks, c.upload, session.chunkCount)
  {
    StartedCompletion(cfg, s, c, now);
    CompletionJoinsChunks(cfg, s, c, now);
    StepKeepsBlobs(cfg, s, Event(now, OnCompletion(WriteBlobFile(c))));
    RunKeepsBlobs(cfg, s1, es);
    WritingStays(cfg, s1, es, c.upload);
    CommittedBytes(Run(cfg, s1, es), c.upload, later);
  }

  /** What a completion in flight passed before its file was written. */
  lemma StartedCompletion(cfg: Config, s: State, c: CompleteInput, now: Time)
    requires c.upload !in s.writing && c.upload in BlobWritten(cfg, s, c, now).writing
    ensures Completable(s.tables, c, now)
    ensures Begin(s.tables, s.blobFiles, s.tempFiles, c, now, cfg.limit).outcome
            == Ok(Some(BlobWritten(cfg, s, c, now).writing[c.upload]))
  {
  }
}
