/** Committed file contents survive every run: crashes between file and row, retries, expiry,
    purges, and both passes of the blob collection. */
module Durability {
  import opened Common
  import opened Schema
  import opened Nodes
  import opened Trash
  import opened Uploads
  import opened Collector
  import opened Server
  import opened ChangeLog
  import opened AccessLaws

  // ---------------------------------------------------------------- invariant

  /** Every file version's blob is committed. */
  ghost predicate VersionsBacked(versions: map<Id, Version>, blobs: map<Id, BlobRow>) {
    forall v :: v in versions ==> versions[v].blob in blobs
  }

  /** Every committed blob's file holds exactly the bytes of its recorded size and digest. */
  ghost predicate FilesBacked(blobs: map<Id, BlobRow>, files: map<Id, Bytes>) {
    forall b :: b in blobs ==> b in files && |files[b]| == blobs[b].size && Digest(files[b]) == blobs[b].digest
  }

  /** A file about to be removed has no row. */
  ghost predicate Detached(s: State) {
    forall b :: b in s.tables.blobs ==> b !in s.sweeping && b !in s.condemned
  }

  /** A completion in flight holds an uncommitted file with its content that nobody removes. */
  ghost predicate InFlightOk(s: State, u: Id)
    requires u in s.writing
  {
    var w := s.writing[u];
    && w.request.upload == u
    && w.session.blob in s.blobFiles && s.blobFiles[w.session.blob] == w.content && |w.content| == w.size
    && w.session.blob !in s.tables.blobs && w.session.blob !in s.sweeping && w.session.blob !in s.condemned
    && (u in s.tables.sessions
        ==> s.tables.sessions[u].blob == w.session.blob && s.tables.sessions[u].version == w.session.version)
  }

  ghost predicate OpenSession(sessions: map<Id, Session>, u: Id) {
    u in sessions && sessions[u].status == Open
  }

  /** An open session reserves IDs that are not committed and not being removed. */
  ghost predicate Reserves(s: State, u: Id) {
    OpenSession(s.tables.sessions, u) ==>
      && s.tables.sessions[u].blob !in s.tables.blobs && s.tables.sessions[u].blob !in s.sweeping
      && s.tables.sessions[u].version !in s.tables.versions
  }

  /** Two open sessions never share a blob or version ID. */
  ghost predicate ReservedApart(sessions: map<Id, Session>) {
    forall u, u' :: OpenSession(sessions, u) && OpenSession(sessions, u') && u != u'
      ==> sessions[u].blob != sessions[u'].blob && sessions[u].version != sessions[u'].version
  }

  /** Completions in flight work on different blobs, and on no other session's blob. */
  ghost predicate WritersApart(writing: map<Id, Written>, sessions: map<Id, Session>) {
    && (forall u, u' ::
          u in writing && u' in writing && u != u' ==> writing[u].session.blob != writing[u'].session.blob)
    && (forall u, u' ::
          u in writing && OpenSession(sessions, u') && u != u' ==> writing[u].session.blob != sessions[u'].blob)
  }

  /** Every recorded chunk size is the length of the bytes whose digest is recorded with it. */
  ghost predicate SizesRecorded(chunks: map<(Id, nat), Chunk>) {
    forall k :: k in chunks ==> chunks[k].size == |chunks[k].digest.of|
  }

  ghost predicate BlobInv(s: State) {
    && SizesRecorded(s.tables.chunks)
    && VersionsBacked(s.tables.versions, s.tables.blobs)
    && FilesBacked(s.tables.blobs, s.blobFiles)
    && Detached(s)
    && (forall u :: u in s.writing ==> InFlightOk(s, u))
    && (forall u :: Reserves(s, u))
    && ReservedApart(s.tables.sessions)
    && WritersApart(s.writing, s.tables.sessions)
  }

  // ---------------------------------------------------------------- steps that touch no blob

  ghost predicate SessionKept(before: Session, after: Session) {
    after == before.(status := after.status) && (after.status == Open ==> before.status == Open)
  }

  /** Sessions only close or disappear, versions only disappear or change their keys. */
  ghost predicate Shrinks(t: Tables, t': Tables) {
    && t'.blobs == t.blobs
    && (SizesRecorded(t.chunks) ==> SizesRecorded(t'.chunks))
    && (forall v :: v in t'.versions ==> v in t.versions && t'.versions[v].blob == t.versions[v].blob)
    && (forall u :: u in t'.sessions ==> u in t.sessions && SessionKept(t.sessions[u], t'.sessions[u]))
  }

  lemma ShrinkKeeps(s: State, s': State)
    requires BlobInv(s) && Shrinks(s.tables, s'.tables)
    requires s'.blobFiles == s.blobFiles && s'.sweeping == s.sweeping && s'.condemned == s.condemned
    requires s'.writing == s.writing
    ensures BlobInv(s')
  {
    forall u | u in s'.writing ensures InFlightOk(s', u) { assert InFlightOk(s, u); }
    forall u ensures Reserves(s', u) { assert Reserves(s, u); }
    assert forall u :: OpenSession(s'.tables.sessions, u) ==> OpenSession(s.tables.sessions, u);
  }

  lemma {:induction false} RekeyShrinks(t: Tables, actor: Id, items: seq<RekeyItem>, now: Time)
    requires RekeyAll(t, actor, items, now).Ok?
    ensures Shrinks(t, RekeyAll(t, actor, items, now).value)
    decreases |items|
  {
    if items != [] {
      RewrappedFrame(t, actor, t.nodes[items[0].node].owner, items[0].node, items[0].versions);
      RekeyShrinks(RekeyOne(t, actor, items[0], now).value, actor, items[1..], now);
    }
  }

  lemma NodesShrink(t: Tables, a: NodeAction, now: Time)
    ensures Shrinks(t, NodeTables(t, a, now))
  {
    NodesFrame(t, a, now);
    if a.RekeyNodes? && RekeyTx(t, a.rekey, now).Ok? { RekeyShrinks(t, a.rekey.actor, a.rekey.items, now); }
  }

  lemma PurgedShrinks(t: Tables, gone: set<Id>, order: seq<Id>, now: Time)
    requires gone <= t.nodes.Keys && forall x :: x in order ==> x in t.nodes
    ensures var t' := PurgedTables(t, gone, order, now); Shrinks(t, t') && t'.blobMarks == t.blobMarks
  {
  }

  lemma PurgeShrinks(s: State, id: Id, cutoff: Time, order: seq<Id>, now: Time)
    ensures var t' := TrashPurged(s, id, cutoff, order, now).tables;
            Shrinks(s.tables, t') && t'.blobMarks == s.tables.blobMarks
  {
    var gone := TrashSubtree(s.tables.nodes, id, cutoff);
    if Enumerates(order, gone) {
      assert forall x :: x in order ==> x in gone;
      PurgedShrinks(s.tables, gone, order, now);
    }
  }

  lemma RetentionShrinks(s: State, a: RetentionAction, now: Time)
    ensures var t' := ApplyRetention(s, a, now).tables; Shrinks(s.tables, t') && t'.blobMarks == s.tables.blobMarks
  {
    match a {
      case DiscardPurgedFiles(id, cutoff) =>
      case PurgeTrash(id, cutoff, order) => PurgeShrinks(s, id, cutoff, order, now);
      case PurgeOwn(owner, id, order) =>
        if OwnEntry(s.tables.nodes, owner, id) { PurgeShrinks(s, id, s.tables.nodes[id].deletedAt.value, order, now); }
      case Prune(maxVersions, cutoff) =>
      case ForgetOperations =>
    }
  }

  lemma SessionsShrink(cfg: Config, s: State, a: SessionAction, now: Time)
    requires !a.OpenUpload?
    ensures Shrinks(s.tables, ApplySession(cfg, s, a, now).tables)
  {
    match a {
      case StoreChunkFile(p) =>
      case RecordChunk(p) =>
      case AbortUpload(user, device, u) => AbortShrinks(s.tables, user, device, u);
      case ExpireUpload(u) =>
      case RemoveUploadFiles(u) =>
      case DropUpload(u) =>
    }
  }

  lemma AbortShrinks(t: Tables, user: Id, device: Id, u: Id)
    ensures Shrinks(t, After(t, AbortTx(t, user, device, u)))
  {
  }

  // ---------------------------------------------------------------- reserving IDs

  /** Opening a session on a blob that is not in flight keeps the invariant. */
  lemma OpenKeeps(cfg: Config, s: State, u: UploadInput, uid: Id, now: Time)
    requires BlobInv(s) && uid !in s.writing && !BlobInFlight(s, u.blob)
    requires ReserveTx(s.tables, u, uid, now, cfg.limit, cfg.lifetime).Ok?
    ensures BlobInv(ApplySession(cfg, s, OpenUpload(u, uid), now))
  {
    OpenedSession(cfg, s, u, uid, now);
    ReservedKeeps(s, uid, NewSession(u, now + cfg.lifetime));
  }

  /** One more open session whose IDs nobody uses. */
  lemma ReservedKeeps(s: State, uid: Id, n: Session)
    requires BlobInv(s) && uid !in s.writing && uid !in s.tables.sessions && n.status == Open
             && !BlobInFlight(s, n.blob)
    requires n.blob !in s.tables.blobs && n.version !in s.tables.versions
    requires forall v ::
               OpenSession(s.tables.sessions, v) ==>
                 s.tables.sessions[v].blob != n.blob && s.tables.sessions[v].version != n.version
    ensures BlobInv(s.(tables := s.tables.(sessions := s.tables.sessions[uid := n])))
  {
    var s' := s.(tables := s.tables.(sessions := s.tables.sessions[uid := n]));
    forall w | w in s'.writing ensures InFlightOk(s', w) { assert InFlightOk(s, w); }
    forall v ensures Reserves(s', v) { assert Reserves(s, v); }
    ReservedStaysApart(s.tables.sessions, s.writing, uid, n);
  }

  lemma ReservedStaysApart(sessions: map<Id, Session>, writing: map<Id, Written>, uid: Id, n: Session)
    requires ReservedApart(sessions) && WritersApart(writing, sessions) && uid !in sessions && n.status == Open
    requires forall w :: w in writing ==> writing[w].session.blob != n.blob
    requires forall v :: OpenSession(sessions, v) ==> sessions[v].blob != n.blob && sessions[v].version != n.version
    ensures ReservedApart(sessions[uid := n]) && WritersApart(writing, sessions[uid := n])
  {
    var sessions' := sessions[uid := n];
    forall v ensures OpenSession(sessions', v) <==> v == uid || OpenSession(sessions, v) {
      assert v != uid ==> (v in sessions' <==> v in sessions);
    }
  }

  lemma OpenedSession(cfg: Config, s: State, u: UploadInput, uid: Id, now: Time)
    requires ReserveTx(s.tables, u, uid, now, cfg.limit, cfg.lifetime).Ok?
    ensures var t, s' := s.tables, ApplySession(cfg, s, OpenUpload(u, uid), now);
            && uid !in t.sessions && u.blob !in t.blobs && u.version !in t.versions
            && (forall v ::
                  OpenSession(t.sessions, v) ==> t.sessions[v].blob != u.blob && t.sessions[v].version != u.version)
            && s' == s.(tables := t.(sessions := t.sessions[uid := NewSession(u, now + cfg.lifetime)]))
  {
  }

  // ---------------------------------------------------------------- completing

  /** What is assembled has the recorded total length. */
  lemma {:induction false} AssembledLength(rows: map<(Id, nat), Chunk>, files: map<(Id, nat), Bytes>, upload: Id,
        n: nat)
    requires SizesRecorded(rows) && Assembled(rows, files, upload, n).Ok?
    ensures |Assembled(rows, files, upload, n).value| == RecordedBytes(rows, upload, n)
  {
    if n > 0 { AssembledLength(rows, files, upload, n - 1); }
  }

  lemma BeginOutcome(cfg: Config, s: State, c: CompleteInput, now: Time)
    requires SizesRecorded(s.tables.chunks)
    ensures var s' := BlobWritten(cfg, s, c, now);
            || s' == s
            || (OpenSession(s.tables.sessions, c.upload)
                && var session := s.tables.sessions[c.upload];
                   || s' == s.(blobFiles := s.blobFiles - {session.blob})
                   || (c.upload in s'.writing && s'.writing[c.upload].session == session
                       && s'.writing[c.upload].request == c
                       && |s'.writing[c.upload].content| == s'.writing[c.upload].size
                       && s' == s.(blobFiles := s.blobFiles[session.blob := s'.writing[c.upload].content],
                                   writing := s.writing[c.upload := s'.writing[c.upload]])))
  {
    match Ready(s.tables, c, now, cfg.limit) {
      case Ok(Some(session)) =>
        if Assembled(s.tables.chunks, s.tempFiles, c.upload, session.chunkCount).Ok? {
          AssembledLength(s.tables.chunks, s.tempFiles, c.upload, session.chunkCount);
        }
      case _ =>
    }
  }

  /** Writing the blob file replaces or removes only the file that the open session reserved. */
  lemma WriteKeeps(cfg: Config, s: State, c: CompleteInput, now: Time)
    requires BlobInv(s) && c.upload !in s.writing
    requires c.upload in s.tables.sessions ==> s.tables.sessions[c.upload].blob !in s.condemned
    ensures BlobInv(BlobWritten(cfg, s, c, now))
  {
    BeginOutcome(cfg, s, c, now);
    var s' := BlobWritten(cfg, s, c, now);
    if s' != s {
      WrittenKeeps(s, s', c.upload, s.tables.sessions[c.upload].blob);
    }
  }

  lemma WrittenKeeps(s: State, s': State, u: Id, b: Id)
    requires BlobInv(s) && u !in s.writing && OpenSession(s.tables.sessions, u)
    requires s.tables.sessions[u].blob == b && b !in s.condemned
    requires s' == s.(blobFiles := s.blobFiles - {b})
          || (u in s'.writing && s'.writing[u].session == s.tables.sessions[u] && s'.writing[u].request.upload == u
              && |s'.writing[u].content| == s'.writing[u].size
              && s' == s.(blobFiles := s.blobFiles[b := s'.writing[u].content],
                          writing := s.writing[u := s'.writing[u]]))
    ensures BlobInv(s')
  {
    assert Reserves(s, u);
    forall w | w in s'.writing ensures InFlightOk(s', w) {
      if w != u { assert InFlightOk(s, w) && s.writing[w].session.blob != b; }
    }
    forall v ensures Reserves(s', v) { assert Reserves(s, v); }
  }

  lemma CommitEffect(s: State, u: Id, now: Time)
    requires u in s.writing
    ensures var s', w := BlobCommitted(s, u, now), s.writing[u];
            var t, t', session := s.tables, s'.tables, w.session;
            && s'.writing == s.writing - {u} && s'.sweeping == s.sweeping && s'.condemned == s.condemned
            && t'.chunks == t.chunks
            && (if StoredRows(CommitTx(t, w, now))
                then
                  && s'.blobFiles == s.blobFiles && session.version !in t.versions
                  && OpenSession(t.sessions, w.request.upload)
                  && session.blob in t'.blobs && t'.blobs == t.blobs[session.blob := t'.blobs[session.blob]]
                  && t'.blobs[session.blob].size == w.size && t'.blobs[session.blob].digest == Digest(w.content)
                  && session.version in t'.versions
                  && t'.versions == t.versions[session.version := t'.versions[session.version]]
                  && t'.versions[session.version].blob == session.blob
                  && t'.sessions == t.sessions[w.request.upload := t.sessions[w.request.upload].(status := Completed)]
                else
                  && s'.blobFiles == s.blobFiles - {session.blob}
                  && t'.blobs == t.blobs && t'.versions == t.versions && t'.sessions == t.sessions)
  {
  }

  lemma CommitKeeps(s: State, u: Id, now: Time)
    requires BlobInv(s) && u in s.writing
    ensures BlobInv(BlobCommitted(s, u, now))
  {
    CommitEffect(s, u, now);
    assert InFlightOk(s, u);
    if StoredRows(CommitTx(s.tables, s.writing[u], now)) {
      StoredKeeps(s, BlobCommitted(s, u, now), u);
    } else {
      DroppedKeeps(s, BlobCommitted(s, u, now), u);
    }
  }

  lemma DroppedKeeps(s: State, s': State, u: Id)
    requires BlobInv(s) && u in s.writing
    requires s'.writing == s.writing - {u} && s'.sweeping == s.sweeping && s'.condemned == s.condemned
    requires s'.blobFiles == s.blobFiles - {s.writing[u].session.blob}
    requires s'.tables.blobs == s.tables.blobs && s'.tables.versions == s.tables.versions
    requires s'.tables.sessions == s.tables.sessions
    requires s'.tables.chunks == s.tables.chunks
    ensures BlobInv(s')
  {
    assert InFlightOk(s, u);
    forall w | w in s'.writing ensures InFlightOk(s', w) { assert InFlightOk(s, w); }
    forall v ensures Reserves(s', v) { assert Reserves(s, v); }
  }

  lemma StoredKeeps(s: State, s': State, u: Id)
    requires BlobInv(s) && u in s.writing
    requires s'.writing == s.writing - {u} && s'.sweeping == s.sweeping && s'.condemned == s.condemned
    requires s'.blobFiles == s.blobFiles
    requires var w, t, t' := s.writing[u], s.tables, s'.tables;
             && OpenSession(t.sessions, u) && t'.chunks == t.chunks
             && w.session.blob in t'.blobs && t'.blobs == t.blobs[w.session.blob := t'.blobs[w.session.blob]]
             && t'.blobs[w.session.blob].size == w.size && t'.blobs[w.session.blob].digest == Digest(w.content)
             && w.session.version in t'.versions
             && t'.versions == t.versions[w.session.version := t'.versions[w.session.version]]
             && t'.versions[w.session.version].blob == w.session.blob
             && t'.sessions == t.sessions[u := t.sessions[u].(status := Completed)]
    ensures BlobInv(s')
  {
    assert InFlightOk(s, u);
    forall w | w in s'.writing
      ensures InFlightOk(s', w)
    {
      assert InFlightOk(s, w) && s.writing[w].session.blob != s.writing[u].session.blob;
    }
    forall v ensures Reserves(s', v) {
      assert Reserves(s, v);
      if OpenSession(s'.tables.sessions, v) { assert OpenSession(s.tables.sessions, v) && v != u; }
    }
    assert forall v :: OpenSession(s'.tables.sessions, v) ==> OpenSession(s.tables.sessions, v);
  }

  // ---------------------------------------------------------------- collecting

  /** Removing an unreferenced row, or a file that has none. */
  lemma CollectionKeeps(cfg: Config, s: State, a: BlobAction, now: Time)
    requires BlobInv(s) && (a.CheckOrphan? ==> !BeingWritten(s, a.blob))
    ensures BlobInv(ApplyCollection(cfg, s, a, now))
  {
    var s' := ApplyCollection(cfg, s, a, now);
    CollectionEffect(cfg, s, a, now);
    forall w | w in s'.writing ensures InFlightOk(s', w) { assert InFlightOk(s, w); }
    forall v ensures Reserves(s', v) { assert Reserves(s, v); }
  }

  ghost predicate RowSwept(s: State, s': State, b: Id) {
    && b in s.tables.blobs && Unreferenced(s.tables.versions, b)
    && s'.tables.blobs == s.tables.blobs - {b} && s'.sweeping == s.sweeping + {b} && s'.blobFiles == s.blobFiles
    && s'.condemned == s.condemned
  }

  ghost predicate FileRemoved(s: State, s': State, b: Id) {
    && (b in s.sweeping || b in s.condemned)
    && s'.tables.blobs == s.tables.blobs && s'.blobFiles == s.blobFiles - {b} && s'.sweeping <= s.sweeping
    && s'.condemned <= s.condemned
  }

  lemma CollectionEffect(cfg: Config, s: State, a: BlobAction, now: Time)
    ensures var s' := ApplyCollection(cfg, s, a, now);
            || (s'.tables.blobs == s.tables.blobs && s'.blobFiles == s.blobFiles && s'.sweeping == s.sweeping
                && s'.condemned == s.condemned)
            || (a.SweepRow? && RowSwept(s, s', a.blob))
            || (a.SweepFile? && FileRemoved(s, s', a.blob))
            || (a.RemoveOrphan? && FileRemoved(s, s', a.blob))
            || (a.CheckOrphan? && a.blob !in s.tables.blobs && s'.tables.blobs == s.tables.blobs
                && s'.blobFiles == s.blobFiles
                && s'.sweeping == s.sweeping && s'.condemned == s.condemned + {a.blob})
  {
  }

  // ---------------------------------------------------------------- every run

  lemma CrashKeeps(s: State, s': State)
    requires BlobInv(s) && s'.tables == s.tables && s'.blobFiles == s.blobFiles
    requires s'.writing == map[] && s'.sweeping == {} && s'.condemned == {}
    ensures BlobInv(s')
  {
    forall v ensures Reserves(s', v) { assert Reserves(s, v); }
  }

  lemma SessionKeeps(cfg: Config, s: State, a: SessionAction, now: Time)
    requires BlobInv(s) && (a.OpenUpload? ==> a.session !in s.writing && !BlobInFlight(s, a.upload.blob))
    ensures BlobInv(ApplySession(cfg, s, a, now))
  {
    if a.OpenUpload? {
      if ReserveTx(s.tables, a.upload, a.session, now, cfg.limit, cfg.lifetime).Ok? {
        OpenKeeps(cfg, s, a.upload, a.session, now);
      }
    } else {
      SessionsShrink(cfg, s, a, now);
      ShrinkKeeps(s, ApplySession(cfg, s, a, now));
    }
  }

  lemma TablesShrink(s: State, t': Tables)
    requires BlobInv(s) && Shrinks(s.tables, t')
    ensures BlobInv(s.(tables := t'))
  {
    ShrinkKeeps(s, s.(tables := t'));
  }

  lemma RetentionKeeps(s: State, a: RetentionAction, now: Time)
    requires BlobInv(s)
    ensures BlobInv(ApplyRetention(s, a, now))
  {
    RetentionShrinks(s, a, now);
    ShrinkKeeps(s, ApplyRetention(s, a, now));
  }

  lemma CompletionKeeps(cfg: Config, s: State, a: CompletionAction, now: Time)
    requires BlobInv(s)
    requires a.WriteBlobFile? ==>
               a.complete.upload !in s.writing
               && (a.complete.upload in s.tables.sessions ==> s.tables.sessions[a.complete.upload].blob !in s.condemned)
    ensures BlobInv(ApplyCompletion(cfg, s, a, now))
  {
    match a {
      case WriteBlobFile(c) => WriteKeeps(cfg, s, c, now);
      case CommitBlob(u) => if u in s.writing { CommitKeeps(s, u, now); }
    }
  }

  lemma ApplyKeepsBlobs(cfg: Config, s: State, e: Event)
    requires BlobInv(s) && Allowed(s, e)
    ensures BlobInv(Apply(cfg, s, e.action, e.now))
  {
    match e.action {
      case OnNodes(a) => NodesShrink(s.tables, a, e.now); TablesShrink(s, NodeTables(s.tables, a, e.now));
      case OnShares(a) => TablesShrink(s, SharingTables(s.tables, a, e.now));
      case OnSessions(a) => SessionKeeps(cfg, s, a, e.now);
      case OnCompletion(a) => CompletionKeeps(cfg, s, a, e.now);
      case OnRetention(a) => RetentionKeeps(s, a, e.now);
      case OnBlobs(a) => CollectionKeeps(cfg, s, a, e.now);
      case ChangeAccounts(users, devices) => TablesShrink(s, s.tables.(users := users, devices := devices));
      case Crash => CrashKeeps(s, Apply(cfg, s, e.action, e.now));
    }
  }

  lemma ClockKeepsBlobs(s: State, now: Time)
    requires BlobInv(s)
    ensures BlobInv(s.(clock := now))
  {
    var s' := s.(clock := now);
    forall u | u in s'.writing ensures InFlightOk(s', u) { assert InFlightOk(s, u); }
    forall u ensures Reserves(s', u) { assert Reserves(s, u); }
  }

  lemma StepKeepsBlobs(cfg: Config, s: State, e: Event)
    requires BlobInv(s) && Allowed(s, e)
    ensures BlobInv(Step(cfg, s, e))
  {
    ApplyKeepsBlobs(cfg, s, e);
    ClockKeepsBlobs(Apply(cfg, s, e.action, e.now), e.now);
  }

  /** Every file version's bytes are on disk, with the size and digest recorded for them, after
      any run with crashes wherever they fall. */
  lemma {:induction false} RunKeepsBlobs(cfg: Config, s: State, es: seq<Event>)
    requires BlobInv(s) && AllowedRun(cfg, s, es)
    ensures BlobInv(Run(cfg, s, es))
    decreases |es|
  {
    if es != [] {
      RunKeepsBlobs(cfg, s, es[..|es| - 1]);
      StepKeepsBlobs(cfg, Run(cfg, s, es[..|es| - 1]), es[|es| - 1]);
    }
  }

  // ---------------------------------------------------------------- the bytes of a version

  /** Rows present before and after a step keep their blob, and blob rows never change. */
  ghost predicate RowsStable(t: Tables, t': Tables) {
    && (forall v :: v in t.versions && v in t'.versions ==> t'.versions[v].blob == t.versions[v].blob)
    && (forall b :: b in t.blobs && b in t'.blobs ==> t'.blobs[b] == t.blobs[b])
  }

  ghost predicate WritersUncommitted(s: State) {
    forall u :: u in s.writing ==> s.writing[u].session.blob !in s.tables.blobs
  }

  lemma CompletionStable(cfg: Config, s: State, a: CompletionAction, now: Time)
    requires WritersUncommitted(s)
    ensures RowsStable(s.tables, ApplyCompletion(cfg, s, a, now).tables)
  {
    if a.CommitBlob? && a.session in s.writing {
      CommitEffect(s, a.session, now);
    }
  }

  lemma BlobsStable(cfg: Config, s: State, a: BlobAction, now: Time)
    ensures RowsStable(s.tables, ApplyCollection(cfg, s, a, now).tables)
  {
    CollectionEffect(cfg, s, a, now);
  }

  lemma RetentionStable(s: State, a: RetentionAction, now: Time)
    ensures RowsStable(s.tables, ApplyRetention(s, a, now).tables)
  {
    RetentionShrinks(s, a, now);
  }

  lemma RequestsStable(cfg: Config, s: State, e: Event)
    requires !e.action.OnCompletion? && !e.action.OnRetention? && !e.action.OnBlobs?
    ensures RowsStable(s.tables, Step(cfg, s, e).tables)
  {
    RequestsLeaveBlobs(cfg, s, e);
  }

  lemma StepStable(cfg: Config, s: State, e: Event)
    requires WritersUncommitted(s)
    ensures RowsStable(s.tables, Step(cfg, s, e).tables)
  {
    match e.action {
      case OnCompletion(a) => CompletionStable(cfg, s, a, e.now);
      case OnRetention(a) => RetentionStable(s, a, e.now);
      case OnBlobs(a) => BlobsStable(cfg, s, a, e.now);
      case _ => RequestsStable(cfg, s, e);
    }
  }

  /** The version exists in every state of the run. */
  ghost predicate Lasts(cfg: Config, s: State, es: seq<Event>, v: Id)
    decreases |es|
  {
    v in Run(cfg, s, es).tables.versions && (es != [] ==> Lasts(cfg, s, es[..|es| - 1], v))
  }

  /** As long as a file version exists, the bytes behind it never change. */
  lemma {:induction false} VersionBytesNeverChange(cfg: Config, s: State, es: seq<Event>, v: Id)
    requires BlobInv(s) && AllowedRun(cfg, s, es) && Lasts(cfg, s, es, v)
    ensures BlobInv(Run(cfg, s, es)) && v in s.tables.versions
    ensures var s' := Run(cfg, s, es);
            s'.blobFiles[s'.tables.versions[v].blob] == s.blobFiles[s.tables.versions[v].blob]
    decreases |es|
  {
    RunKeepsBlobs(cfg, s, es);
    if es != [] {
      var m := Run(cfg, s, es[..|es| - 1]);
      VersionBytesNeverChange(cfg, s, es[..|es| - 1], v);
      assert WritersUncommitted(m) by {
        forall u | u in m.writing ensures m.writing[u].session.blob !in m.tables.blobs { assert InFlightOk(m, u); }
      }
      StepStable(cfg, m, es[|es| - 1]);
    }
  }

  /** What a stored completion leaves behind is what it assembled. */
  lemma CommittedBytes(s: State, u: Id, now: Time)
    requires BlobInv(s) && u in s.writing && StoredRows(CommitTx(s.tables, s.writing[u], now))
    ensures var s', w := BlobCommitted(s, u, now), s.writing[u];
            && w.session.version in s'.tables.versions && s'.tables.versions[w.session.version].blob == w.session.blob
            && w.session.blob in s'.blobFiles && s'.blobFiles[w.session.blob] == w.content
  {
    CommitEffect(s, u, now);
    assert InFlightOk(s, u);
  }

  // ---------------------------------------------------------------- the grace period

  /** A marked blob is committed and unreferenced, and stays so until it is swept. */
  ghost predicate MarksOk(t: Tables) {
    forall b :: b in t.blobMarks ==> b in t.blobs && Unreferenced(t.versions, b)
  }

  /** The mark of b after a step is the old one, or was set by this marking pass. */
  ghost predicate MarkKept(t: Tables, t': Tables, e: Event, b: Id) {
    b in t'.blobMarks ==>
      (b in t.blobMarks && t'.blobMarks[b] == t.blobMarks[b])
      || (e.action == OnBlobs(MarkUnreferenced) && t'.blobMarks[b] == e.now)
  }

  lemma CommitMarks(s: State, u: Id, now: Time)
    requires MarksOk(s.tables) && BlobInv(s) && u in s.writing
    ensures MarksOk(BlobCommitted(s, u, now).tables) && BlobCommitted(s, u, now).tables.blobMarks == s.tables.blobMarks
  {
    CommitEffect(s, u, now);
    assert InFlightOk(s, u);
  }

  lemma CollectionMarks(cfg: Config, s: State, a: BlobAction, now: Time, b: Id)
    requires MarksOk(s.tables)
    ensures MarksOk(ApplyCollection(cfg, s, a, now).tables)
    ensures MarkKept(s.tables, ApplyCollection(cfg, s, a, now).tables, Event(now, OnBlobs(a)), b)
  {
    match a {
      case MarkUnreferenced =>
      case SweepRow(x) =>
      case _ =>
    }
  }

  /** Requests other than a commit, and account changes, leave blobs and marks alone. */
  lemma RequestsLeaveBlobs(cfg: Config, s: State, e: Event)
    requires !e.action.OnCompletion? && !e.action.OnRetention? && !e.action.OnBlobs?
    ensures var t, t' := s.tables, Apply(cfg, s, e.action, e.now).tables;
            && t'.blobs == t.blobs && t'.blobMarks == t.blobMarks
            && forall v :: v in t'.versions ==> v in t.versions && t'.versions[v].blob == t.versions[v].blob
  {
    match e.action {
      case OnNodes(a) => NodesFrame(s.tables, a, e.now); NodesShrink(s.tables, a, e.now);
      case OnShares(a) =>
      case OnSessions(a) =>
      case ChangeAccounts(users, devices) =>
      case Crash =>
    }
  }

  lemma RetentionMarks(s: State, a: RetentionAction, now: Time)
    requires MarksOk(s.tables)
    ensures var t' := ApplyRetention(s, a, now).tables;
            MarksOk(t') && t'.blobMarks == s.tables.blobMarks && t'.blobs == s.tables.blobs
  {
    RetentionShrinks(s, a, now);
  }

  lemma StepMarks(cfg: Config, s: State, e: Event, b: Id)
    requires MarksOk(s.tables) && BlobInv(s)
    ensures MarksOk(Step(cfg, s, e).tables) && MarkKept(s.tables, Step(cfg, s, e).tables, e, b)
  {
    if e.action.OnCompletion? {
      if e.action.completion.CommitBlob? && e.action.completion.session in s.writing {
        CommitMarks(s, e.action.completion.session, e.now);
      }
    } else if e.action.OnRetention? {
      RetentionMarks(s, e.action.retention, e.now);
    } else if e.action.OnBlobs? {
      CollectionMarks(cfg, s, e.action.collection, e.now, b);
    } else {
      RequestsLeaveBlobs(cfg, s, e);
    }
  }

  /** Since the i-th event marked it at time m, the blob has been committed and unreferenced. */
  ghost predicate UnreferencedSince(cfg: Config, s: State, es: seq<Event>, b: Id, i: nat, m: Time) {
    && i < |es| && es[i] == Event(m, OnBlobs(MarkUnreferenced))
    && forall j {:trigger Run(cfg, s, es[..j])} :: i < j <= |es| ==>
         b in Run(cfg, s, es[..j]).tables.blobs && Unreferenced(Run(cfg, s, es[..j]).tables.versions, b)
  }

  /** Where the mark of a blob comes from. */
  lemma {:induction false} MarkedSince(cfg: Config, s: State, es: seq<Event>, b: Id) returns (i: nat)
    requires BlobInv(s) && MarksOk(s.tables) && b !in s.tables.blobMarks
    requires AllowedRun(cfg, s, es) && b in Run(cfg, s, es).tables.blobMarks
    ensures UnreferencedSince(cfg, s, es, b, i, Run(cfg, s, es).tables.blobMarks[b])
    decreases |es|
  {
    var n := |es| - 1;
    var before := es[..n];
    var m := Run(cfg, s, before);
    RunKeepsBlobs(cfg, s, before);
    RunMarks(cfg, s, before);
    StepMarks(cfg, m, es[n], b);
    var mark := Run(cfg, s, es).tables.blobMarks[b];
    if b in m.tables.blobMarks && mark == m.tables.blobMarks[b] {
      i := MarkedSince(cfg, s, before, b);
    } else {
      i := n;
    }
    forall j | i < j <= |es|
      ensures b in Run(cfg, s, es[..j]).tables.blobs && Unreferenced(Run(cfg, s, es[..j]).tables.versions, b)
    {
      if j == |es| { assert es[..j] == es; } else { assert es[..j] == before[..j]; }
    }
  }

  lemma {:induction false} RunMarks(cfg: Config, s: State, es: seq<Event>)
    requires BlobInv(s) && MarksOk(s.tables) && AllowedRun(cfg, s, es)
    ensures MarksOk(Run(cfg, s, es).tables)
    decreases |es|
  {
    if es != [] {
      RunMarks(cfg, s, es[..|es| - 1]);
      RunKeepsBlobs(cfg, s, es[..|es| - 1]);
      StepMarks(cfg, Run(cfg, s, es[..|es| - 1]), es[|es| - 1], 0);
    }
  }

  /** A blob row goes only after the blob was seen unreferenced at least the grace period ago and
      in every state since. */
  lemma RowGoesOnlyAfterGrace(cfg: Config, s: State, es: seq<Event>, e: Event, b: Id) returns (i: nat)
    requires BlobInv(s) && MarksOk(s.tables) && b !in s.tables.blobMarks && AllowedRun(cfg, s, es)
    requires b in Run(cfg, s, es).tables.blobs && b !in Step(cfg, Run(cfg, s, es), e).tables.blobs
    ensures i < |es| && es[i].now <= e.now - cfg.grace && UnreferencedSince(cfg, s, es, b, i, es[i].now)
  {
    RunKeepsBlobs(cfg, s, es);
    OnlySweepRemoves(cfg, Run(cfg, s, es), e, b);
    i := MarkedSince(cfg, s, es, b);
  }

  lemma OnlySweepRemoves(cfg: Config, s: State, e: Event, b: Id)
    requires BlobInv(s) && b in s.tables.blobs && b !in Step(cfg, s, e).tables.blobs
    ensures b in EligibleBlobs(s.tables, e.now, cfg.grace)
  {
    if e.action.OnCompletion? {
      if e.action.completion.CommitBlob? && e.action.completion.session in s.writing {
        CommitEffect(s, e.action.completion.session, e.now);
      }
    } else if e.action.OnRetention? {
      RetentionShrinks(s, e.action.retention, e.now);
    } else if e.action.OnBlobs? {
      SweepOnlyEligible(cfg, s, e.action.collection, e.now, b);
    } else {
      RequestsLeaveBlobs(cfg, s, e);
    }
  }

  lemma SweepOnlyEligible(cfg: Config, s: State, a: BlobAction, now: Time, b: Id)
    requires b in s.tables.blobs && b !in ApplyCollection(cfg, s, a, now).tables.blobs
    ensures b in EligibleBlobs(s.tables, now, cfg.grace)
  {
    match a {
      case SweepRow(x) =>
      case _ =>
    }
  }

  // ---------------------------------------------------------------- why the assumptions are there

  /** The bytes of a committed blob are gone. */
  predicate Lost(s: State, b: Id) {
    b in s.tables.blobs && b !in s.blobFiles
  }

  /** A completion other than u works on the blob, or a collector is about to remove its file. */
  ghost predicate FileAtRisk(s: State, u: Id, b: Id) {
    b in s.sweeping || b in s.condemned || exists v :: v in s.writing && v != u && s.writing[v].session.blob == b
  }

  /** The blob is committed in every state of the run. */
  ghost predicate RowStays(cfg: Config, s: State, es: seq<Event>, b: Id)
    decreases |es|
  {
    b in Run(cfg, s, es).tables.blobs && (es != [] ==> RowStays(cfg, s, es[..|es| - 1], b))
  }

  /** Row and file are there and nothing in flight touches the blob. */
  ghost predicate Settled(s: State, b: Id) {
    && b in s.tables.blobs && b in s.blobFiles && b !in s.sweeping && b !in s.condemned
    && forall v :: v in s.writing ==> s.writing[v].session.blob != b
  }

  lemma CompletionStaysSettled(cfg: Config, s: State, a: CompletionAction, now: Time, b: Id)
    requires Settled(s, b) && b in ApplyCompletion(cfg, s, a, now).tables.blobs
    ensures Settled(ApplyCompletion(cfg, s, a, now), b)
  {
    match a {
      case WriteBlobFile(c) =>
      case CommitBlob(u) => if u in s.writing { CommitEffect(s, u, now); }
    }
  }

  lemma CollectionStaysSettled(cfg: Config, s: State, a: BlobAction, now: Time, b: Id)
    requires Settled(s, b) && b in ApplyCollection(cfg, s, a, now).tables.blobs
    ensures Settled(ApplyCollection(cfg, s, a, now), b)
  {
    CollectionEffect(cfg, s, a, now);
  }

  lemma RetentionStaysSettled(s: State, a: RetentionAction, now: Time, b: Id)
    requires Settled(s, b)
    ensures Settled(ApplyRetention(s, a, now), b)
  {
    RetentionShrinks(s, a, now);
    RetentionTouchesNoBlob(s, a, now);
  }

  lemma RetentionTouchesNoBlob(s: State, a: RetentionAction, now: Time)
    ensures var s' := ApplyRetention(s, a, now);
            && s'.blobFiles == s.blobFiles && s'.sweeping == s.sweeping && s'.condemned == s.condemned
            && s'.writing == s.writing
  {
  }

  lemma NodesKeepBlobRows(t: Tables, a: NodeAction, now: Time)
    ensures NodeTables(t, a, now).blobs == t.blobs
  {
    NodesShrink(t, a, now);
  }

  /** What is settled can only change by losing its row. */
  lemma StepStaysSettled(cfg: Config, s: State, e: Event, b: Id)
    requires Settled(s, b) && b in Step(cfg, s, e).tables.blobs
    ensures Settled(Step(cfg, s, e), b)
  {
    match e.action {
      case OnNodes(a) => NodesKeepBlobRows(s.tables, a, e.now);
      case OnCompletion(a) => CompletionStaysSettled(cfg, s, a, e.now, b);
      case OnRetention(a) => RetentionStaysSettled(s, a, e.now, b);
      case OnBlobs(a) => CollectionStaysSettled(cfg, s, a, e.now, b);
      case _ =>
    }
  }

  lemma {:induction false} RunStaysSettled(cfg: Config, s: State, es: seq<Event>, b: Id)
    requires Settled(s, b) && RowStays(cfg, s, es, b)
    ensures Settled(Run(cfg, s, es), b)
    decreases |es|
  {
    if es != [] {
      RunStaysSettled(cfg, s, es[..|es| - 1], b);
      StepStaysSettled(cfg, Run(cfg, s, es[..|es| - 1]), es[|es| - 1], b);
    }
  }

  /** If a completion in flight ever finds its blob committed by another session, it removes the
      committed file. */
  lemma LateCommitRemovesFile(s: State, u: Id, now: Time)
    requires u in s.writing && s.writing[u].session.blob in s.tables.blobs
    ensures var s', b := BlobCommitted(s, u, now), s.writing[u].session.blob;
            b in s'.tables.blobs && b !in s'.blobFiles
  {
  }

  lemma OrphanRemoved(cfg: Config, s: State, b: Id, now: Time)
    requires b in s.tables.blobs && b in s.condemned
    ensures Lost(Step(cfg, s, Event(now, OnBlobs(RemoveOrphan(b)))), b)
  {
  }

  lemma SweptFileRemoved(cfg: Config, s: State, b: Id, now: Time)
    requires b in s.tables.blobs && b in s.sweeping
    ensures Lost(Step(cfg, s, Event(now, OnBlobs(SweepFile(b)))), b)
  {
  }

  /** A blob at risk is lost by one pending operation, and its row is still there. */
  lemma RiskLosesFile(cfg: Config, s: State, u: Id, b: Id, now: Time) returns (e: Event)
    requires b in s.tables.blobs && u !in s.writing && FileAtRisk(s, u, b)
    ensures Lost(Step(cfg, s, e), b)
  {
    if b in s.sweeping {
      e := Event(now, OnBlobs(SweepFile(b)));
      SweptFileRemoved(cfg, s, b, now);
    } else if b in s.condemned {
      e := Event(now, OnBlobs(RemoveOrphan(b)));
      OrphanRemoved(cfg, s, b, now);
    } else {
      var v :| v in s.writing && v != u && s.writing[v].session.blob == b;
      e := Event(now, OnCompletion(CommitBlob(v)));
      LateCommitRemovesFile(s, v, now);
    }
  }

  lemma CommitLeavesRisk(s: State, u: Id, b: Id, now: Time)
    requires u in s.writing && FileAtRisk(s, u, b)
    ensures FileAtRisk(BlobCommitted(s, u, now), u, b)
  {
    CommitEffect(s, u, now);
    if b !in s.sweeping && b !in s.condemned {
      var v :| v in s.writing && v != u && s.writing[v].session.blob == b;
      assert v in BlobCommitted(s, u, now).writing;
    }
  }

  lemma OneEvent(cfg: Config, s: State, e: Event, b: Id)
    requires b in s.tables.blobs && b in Step(cfg, s, e).tables.blobs
    ensures Run(cfg, s, [e]) == Step(cfg, s, e) && RowStays(cfg, s, [e], b)
  {
    assert [e][..0] == [];
    assert RowStays(cfg, s, [], b);
  }

  /** A completion that has just stored its rows is safe for good, in every run whatever it
      assumes, exactly when no other completion and no collector had the blob in hand: as long as
      the row is there the file is. */
  lemma CommitSafeExactly(cfg: Config, s: State, u: Id, now: Time)
    requires u in s.writing && StoredRows(CommitTx(s.tables, s.writing[u], now))
             && s.writing[u].session.blob in s.blobFiles
    ensures var b, s1 := s.writing[u].session.blob, BlobCommitted(s, u, now);
            (forall es :: RowStays(cfg, s1, es, b) ==> !Lost(Run(cfg, s1, es), b)) <==> !FileAtRisk(s, u, b)
  {
    var b, s1 := s.writing[u].session.blob, BlobCommitted(s, u, now);
    CommitEffect(s, u, now);
    if FileAtRisk(s, u, b) {
      CommitLeavesRisk(s, u, b, now);
      var e := RiskLosesFile(cfg, s1, u, b, now);
      OneEvent(cfg, s1, e, b);
    } else {
      forall es | RowStays(cfg, s1, es, b) ensures !Lost(Run(cfg, s1, es), b) { RunStaysSettled(cfg, s1, es, b); }
    }
  }

  lemma StoredThenCondemned(cfg: Config, s: State, u: Id, b: Id, now: Time, later: Time)
    requires u in s.writing && s.writing[u].session.blob == b && StoredRows(CommitTx(s.tables, s.writing[u], now))
             && b in s.condemned
    ensures Lost(Step(cfg, Step(cfg, s, Event(now, OnCompletion(CommitBlob(u)))),
                      Event(later, OnBlobs(RemoveOrphan(b)))), b)
  {
    CommitEffect(s, u, now);
    OrphanRemoved(cfg, Step(cfg, s, Event(now, OnCompletion(CommitBlob(u)))), b, later);
  }

  lemma StoredThenSwept(cfg: Config, s: State, u: Id, b: Id, now: Time, later: Time)
    requires u in s.writing && s.writing[u].session.blob == b && StoredRows(CommitTx(s.tables, s.writing[u], now))
             && b in s.sweeping
    ensures Lost(Step(cfg, Step(cfg, s, Event(now, OnCompletion(CommitBlob(u)))),
                      Event(later, OnBlobs(SweepFile(b)))), b)
  {
    CommitEffect(s, u, now);
    SweptFileRemoved(cfg, Step(cfg, s, Event(now, OnCompletion(CommitBlob(u)))), b, later);
  }

  /** Condemning a due file on which a completion works loses the file once its rows are stored. */
  lemma CondemnedWhileWriting(cfg: Config, s: State, u: Id, b: Id, t1: Time, t2: Time, t3: Time)
    requires u in s.writing && s.writing[u].session.blob == b && b !in s.tables.blobs
    requires b in DueOrphans(s.tables.orphanMarks, t1, cfg.grace)
    requires StoredRows(CommitTx(s.tables, s.writing[u], t2))
    ensures Lost(Step(cfg,
                      Step(cfg, Step(cfg, s, Event(t1, OnBlobs(CheckOrphan(b)))),
                           Event(t2, OnCompletion(CommitBlob(u)))),
                      Event(t3, OnBlobs(RemoveOrphan(b)))), b)
  {
    var s1 := Step(cfg, s, Event(t1, OnBlobs(CheckOrphan(b))));
    assert s1.tables == s.tables && s1.writing == s.writing && b in s1.condemned;
    StoredThenCondemned(cfg, s1, u, b, t2, t3);
  }

  /** So does writing the file of a blob that is condemned already. */
  lemma WrittenWhileCondemned(cfg: Config, s: State, c: CompleteInput, t1: Time, t2: Time, t3: Time)
    requires var s1 := BlobWritten(cfg, s, c, t1);
             && c.upload in s1.writing && s1.writing[c.upload].session.blob in s.condemned
             && StoredRows(CommitTx(s.tables, s1.writing[c.upload], t2))
    ensures var s1 := Step(cfg, s, Event(t1, OnCompletion(WriteBlobFile(c))));
            var b := s1.writing[c.upload].session.blob;
            Lost(Step(cfg, Step(cfg, s1, Event(t2, OnCompletion(CommitBlob(c.upload)))),
                      Event(t3, OnBlobs(RemoveOrphan(b)))), b)
  {
    var s1 := Step(cfg, s, Event(t1, OnCompletion(WriteBlobFile(c))));
    StoredThenCondemned(cfg, s1, c.upload, s1.writing[c.upload].session.blob, t2, t3);
  }

  lemma {:induction false} SweepPending(cfg: Config, s: State, es: seq<Event>, b: Id)
    requires b in s.sweeping && forall e :: e in es ==> e.action != Crash && e.action != OnBlobs(SweepFile(b))
    ensures b in Run(cfg, s, es).sweeping
    decreases |es|
  {
    if es != [] {
      assert es[|es| - 1] in es;
      SweepPending(cfg, s, es[..|es| - 1], b);
      SweepPendingStep(cfg, Run(cfg, s, es[..|es| - 1]), es[|es| - 1], b);
    }
  }

  lemma SweepPendingStep(cfg: Config, s: State, e: Event, b: Id)
    requires b in s.sweeping && e.action != Crash && e.action != OnBlobs(SweepFile(b))
    ensures b in Step(cfg, s, e).sweeping
  {
    match e.action {
      case OnCompletion(CommitBlob(v)) => if v in s.writing { CommitEffect(s, v, e.now); }
      case _ =>
    }
  }

  /** Reserving a blob whose row is swept but whose file is not yet removed: whatever happens
      before the new upload stores its rows, the pending removal then takes their file. */
  lemma ReservedWhileSwept(cfg: Config, s: State, input: UploadInput, uid: Id, t1: Time, es: seq<Event>, m: State,
        t2: Time, t3: Time)
    requires ReserveTx(s.tables, input, uid, t1, cfg.limit, cfg.lifetime).Ok? && input.blob in s.sweeping
    requires m == Run(cfg, Step(cfg, s, Event(t1, OnSessions(OpenUpload(input, uid)))), es)
    requires forall e :: e in es ==> e.action != Crash && e.action != OnBlobs(SweepFile(input.blob))
    requires uid in m.writing && m.writing[uid].session.blob == input.blob
             && StoredRows(CommitTx(m.tables, m.writing[uid], t2))
    ensures Lost(Step(cfg, Step(cfg, m, Event(t2, OnCompletion(CommitBlob(uid)))),
                      Event(t3, OnBlobs(SweepFile(input.blob)))), input.blob)
  {
    SweepPending(cfg, Step(cfg, s, Event(t1, OnSessions(OpenUpload(input, uid)))), es, input.blob);
    StoredThenSwept(cfg, m, uid, input.blob, t2, t3);
  }
}
