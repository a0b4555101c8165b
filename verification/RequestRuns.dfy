/** A request whose statements and file operations nothing interrupts is a run of the state machine's
    actions, so what is proved about every run covers it. */
module RequestRuns {
  import opened Common
  import opened Schema
  import opened Nodes
  import opened Sharing
  import opened Trash
  import opened Uploads
  import opened UploadRules
  import opened Collector
  import opened CollectorRules
  import opened Server
  import BlobPass

  // ---------------------------------------------------------------- one transaction

  /** A node request served by its method is the machine's action. */
  method ServeNodes(db: Database, a: NodeAction, now: Time)
    modifies db
    ensures db.tables == NodeTables(old(db.tables), a, now)
  {
    match a {
      case CreateNode(c) => var _ := Create(db, c, now);
      case UpdateNode(u) => var _ := Update(db, u, now);
      case DeleteNode(q, expected) => var _ := Delete(db, q, expected, now);
      case RestoreNode(q) => var _ := Restore(db, q, now);
      case RekeyNodes(k) => var _ := Rekey(db, k, now);
    }
  }

  method ServeShares(db: Database, a: SharingAction, now: Time)
    modifies db
    ensures db.tables == SharingTables(old(db.tables), a, now)
  {
    match a {
      case AddFolderKey(f) => var _ := CreateFolderKey(db, f);
      case Grant(g, sid) => var _ := CreateGrant(db, g, sid, now);
      case Deliver(owner, device, sid, es) => var _ := AddEnvelopes(db, owner, device, sid, es);
      case RevokeShare(owner, device, sid) => var _ := Revoke(db, owner, device, sid, now);
    }
  }

  /** Pruning keeps exactly the current, and of the others the recent enough versions. */
  lemma PruneStep(cfg: Config, s: State, now: Time, maxVersions: nat, cutoff: Time)
    ensures var t, t' := s.tables, Step(cfg, s, Event(now, OnRetention(Prune(maxVersions, cutoff)))).tables;
            && t' == t.(versions := t'.versions)
            && (forall v :: v in t'.versions <==>
                  && v in t.versions
                  && (Older(t.nodes, t.versions, v) ==>
                        |AheadOf(t.nodes, t.versions, v)| + 1 < maxVersions && t.versions[v].createdAt >= cutoff))
            && (forall v :: v in t'.versions ==> t'.versions[v] == t.versions[v])
  {
    PruneExactly(s.tables.nodes, s.tables.versions, maxVersions, cutoff);
  }

  /** Operation records go when their time has come, and an own Trash entry is purged as one that
      expired at its own deletion. */
  lemma RetentionSteps(cfg: Config, s: State, now: Time, owner: Id, id: Id, order: seq<Id>)
    ensures var t, t' := s.tables, Step(cfg, s, Event(now, OnRetention(ForgetOperations))).tables;
            && t' == t.(processed := t'.processed)
            && (forall op :: op in t'.processed <==> op in t.processed && now < t.processed[op].expiresAt)
            && (forall op :: op in t'.processed ==> t'.processed[op] == t.processed[op])
    ensures Step(cfg, s, Event(now, OnRetention(PurgeOwn(owner, id, order))))
         == if id in s.tables.nodes && s.tables.nodes[id].owner == owner && s.tables.nodes[id].deletedAt.Some?
            then Step(cfg, s, Event(now, OnRetention(PurgeTrash(id, s.tables.nodes[id].deletedAt.value, order))))
            else s.(clock := now)
  {
    OperationsExpireExactly(s.tables, now);
  }

  /** Accounts change freely and nothing else with them; a crash loses what was in flight and only that. */
  lemma EnvironmentSteps(cfg: Config, s: State, now: Time, users: set<Id>, devices: map<Id, Schema.Device>)
    ensures var s' := Step(cfg, s, Event(now, ChangeAccounts(users, devices)));
            && s'.tables.users == users && s'.tables.devices == devices
            && s' == s.(tables := s.tables.(users := users, devices := devices), clock := now)
    ensures var s' := Step(cfg, s, Event(now, Crash));
            && s'.writing == map[] && s'.sweeping == {} && s'.condemned == {}
            && s'.tables == s.tables && s'.blobFiles == s.blobFiles && s'.tempFiles == s.tempFiles
  {
  }

  // ---------------------------------------------------------------- several actions

  lemma OneStep(cfg: Config, s: State, a: Event)
    ensures Run(cfg, s, [a]) == Step(cfg, s, a)
  {
    assert [a][..0] == [];
  }

  lemma Steps(cfg: Config, s: State, a: Event, b: Event)
    ensures Run(cfg, s, [a, b]) == Step(cfg, Step(cfg, s, a), b)
  {
    assert [] + [a, b] == [a, b];
    BlobPass.TwoSteps(cfg, s, [], a, b);
  }

  /** A stored chunk appears in rows and files, a repeated or refused one changes nothing. */
  lemma ChunkIsRun(cfg: Config, s: State, p: ChunkInput, now: Time)
    ensures var t, k := s.tables, (p.upload, p.no);
            Run(cfg, s, [Event(now, OnSessions(RecordChunk(p)))])
              == if MayStoreChunk(t, p, now) && k !in t.chunks
                 then s.(tables := t.(chunks := t.chunks[k := Chunk(|p.content|, Digest(p.content))]),
                         tempFiles := s.tempFiles[k := p.content], clock := now)
                 else s.(clock := now)
  {
    OneStep(cfg, s, Event(now, OnSessions(RecordChunk(p))));
    ChunkDecides(s.tables, s.tempFiles, p, now);
  }

  /** A chunk request that is cut off leaves its file without a row; sent again it replaces the file. */
  lemma CutOffChunkIsRun(cfg: Config, s: State, p: ChunkInput, now: Time)
    ensures Run(cfg, s, [Event(now, OnSessions(StoreChunkFile(p)))])
         == if MayStoreChunk(s.tables, p, now) && (p.upload, p.no) !in s.tables.chunks
            then s.(tempFiles := s.tempFiles[(p.upload, p.no) := p.content], clock := now)
            else s.(clock := now)
  {
    OneStep(cfg, s, Event(now, OnSessions(StoreChunkFile(p))));
  }

  /** An abort closes the upload and empties its directory, and no other. */
  lemma AbortIsRun(cfg: Config, s: State, user: Id, device: Id, u: Id, now: Time)
    requires HoldsUpload(s.tables, user, device, u) && s.tables.sessions[u].status == Open
    ensures var t, s' := s.tables, Run(cfg, s, [Event(now, OnSessions(AbortUpload(user, device, u))),
                                                Event(now, OnSessions(RemoveUploadFiles(u)))]);
            && s' == s.(tables := t.(sessions := t.sessions[u := t.sessions[u].(status := Aborted)]),
                        tempFiles := s'.tempFiles, clock := now)
            && DirectoryEmptied(s.tempFiles, s'.tempFiles, u)
  {
    Steps(cfg, s, Event(now, OnSessions(AbortUpload(user, device, u))), Event(now, OnSessions(RemoveUploadFiles(u))));
    AbortDecides(s.tables, user, device, u);
  }

  ghost predicate DirectoryEmptied(files: map<(Id, nat), Bytes>, files': map<(Id, nat), Bytes>, u: Id) {
    && (forall k :: k in files' <==> k in files && k.0 != u)
    && (forall k :: k in files' ==> files'[k] == files[k])
  }

  /** The cleanup of one expired upload removes its row, its chunk rows and its directory. */
  lemma CleanupIsRun(cfg: Config, s: State, u: Id, now: Time)
    requires u in s.tables.sessions && s.tables.sessions[u].expiresAt <= now
    requires s.tables.sessions[u].status != Completed
    ensures var t, s' := s.tables, Run(cfg, s, [Event(now, OnSessions(ExpireUpload(u))),
                                                Event(now, OnSessions(RemoveUploadFiles(u))),
                                                Event(now, OnSessions(DropUpload(u)))]);
            && s' == s.(tables := t.(sessions := t.sessions - {u}, chunks := s'.tables.chunks),
                        tempFiles := s'.tempFiles, clock := now)
            && DirectoryEmptied(s.tempFiles, s'.tempFiles, u)
            && (forall k :: k in s'.tables.chunks <==> k in t.chunks && k.0 != u)
            && (forall k :: k in s'.tables.chunks ==> s'.tables.chunks[k] == t.chunks[k])
  {
    var a, b, c := Event(now, OnSessions(ExpireUpload(u))), Event(now, OnSessions(RemoveUploadFiles(u))),
    Event(now, OnSessions(DropUpload(u)));
    OneStep(cfg, s, a);
    assert [a] + [b, c] == [a, b, c];
    BlobPass.TwoSteps(cfg, s, [a], b, c);
    ClosedThenDropped(cfg, s, u, now);
  }

  lemma ClosedThenDropped(cfg: Config, s: State, u: Id, now: Time)
    requires u in s.tables.sessions && s.tables.sessions[u].expiresAt <= now
    requires s.tables.sessions[u].status != Completed
    ensures var t := s.tables;
            var s2 := Step(cfg, Step(cfg, s, Event(now, OnSessions(ExpireUpload(u)))),
                           Event(now, OnSessions(RemoveUploadFiles(u))));
            Step(cfg, s2, Event(now, OnSessions(DropUpload(u))))
              == s.(tables := t.(sessions := t.sessions - {u}, chunks := ChunksKept(t.chunks, {u})),
                    tempFiles := WithoutDirectory(s.tempFiles, u), clock := now)
  {
    var t, closed := s.tables, s.tables.sessions[u].(status := Expired);
    var s1 := Step(cfg, s, Event(now, OnSessions(ExpireUpload(u))));
    assert s1 == s.(tables := t.(sessions := t.sessions[u := closed]), clock := now);
    var s2 := Step(cfg, s1, Event(now, OnSessions(RemoveUploadFiles(u))));
    assert s2 == s1.(tempFiles := WithoutDirectory(s.tempFiles, u));
    assert t.sessions[u := closed] - {u} == t.sessions - {u};
  }

  /** A purge removes the directories of the uploads to the purged files, and then exactly the rows
      of the purged nodes. */
  lemma PurgeIsRun(cfg: Config, s: State, id: Id, cutoff: Time, order: seq<Id>, now: Time)
    requires Enumerates(order, TrashSubtree(s.tables.nodes, id, cutoff))
    ensures var s', gone := Run(cfg, s, [Event(now, OnRetention(DiscardPurgedFiles(id, cutoff))),
                                         Event(now, OnRetention(PurgeTrash(id, cutoff, order)))]),
            TrashSubtree(s.tables.nodes, id, cutoff);
            && s' == s.(tables := s'.tables, tempFiles := s'.tempFiles, clock := now)
            && EntryPurged(s.tables, s'.tables, s.tempFiles, s'.tempFiles, gone, order, now, true)
  {
    var gone := TrashSubtree(s.tables.nodes, id, cutoff);
    Steps(cfg, s, Event(now, OnRetention(DiscardPurgedFiles(id, cutoff))),
          Event(now, OnRetention(PurgeTrash(id, cutoff, order))));
    assert forall x :: x in order ==> x in gone;
    DiscardedThenPurged(cfg, s, id, cutoff, order, now);
    PurgedRows(s.tables, gone, order, now);
    KeptUploads(s.tables, s.tempFiles, gone);
  }

  lemma DiscardedThenPurged(cfg: Config, s: State, id: Id, cutoff: Time, order: seq<Id>, now: Time)
    requires Enumerates(order, TrashSubtree(s.tables.nodes, id, cutoff))
    requires forall x :: x in order ==> x in s.tables.nodes
    ensures var gone := TrashSubtree(s.tables.nodes, id, cutoff);
            Step(cfg, Step(cfg, s, Event(now, OnRetention(DiscardPurgedFiles(id, cutoff)))),
                 Event(now, OnRetention(PurgeTrash(id, cutoff, order))))
              == s.(tables := PurgedTables(s.tables, gone, order, now), clock := now,
                    tempFiles := WithoutDirectories(s.tempFiles, DoomedUploads(s.tables.sessions, gone)))
  {
  }

  /** A completion that may begin and whose chunk files are there writes the blob file, and stores
      its rows exactly if the commit is accepted; otherwise it leaves no file and no row. */
  lemma CompletionIsRun(cfg: Config, s: State, c: CompleteInput, now: Time)
    requires MayBegin(s.tables, c, now, cfg.limit) && c.upload !in s.writing
    requires s.tables.sessions[c.upload].blob !in s.tables.blobs
    requires Assembled(s.tables.chunks, s.tempFiles, c.upload, s.tables.sessions[c.upload].chunkCount).Ok?
    ensures var t, u := s.tables, s.tables.sessions[c.upload];
            var content := Assembled(t.chunks, s.tempFiles, c.upload, u.chunkCount).value;
            var w := Written(c, u, content, RecordedBytes(t.chunks, c.upload, u.chunkCount));
            var s' := Run(cfg, s, [Event(now, OnCompletion(WriteBlobFile(c))),
                                   Event(now, OnCompletion(CommitBlob(c.upload)))]);
            && s' == s.(tables := s'.tables, blobFiles := s'.blobFiles, clock := now)
            && if MayCommit(t, w)
               then CommittedRows(t, s'.tables, w, now) && s'.blobFiles == s.blobFiles[u.blob := content]
               else s'.tables == t && s'.blobFiles == s.blobFiles - {u.blob}
  {
    var t, u := s.tables, s.tables.sessions[c.upload];
    var content := Assembled(t.chunks, s.tempFiles, c.upload, u.chunkCount).value;
    var w := Written(c, u, content, RecordedBytes(t.chunks, c.upload, u.chunkCount));
    Steps(cfg, s, Event(now, OnCompletion(WriteBlobFile(c))), Event(now, OnCompletion(CommitBlob(c.upload))));
    ReadyDecides(t, c, now, cfg.limit);
    CommitFollows(cfg, s, w, now);
    CommitAccepted(t, w, now);
    if MayCommit(t, w) { CommitEffect(t, w, now); }
  }

  lemma CommitFollows(cfg: Config, s: State, w: Written, now: Time)
    requires w.request.upload !in s.writing && w.request.operation !in s.tables.processed
    ensures var u, b, tx := w.request.upload, w.session.blob, CommitTx(s.tables, w, now);
            var m := s.(blobFiles := s.blobFiles[b := w.content], writing := s.writing[u := w], clock := now);
            Step(cfg, m, Event(now, OnCompletion(CommitBlob(u))))
              == s.(tables := After(s.tables, tx), clock := now,
                    blobFiles := if StoredRows(tx) then s.blobFiles[b := w.content] else s.blobFiles - {b})
  {
    assert s.writing[w.request.upload := w] - {w.request.upload} == s.writing;
    assert s.blobFiles[w.session.blob := w.content] - {w.session.blob} == s.blobFiles - {w.session.blob};
  }
}
