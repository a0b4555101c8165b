/** The whole server as one state machine: tables, storage directories, the file operations that
    are in flight, and one action for each transaction or file operation of the services. */
module Server {
  import opened Common
  import opened Schema
  import opened Nodes
  import opened Sharing
  import opened Trash
  import opened Uploads
  import opened Collector

  datatype Config = Config(limit: nat, lifetime: Time, grace: Time)

  /** `writing` holds completions between blob file and commit, `sweeping` blobs whose row is
      gone but whose file is not, `condemned` orphan files about to be removed. */
  datatype State = State(
    tables: Tables,
    blobFiles: map<Id, Bytes>,
    tempFiles: map<(Id, nat), Bytes>,
    writing: map<Id, Written>,
    sweeping: set<Id>,
    condemned: set<Id>,
    clock: Time)

  datatype NodeAction =
    | CreateNode(create: CreateInput)
    | UpdateNode(update: UpdateInput)
    | DeleteNode(delete: NodeRequest, expected: nat)
    | RestoreNode(restore: NodeRequest)
    | RekeyNodes(rekey: RekeyInput)

  datatype SharingAction =
    | AddFolderKey(key: FolderKeyInput)
    | Grant(grant: GrantInput, share: Id)
    | Deliver(owner: Id, device: Id, share: Id, envelopes: seq<DeviceEnvelope>)
    | RevokeShare(owner: Id, device: Id, share: Id)

  /** Uploads up to their completion, and the removal of those that can no longer complete. An
      upload is opened by its transaction alone, whatever state its checks were made in. */
  datatype SessionAction =
    | OpenUpload(upload: UploadInput, session: Id)
    | StoreChunkFile(chunk: ChunkInput)
    | RecordChunk(chunk: ChunkInput)
    | AbortUpload(user: Id, device: Id, session: Id)
    | ExpireUpload(session: Id)
    | RemoveUploadFiles(session: Id)
    | DropUpload(session: Id)

  datatype CompletionAction =
    | WriteBlobFile(complete: CompleteInput)
    | CommitBlob(session: Id)

  datatype RetentionAction =
    | DiscardPurgedFiles(entry: Id, cutoff: Time)
    | PurgeTrash(entry: Id, cutoff: Time, order: seq<Id>)
    | PurgeOwn(owner: Id, entry: Id, order: seq<Id>)
    | Prune(maxVersions: nat, cutoff: Time)
    | ForgetOperations

  datatype BlobAction =
    | MarkUnreferenced
    | SweepRow(blob: Id)
    | SweepFile(blob: Id)
    | ScanOrphans
    | CheckOrphan(blob: Id)
    | RemoveOrphan(blob: Id)

  datatype Action =
    | OnNodes(node: NodeAction)
    | OnShares(sharing: SharingAction)
    | OnSessions(session: SessionAction)
    | OnCompletion(completion: CompletionAction)
    | OnRetention(retention: RetentionAction)
    | OnBlobs(collection: BlobAction)
    | ChangeAccounts(users: set<Id>, devices: map<Id, Device>)
    | Crash

  datatype Event = Event(now: Time, action: Action)

  function NodeTables(t: Tables, a: NodeAction, now: Time): Tables {
    match a
    case CreateNode(c) => After(t, CreateTx(t, c, now))
    case UpdateNode(u) => After(t, UpdateTx(t, u, now))
    case DeleteNode(q, expected) => After(t, DeleteTx(t, q, expected, now))
    case RestoreNode(q) => After(t, RestoreTx(t, q, now))
    case RekeyNodes(k) => After(t, RekeyTx(t, k, now))
  }

  function SharingTables(t: Tables, a: SharingAction, now: Time): (t': Tables)
    ensures t' == t.(folderKeys := t'.folderKeys, shares := t'.shares, envelopes := t'.envelopes,
                     processed := t'.processed)
  {
    match a
    case AddFolderKey(f) => After(t, FolderKeyTx(t, f))
    case Grant(g, sid) => After(t, GrantTx(t, g, sid, now))
    case Deliver(owner, device, sid, es) => After(t, AddEnvelopesTx(t, owner, device, sid, es))
    case RevokeShare(owner, device, sid) => After(t, RevokeTx(t, owner, device, sid, now))
  }

  /** The session is gone or can no longer be completed. */
  predicate Closed(sessions: map<Id, Session>, u: Id) {
    u in sessions ==> sessions[u].status != Open
  }

  function ApplySession(cfg: Config, s: State, a: SessionAction, now: Time): (s': State)
    ensures s' == s.(tables := s.tables.(sessions := s'.tables.sessions, chunks := s'.tables.chunks),
                     tempFiles := s'.tempFiles)
  {
    var t := s.tables;
    match a
    case OpenUpload(u, uid) => s.(tables := After(t, ReserveTx(t, u, uid, now, cfg.limit, cfg.lifetime)))
    case StoreChunkFile(p) =>
      if ChunkAllowed(t, p, now).Pass? && (p.upload, p.no) !in t.chunks
      then s.(tempFiles := s.tempFiles[(p.upload, p.no) := p.content]) else s
    case RecordChunk(p) =>
      (match PutChunkStep(t, s.tempFiles, p, now)
       case Ok(c) => s.(tables := t.(chunks := c.rows), tempFiles := c.files)
       case Err(_) => s)
    case AbortUpload(user, device, u) => s.(tables := After(t, AbortTx(t, user, device, u)))
    case ExpireUpload(u) => s.(tables := ExpiredSession(t, u, now))
    case RemoveUploadFiles(u) =>
      if Closed(t.sessions, u) then s.(tempFiles := WithoutDirectory(s.tempFiles, u)) else s
    case DropUpload(u) =>
      if Closed(t.sessions, u) then s.(tables := DroppedSession(t, u)) else s
  }

  /** First half of a completion. */
  function BlobWritten(cfg: Config, s: State, c: CompleteInput, now: Time): State {
    var begun := Begin(s.tables, s.blobFiles, s.tempFiles, c, now, cfg.limit);
    s.(blobFiles := begun.files,
       writing := if begun.outcome.Ok? && begun.outcome.value.Some?
                  then s.writing[c.upload := begun.outcome.value.value] else s.writing)
  }

  /** Second half of a completion: the rows are stored, or the file is removed again. */
  function BlobCommitted(s: State, u: Id, now: Time): State
    requires u in s.writing
  {
    var w := s.writing[u];
    var tx := CommitTx(s.tables, w, now);
    if StoredRows(tx)
    then s.(tables := After(s.tables, tx), writing := s.writing - {u})
    else s.(tables := After(s.tables, tx), blobFiles := s.blobFiles - {w.session.blob}, writing := s.writing - {u})
  }

  function ApplyCompletion(cfg: Config, s: State, a: CompletionAction, now: Time): State {
    match a
    case WriteBlobFile(c) => BlobWritten(cfg, s, c, now)
    case CommitBlob(u) => if u in s.writing then BlobCommitted(s, u, now) else s
  }

  /** Uploads to the files that purging this entry would remove. */
  function PurgedUploads(t: Tables, id: Id, cutoff: Time): set<Id> {
    DoomedUploads(t.sessions, TrashSubtree(t.nodes, id, cutoff))
  }

  function TrashPurged(s: State, id: Id, cutoff: Time, order: seq<Id>, now: Time): (s': State)
    ensures s' == s.(tables := s'.tables) && s'.tables.processed == s.tables.processed
  {
    var t := s.tables;
    var gone := TrashSubtree(t.nodes, id, cutoff);
    if !Enumerates(order, gone) then s
    else
      assert forall x :: x in order ==> x in gone;
      s.(tables := PurgedTables(t, gone, order, now))
  }

  /** The entry is in its owner's Trash. */
  predicate OwnEntry(ns: map<Id, Node>, owner: Id, id: Id) {
    id in ns && ns[id].owner == owner && ns[id].deletedAt.Some?
  }

  function ApplyRetention(s: State, a: RetentionAction, now: Time): State {
    match a
    case DiscardPurgedFiles(id, cutoff) =>
      s.(tempFiles := WithoutDirectories(s.tempFiles, PurgedUploads(s.tables, id, cutoff)))
    case PurgeTrash(id, cutoff, order) => TrashPurged(s, id, cutoff, order, now)
    case PurgeOwn(owner, id, order) =>
      if OwnEntry(s.tables.nodes, owner, id) then TrashPurged(s, id, s.tables.nodes[id].deletedAt.value, order, now)
      else s
    case Prune(maxVersions, cutoff) =>
      s.(tables := s.tables.(versions := KeptVersions(s.tables.nodes, s.tables.versions, maxVersions, cutoff)))
    case ForgetOperations => s.(tables := ExpiredOperations(s.tables, now))
  }

  function ApplyCollection(cfg: Config, s: State, a: BlobAction, now: Time): (s': State)
    ensures s' == s.(tables := s.tables.(blobs := s'.tables.blobs, blobMarks := s'.tables.blobMarks,
                                         orphanMarks := s'.tables.orphanMarks),
                     blobFiles := s'.blobFiles, sweeping := s'.sweeping, condemned := s'.condemned)
  {
    var t := s.tables;
    match a
    case MarkUnreferenced => s.(tables := MarkedBlobs(t, now))
    case SweepRow(b) =>
      if b in EligibleBlobs(t, now, cfg.grace) then s.(tables := SweptRow(t, b), sweeping := s.sweeping + {b}) else s
    case SweepFile(b) =>
      if b in s.sweeping then s.(blobFiles := s.blobFiles - {b}, sweeping := s.sweeping - {b}) else s
    case ScanOrphans => s.(tables := t.(orphanMarks := OrphanMarks(t.blobs, s.blobFiles, t.orphanMarks, now)))
    case CheckOrphan(b) =>
      if b !in DueOrphans(t.orphanMarks, now, cfg.grace) then s
      else if b in t.blobs then s.(tables := t.(orphanMarks := t.orphanMarks - {b}))
      else s.(condemned := s.condemned + {b})
    case RemoveOrphan(b) =>
      if b in s.condemned
      then s.(blobFiles := s.blobFiles - {b}, condemned := s.condemned - {b},
              tables := t.(orphanMarks := t.orphanMarks - {b}))
      else s
  }

  /** One action at time `now`; the clock is set by `Step`. */
  function Apply(cfg: Config, s: State, a: Action, now: Time): State {
    match a
    case OnNodes(n) => s.(tables := NodeTables(s.tables, n, now))
    case OnShares(h) => s.(tables := SharingTables(s.tables, h, now))
    case OnSessions(u) => ApplySession(cfg, s, u, now)
    case OnCompletion(c) => ApplyCompletion(cfg, s, c, now)
    case OnRetention(r) => ApplyRetention(s, r, now)
    case OnBlobs(b) => ApplyCollection(cfg, s, b, now)
    case ChangeAccounts(users, devices) => s.(tables := s.tables.(users := users, devices := devices))
    case Crash => s.(writing := map[], sweeping := {}, condemned := {})
  }

  function Step(cfg: Config, s: State, e: Event): State {
    Apply(cfg, s, e.action, e.now).(clock := e.now)
  }

  /** A completion between blob file and commit works on the blob. */
  predicate BeingWritten(s: State, b: Id) {
    exists u | u in s.writing.Keys :: s.writing[u].session.blob == b
  }

  /** A completion is in flight on the blob, or its file is about to be removed. */
  predicate BlobInFlight(s: State, b: Id) {
    b in s.sweeping || BeingWritten(s, b)
  }

  /** What runs assume of their environment. */
  datatype Assumption = ForwardClock | NewNodeIds | NewUploadIds | LockedUploads | OrphansApart

  predicate Meets(x: Assumption, s: State, e: Event) {
    match (x, e.action)
    // The clock never goes back.
    case (ForwardClock, _) => s.clock <= e.now
    // A new node's ID is not one whose folder key outlived its folder.
    case (NewNodeIds, OnNodes(CreateNode(c))) => forall k | k in s.tables.folderKeys.Keys :: k.0 != c.id
    // A new upload does not reserve a blob that is being written or removed.
    case (NewUploadIds, OnSessions(OpenUpload(u, uid))) => uid !in s.writing && !BlobInFlight(s, u.blob)
    // One upload is completed by one caller at a time.
    case (LockedUploads, OnCompletion(WriteBlobFile(c))) => c.upload !in s.writing
    // The orphan collector and a completion do not work on one blob file at the same time.
    case (OrphansApart, OnCompletion(WriteBlobFile(c))) =>
      c.upload in s.tables.sessions ==> s.tables.sessions[c.upload].blob !in s.condemned
    case (OrphansApart, OnBlobs(CheckOrphan(b))) => !BeingWritten(s, b)
    case _ => true
  }

  predicate Allowed(s: State, e: Event) {
    && Meets(ForwardClock, s, e) && Meets(NewNodeIds, s, e) && Meets(NewUploadIds, s, e)
    && Meets(LockedUploads, s, e) && Meets(OrphansApart, s, e)
  }

  /** A server with accounts and nothing stored yet. */
  function Empty(users: set<Id>, devices: map<Id, Device>, now: Time): State {
    State(Tables(users, devices, map[], [], map[], map[], map[], map[], map[], map[], map[], map[], map[], map[]),
          map[], map[], map[], {}, {}, now)
  }

  function Run(cfg: Config, s: State, es: seq<Event>): State
    decreases |es|
  {
    if es == [] then s else Step(cfg, Run(cfg, s, es[..|es| - 1]), es[|es| - 1])
  }

  ghost predicate AllowedRun(cfg: Config, s: State, es: seq<Event>)
    decreases |es|
  {
    es != [] ==> AllowedRun(cfg, s, es[..|es| - 1]) && Allowed(Run(cfg, s, es[..|es| - 1]), es[|es| - 1])
  }
}
