/** Concrete runs from an empty server: what goes wrong when one assumption on runs is broken once,
    and what an interrupted purge leaves behind when none is. */
module Scenarios {
  import opened Common
  import opened Schema
  import opened Trash
  import opened Nodes
  import opened Uploads
  import opened Collector
  import opened Server
  import opened Durability

  const CONFIG := Config(100, 10, 5)
  const DEVICES := map[3 := Device(1, false), 4 := Device(2, false)]

  function Start(): State {
    Empty({1, 2}, DEVICES, 0)
  }

  // ---------------------------------------------------------------- runs with one broken step

  predicate AllowedBut(x: Assumption, s: State, e: Event) {
    && (x == ForwardClock || Meets(ForwardClock, s, e)) && (x == NewNodeIds || Meets(NewNodeIds, s, e))
    && (x == NewUploadIds || Meets(NewUploadIds, s, e)) && (x == LockedUploads || Meets(LockedUploads, s, e))
    && (x == OrphansApart || Meets(OrphansApart, s, e))
  }

  /** From the empty server, every event meets every assumption, except that the event at index
      `bad` may break x. */
  ghost predicate RunBut(x: Assumption, bad: nat, es: seq<Event>)
    decreases |es|
  {
    es != [] ==>
      var n := |es| - 1;
      var s := Run(CONFIG, Start(), es[..n]);
      RunBut(x, bad, es[..n]) && if n == bad then AllowedBut(x, s, es[n]) else Allowed(s, es[n])
  }

  ghost predicate Reaches(x: Assumption, bad: nat, es: seq<Event>, s: State) {
    RunBut(x, bad, es) && Run(CONFIG, Start(), es) == s
  }

  lemma Extend(x: Assumption, bad: nat, es: seq<Event>, s: State, e: Event, s': State)
    requires Reaches(x, bad, es, s) && Step(CONFIG, s, e) == s'
    requires if |es| == bad then AllowedBut(x, s, e) else Allowed(s, e)
    ensures Reaches(x, bad, es + [e], s')
  {
    assert (es + [e])[..|es|] == es;
  }

  /** Three allowed steps more. */
  lemma ThreeMore(x: Assumption, bad: nat, es: seq<Event>, s: State, a: Event, s1: State, b: Event, s2: State,
        c: Event, s3: State)
    requires Reaches(x, bad, es, s) && !(|es| <= bad < |es| + 3)
    requires Step(CONFIG, s, a) == s1 && Step(CONFIG, s1, b) == s2 && Step(CONFIG, s2, c) == s3
    requires Allowed(s, a) && Allowed(s1, b) && Allowed(s2, c)
    ensures Reaches(x, bad, es + [a] + [b] + [c], s3)
  {
    Extend(x, bad, es, s, a, s1);
    Extend(x, bad, es + [a], s1, b, s2);
    Extend(x, bad, es + [a] + [b], s2, c, s3);
  }

  // ---------------------------------------------------------------- a file and its first upload

  const FILE_ROW := Node(1, None, File, [0], 1, None, None, 1, 0, 0, None)
  const CREATED := Processed(1, 3, NodeCreate, 5, OPERATION_LIFETIME)
  const FIRST_INPUT := UploadInput(1, 3, 5, 12, 9, 1, 1, 1, [0], 1, [0])
  const FIRST := Session(1, 3, 5, 12, 9, 1, 1, 1, [0], 1, [0], Open, 10)
  const FIRST_WRITTEN := Written(CompleteInput(1, 3, 20, 101, None, 1, 1), FIRST, [1], 1)

  const CREATE := Event(0, OnNodes(CreateNode(CreateInput(5, 1, 3, 100, None, File, [0], 1, None))))
  const OPEN := Event(0, OnSessions(OpenUpload(FIRST_INPUT, 20)))
  const SEND := Event(0, OnSessions(RecordChunk(ChunkInput(1, 3, 20, 0, [1]))))
  const WRITE := Event(0, OnCompletion(WriteBlobFile(CompleteInput(1, 3, 20, 101, None, 1, 1))))

  function FileTables(sessions: map<Id, Session>, chunks: map<(Id, nat), Chunk>, orphans: map<Id, Time>): Tables {
    Tables({1, 2}, DEVICES, map[5 := FILE_ROW], [Change(1, 5, Created, 0)], map[100 := CREATED], map[], map[], map[],
           map[], map[], sessions, chunks, map[], orphans)
  }

  const FIRST_CHUNK: map<(Id, nat), Chunk> := map[(20, 0) := Chunk(1, Digest([1]))]
  const FIRST_FILE: map<(Id, nat), Bytes> := map[(20, 0) := [1]]

  function CreatedState(): State {
    State(FileTables(map[], map[], map[]), map[], map[], map[], {}, {}, 0)
  }

  function OpenedState(): State {
    State(FileTables(map[20 := FIRST], map[], map[]), map[], map[], map[], {}, {}, 0)
  }

  function SentState(): State {
    State(FileTables(map[20 := FIRST], FIRST_CHUNK, map[]), map[], FIRST_FILE, map[], {}, {}, 0)
  }

  function WrittenState(): State {
    State(FileTables(map[20 := FIRST], FIRST_CHUNK, map[]), map[9 := [1]], FIRST_FILE, map[20 := FIRST_WRITTEN], {},
          {}, 0)
  }

  lemma CreateStep()
    ensures Step(CONFIG, Start(), CREATE) == CreatedState() && Allowed(Start(), CREATE)
  {
    var t := Start().tables;
    assert ActiveDevice(t.devices, 1, 3);
    assert t.log + [Change(1, 5, Created, 0)] == [Change(1, 5, Created, 0)];
    assert t.nodes[5 := FILE_ROW] == map[5 := FILE_ROW];
    assert t.processed[100 := CREATED] == map[100 := CREATED];
  }

  lemma OpenStep()
    ensures Step(CONFIG, CreatedState(), OPEN) == OpenedState() && Allowed(CreatedState(), OPEN)
  {
    var t := CreatedState().tables;
    assert OpenUploads(t.sessions, 3, 0) == {};
    assert ReserveTx(t, FIRST_INPUT, 20, 0, 100, 10).Ok?;
    assert t.sessions[20 := FIRST] == map[20 := FIRST];
  }

  lemma SendStep()
    ensures Step(CONFIG, OpenedState(), SEND) == SentState() && Allowed(OpenedState(), SEND)
  {
    var s := OpenedState();
    assert s.tables.chunks[(20, 0) := Chunk(1, Digest([1]))] == FIRST_CHUNK;
    assert s.tempFiles[(20, 0) := [1]] == FIRST_FILE;
  }

  lemma JoinOne(chunks: map<(Id, nat), Chunk>, files: map<(Id, nat), Bytes>, u: Id, b: Byte)
    requires chunks == map[(u, 0) := Chunk(1, Digest([b]))] && files == map[(u, 0) := [b]]
    ensures AllRecorded(chunks, u, 1) && RecordedBytes(chunks, u, 1) == 1 && Assembled(chunks, files, u, 1) == Ok([b])
  {
    assert RecordedBytes(chunks, u, 0) == 0 && Assembled(chunks, files, u, 0) == Ok([]);
    var empty: Bytes := [];
    assert empty + [b] == [b];
  }

  lemma WriteStep()
    ensures Step(CONFIG, SentState(), WRITE) == WrittenState() && Allowed(SentState(), WRITE)
  {
    var s := SentState();
    JoinOne(s.tables.chunks, s.tempFiles, 20, 1);
    assert Ready(s.tables, FIRST_WRITTEN.request, 0, 100) == Ok(Some(FIRST));
    assert s.blobFiles[9 := [1]] == map[9 := [1]] && s.writing[20 := FIRST_WRITTEN] == map[20 := FIRST_WRITTEN];
  }

  lemma CreateReached(x: Assumption, bad: nat, es: seq<Event>)
    requires Reaches(x, bad, es, Start()) && |es| != bad
    ensures Reaches(x, bad, es + [CREATE], CreatedState())
  {
    CreateStep();
    Extend(x, bad, es, Start(), CREATE, CreatedState());
  }

  lemma OpenReached(x: Assumption, bad: nat, es: seq<Event>)
    requires Reaches(x, bad, es, CreatedState()) && |es| != bad
    ensures Reaches(x, bad, es + [OPEN], OpenedState())
  {
    OpenStep();
    Extend(x, bad, es, CreatedState(), OPEN, OpenedState());
  }

  lemma SendReached(x: Assumption, bad: nat, es: seq<Event>)
    requires Reaches(x, bad, es, OpenedState()) && |es| != bad
    ensures Reaches(x, bad, es + [SEND], SentState())
  {
    SendStep();
    Extend(x, bad, es, OpenedState(), SEND, SentState());
  }

  lemma WriteReached(x: Assumption, bad: nat, es: seq<Event>)
    requires Reaches(x, bad, es, SentState()) && |es| != bad
    ensures Reaches(x, bad, es + [WRITE], WrittenState())
  {
    WriteStep();
    Extend(x, bad, es, SentState(), WRITE, WrittenState());
  }

  lemma ReachesSent(x: Assumption, bad: nat)
    requires bad >= 3
    ensures Reaches(x, bad, [CREATE, OPEN, SEND], SentState())
  {
    CreateReached(x, bad, []);
    OpenReached(x, bad, [] + [CREATE]);
    SendReached(x, bad, [] + [CREATE] + [OPEN]);
    assert [] + [CREATE] + [OPEN] + [SEND] == [CREATE, OPEN, SEND];
  }

  lemma ReachesWritten(x: Assumption, bad: nat)
    requires bad >= 4
    ensures Reaches(x, bad, [CREATE, OPEN, SEND, WRITE], WrittenState())
  {
    ReachesSent(x, bad);
    WriteReached(x, bad, [CREATE, OPEN, SEND]);
    assert [CREATE, OPEN, SEND] + [WRITE] == [CREATE, OPEN, SEND, WRITE];
  }

  // ---------------------------------------------------------------- a blob ID reserved in flight

  const EXPIRE := Event(10, OnSessions(ExpireUpload(20)))
  const CLEAR := Event(10, OnSessions(RemoveUploadFiles(20)))
  const DROP := Event(10, OnSessions(DropUpload(20)))
  const SECOND_INPUT := UploadInput(1, 3, 5, 13, 9, 1, 1, 1, [0], 1, [0])
  const SECOND := Session(1, 3, 5, 13, 9, 1, 1, 1, [0], 1, [0], Open, 20)
  const SECOND_WRITTEN := Written(CompleteInput(1, 3, 21, 102, None, 1, 1), SECOND, [2], 1)
  const REOPEN := Event(10, OnSessions(OpenUpload(SECOND_INPUT, 21)))
  const RESEND := Event(10, OnSessions(RecordChunk(ChunkInput(1, 3, 21, 0, [2]))))
  const REWRITE := Event(10, OnCompletion(WriteBlobFile(CompleteInput(1, 3, 21, 102, None, 1, 1))))
  const COMMIT := Event(10, OnCompletion(CommitBlob(21)))
  const LATE := Event(10, OnCompletion(CommitBlob(20)))
  const SECOND_CHUNK: map<(Id, nat), Chunk> := map[(21, 0) := Chunk(1, Digest([2]))]
  const SECOND_FILE: map<(Id, nat), Bytes> := map[(21, 0) := [2]]

  function ExpiredState(): State {
    State(FileTables(map[20 := FIRST.(status := Expired)], FIRST_CHUNK, map[]), map[9 := [1]], FIRST_FILE,
          map[20 := FIRST_WRITTEN], {}, {}, 10)
  }

  function ClearedState(): State {
    State(FileTables(map[20 := FIRST.(status := Expired)], FIRST_CHUNK, map[]), map[9 := [1]], map[],
          map[20 := FIRST_WRITTEN], {}, {}, 10)
  }

  function DroppedState(): State {
    State(FileTables(map[], map[], map[]), map[9 := [1]], map[], map[20 := FIRST_WRITTEN], {}, {}, 10)
  }

  function ReopenedState(): State {
    State(FileTables(map[21 := SECOND], map[], map[]), map[9 := [1]], map[], map[20 := FIRST_WRITTEN], {}, {}, 10)
  }

  function ResentState(): State {
    State(FileTables(map[21 := SECOND], SECOND_CHUNK, map[]), map[9 := [1]], SECOND_FILE, map[20 := FIRST_WRITTEN], {},
          {}, 10)
  }

  function RewrittenState(): State {
    State(FileTables(map[21 := SECOND], SECOND_CHUNK, map[]), map[9 := [2]], SECOND_FILE,
          map[20 := FIRST_WRITTEN, 21 := SECOND_WRITTEN], {}, {}, 10)
  }

  lemma ExpireStep()
    ensures Step(CONFIG, WrittenState(), EXPIRE) == ExpiredState() && Allowed(WrittenState(), EXPIRE)
  {
    var t := WrittenState().tables;
    assert t.sessions[20 := FIRST.(status := Expired)] == map[20 := FIRST.(status := Expired)];
  }

  lemma ClearStep()
    ensures Step(CONFIG, ExpiredState(), CLEAR) == ClearedState() && Allowed(ExpiredState(), CLEAR)
  {
    assert WithoutDirectory(FIRST_FILE, 20) == map[];
  }

  lemma DropStep()
    ensures Step(CONFIG, ClearedState(), DROP) == DroppedState()
    ensures Allowed(ClearedState(), DROP)
  {
    var t := ExpiredState().tables;
    assert ChunksKept(t.chunks, {20}) == map[] && t.sessions - {20} == map[];
  }

  lemma ReopenStep()
    ensures Step(CONFIG, DroppedState(), REOPEN) == ReopenedState()
    ensures AllowedBut(NewUploadIds, DroppedState(), REOPEN) && !Meets(NewUploadIds, DroppedState(), REOPEN)
  {
    var s := DroppedState();
    assert OpenUploads(s.tables.sessions, 3, 10) == {};
    assert ReserveTx(s.tables, SECOND_INPUT, 21, 10, 100, 10).Ok?;
    assert s.tables.sessions[21 := SECOND] == map[21 := SECOND];
    assert 20 in s.writing.Keys && s.writing[20].session.blob == 9;
  }

  lemma ResendStep()
    ensures Step(CONFIG, ReopenedState(), RESEND) == ResentState() && Allowed(ReopenedState(), RESEND)
  {
    var s := ReopenedState();
    assert s.tables.chunks[(21, 0) := Chunk(1, Digest([2]))] == SECOND_CHUNK;
    assert s.tempFiles[(21, 0) := [2]] == SECOND_FILE;
  }

  lemma RewriteStep()
    ensures Step(CONFIG, ResentState(), REWRITE) == RewrittenState() && Allowed(ResentState(), REWRITE)
  {
    var s := ResentState();
    JoinOne(s.tables.chunks, s.tempFiles, 21, 2);
    assert Ready(s.tables, SECOND_WRITTEN.request, 10, 100) == Ok(Some(SECOND));
    assert s.blobFiles[9 := [2]] == map[9 := [2]] && s.writing[21 := SECOND_WRITTEN] == RewrittenState().writing;
  }

  lemma SecondStored()
    ensures StoredRows(CommitTx(RewrittenState().tables, SECOND_WRITTEN, 10))
  {
  }

  function Prepared(): seq<Event> {
    [CREATE, OPEN, SEND, WRITE, EXPIRE, CLEAR, DROP]
  }

  lemma ExpireReached(x: Assumption, bad: nat, es: seq<Event>)
    requires Reaches(x, bad, es, WrittenState()) && |es| != bad
    ensures Reaches(x, bad, es + [EXPIRE], ExpiredState())
  {
    ExpireStep();
    Extend(x, bad, es, WrittenState(), EXPIRE, ExpiredState());
  }

  lemma ClearReached(x: Assumption, bad: nat, es: seq<Event>)
    requires Reaches(x, bad, es, ExpiredState()) && |es| != bad
    ensures Reaches(x, bad, es + [CLEAR], ClearedState())
  {
    ClearStep();
    Extend(x, bad, es, ExpiredState(), CLEAR, ClearedState());
  }

  lemma DropReached(x: Assumption, bad: nat, es: seq<Event>)
    requires Reaches(x, bad, es, ClearedState()) && |es| != bad
    ensures Reaches(x, bad, es + [DROP], DroppedState())
  {
    DropStep();
    Extend(x, bad, es, ClearedState(), DROP, DroppedState());
  }

  lemma ResendReached(x: Assumption, bad: nat, es: seq<Event>)
    requires Reaches(x, bad, es, ReopenedState()) && |es| != bad
    ensures Reaches(x, bad, es + [RESEND], ResentState())
  {
    ResendStep();
    Extend(x, bad, es, ReopenedState(), RESEND, ResentState());
  }

  lemma RewriteReached(x: Assumption, bad: nat, es: seq<Event>)
    requires Reaches(x, bad, es, ResentState()) && |es| != bad
    ensures Reaches(x, bad, es + [REWRITE], RewrittenState())
  {
    RewriteStep();
    Extend(x, bad, es, ResentState(), REWRITE, RewrittenState());
  }

  lemma ReachesDropped(x: Assumption, bad: nat)
    requires bad >= 7
    ensures Reaches(x, bad, Prepared(), DroppedState())
  {
    var es := [CREATE, OPEN, SEND, WRITE];
    ReachesWritten(x, bad);
    ExpireReached(x, bad, es);
    ClearReached(x, bad, es + [EXPIRE]);
    DropReached(x, bad, es + [EXPIRE] + [CLEAR]);
    assert es + [EXPIRE] + [CLEAR] + [DROP] == Prepared();
  }

  lemma ReachesRewritten()
    ensures Reaches(NewUploadIds, 7, Prepared() + [REOPEN] + [RESEND] + [REWRITE], RewrittenState())
  {
    ReachesDropped(NewUploadIds, 7);
    ReopenStep();
    Extend(NewUploadIds, 7, Prepared(), DroppedState(), REOPEN, ReopenedState());
    ResendReached(NewUploadIds, 7, Prepared() + [REOPEN]);
    RewriteReached(NewUploadIds, 7, Prepared() + [REOPEN] + [RESEND]);
  }

  /** An upload is created, sent and half completed; its session expires and is cleaned up; its
      blob ID is reserved again, sent and committed; then the overtaken completion fails and removes
      the committed file. Only the reservation breaks an assumption, and only that one. */
  lemma ReusedBlobIdLosesData()
    ensures var es := Prepared() + [REOPEN] + [RESEND] + [REWRITE] + [COMMIT] + [LATE];
            var s' := Run(CONFIG, Start(), es);
            && RunBut(NewUploadIds, 7, es) && es[7] == REOPEN
            && 13 in s'.tables.versions && s'.tables.versions[13].blob == 9 && Lost(s', 9)
  {
    ReachesRewritten();
    CommitStep();
    var es, m := Prepared() + [REOPEN] + [RESEND] + [REWRITE], Step(CONFIG, RewrittenState(), COMMIT);
    LateStep(m);
    TwoMore(NewUploadIds, 7, es, RewrittenState(), COMMIT, LATE);
  }

  lemma CommitStep()
    ensures var m := Step(CONFIG, RewrittenState(), COMMIT);
            && 20 in m.writing && m.writing[20].session.blob == 9 && m.clock == 10
            && 9 in m.tables.blobs && 13 in m.tables.versions && m.tables.versions[13].blob == 9
  {
    SecondStored();
    CommitEffect(RewrittenState(), 21, 10);
  }

  /** Two commits, which no assumption but the clock restricts. */
  lemma TwoMore(x: Assumption, bad: nat, es: seq<Event>, s: State, d: Event, e: Event)
    requires Reaches(x, bad, es, s) && |es| > bad && s.clock <= d.now <= e.now
    requires d.action.OnCompletion? && d.action.completion.CommitBlob? && e.action.OnCompletion?
             && e.action.completion.CommitBlob?
    ensures Reaches(x, bad, es + [d] + [e], Step(CONFIG, Step(CONFIG, s, d), e))
  {
    Extend(x, bad, es, s, d, Step(CONFIG, s, d));
    Extend(x, bad, es + [d], Step(CONFIG, s, d), e, Step(CONFIG, Step(CONFIG, s, d), e));
  }

  /** The late commit of the overtaken upload, on any state in which its blob is committed. */
  lemma LateStep(m: State)
    requires 20 in m.writing && m.writing[20].session.blob == 9
    requires 9 in m.tables.blobs && 13 in m.tables.versions && m.tables.versions[13].blob == 9
    ensures var s' := Step(CONFIG, m, LATE); 13 in s'.tables.versions && s'.tables.versions[13].blob == 9 && Lost(s', 9)
  {
    LateCommitRemovesFile(m, 20, 10);
    CommitEffect(m, 20, 10);
  }

  // ---------------------------------------------------------------- an orphan file taken up again

  const CRASH := Event(0, Crash)
  const SCAN := Event(0, OnBlobs(ScanOrphans))
  const CHECK := Event(5, OnBlobs(CheckOrphan(9)))
  const RETRY := Event(5, OnCompletion(WriteBlobFile(CompleteInput(1, 3, 20, 101, None, 1, 1))))
  const STORE := Event(5, OnCompletion(CommitBlob(20)))
  const REMOVE := Event(5, OnBlobs(RemoveOrphan(9)))

  function OrphanState(orphans: map<Id, Time>, condemned: set<Id>, writing: map<Id, Written>, clock: Time): State {
    State(FileTables(map[20 := FIRST], FIRST_CHUNK, orphans), map[9 := [1]], FIRST_FILE, writing, {}, condemned, clock)
  }

  lemma CrashStep()
    ensures Step(CONFIG, WrittenState(), CRASH) == OrphanState(map[], {}, map[], 0) && Allowed(WrittenState(), CRASH)
  {
  }

  lemma ScanStep()
    ensures Step(CONFIG, OrphanState(map[], {}, map[], 0), SCAN) == OrphanState(map[9 := 0], {}, map[], 0)
    ensures Allowed(OrphanState(map[], {}, map[], 0), SCAN)
  {
    var s := OrphanState(map[], {}, map[], 0);
    assert OrphanMarks(s.tables.blobs, s.blobFiles, s.tables.orphanMarks, 0) == map[9 := 0];
  }

  lemma CheckStep()
    ensures Step(CONFIG, OrphanState(map[9 := 0], {}, map[], 0), CHECK) == OrphanState(map[9 := 0], {9}, map[], 5)
    ensures Allowed(OrphanState(map[9 := 0], {}, map[], 0), CHECK)
  {
    assert 9 in DueOrphans(map[9 := 0], 5, 5);
    assert {} + {9} == {9};
  }

  lemma RetryStep()
    ensures Step(CONFIG, OrphanState(map[9 := 0], {9}, map[], 5), RETRY)
            == OrphanState(map[9 := 0], {9}, map[20 := FIRST_WRITTEN], 5)
    ensures AllowedBut(OrphansApart, OrphanState(map[9 := 0], {9}, map[], 5), RETRY)
    ensures !Meets(OrphansApart, OrphanState(map[9 := 0], {9}, map[], 5), RETRY)
  {
    var s := OrphanState(map[9 := 0], {9}, map[], 5);
    JoinOne(s.tables.chunks, s.tempFiles, 20, 1);
    assert Ready(s.tables, FIRST_WRITTEN.request, 5, 100) == Ok(Some(FIRST));
    assert s.blobFiles[9 := [1]] == map[9 := [1]] && s.writing[20 := FIRST_WRITTEN] == map[20 := FIRST_WRITTEN];
  }

  lemma RetryStored()
    ensures StoredRows(CommitTx(OrphanState(map[9 := 0], {9}, map[20 := FIRST_WRITTEN], 5).tables, FIRST_WRITTEN, 5))
  {
  }

  /** A crash leaves a blob file without a row; after the grace period the collector decides to
      remove it; the client repeats its completion of the still open upload, which is stored; then
      the collector removes the committed file. Only the repeated completion breaks an assumption. */
  lemma OverlappingOrphanLosesData()
    ensures var es := [CREATE, OPEN, SEND, WRITE] + [CRASH] + [SCAN] + [CHECK] + [RETRY] + [STORE] + [REMOVE];
            RunBut(OrphansApart, 7, es) && es[7] == RETRY && Lost(Run(CONFIG, Start(), es), 9)
  {
    ReachesWritten(OrphansApart, 7);
    CrashStep();
    ScanStep();
    CheckStep();
    var es := [CREATE, OPEN, SEND, WRITE];
    var a, b, c := OrphanState(map[], {}, map[], 0), OrphanState(map[9 := 0], {}, map[], 0),
        OrphanState(map[9 := 0], {9}, map[], 5);
    ThreeMore(OrphansApart, 7, es, WrittenState(), CRASH, a, SCAN, b, CHECK, c);
    StoredAfterRetry(es + [CRASH] + [SCAN] + [CHECK], c);
  }

  lemma StoredAfterRetry(es: seq<Event>, c: State)
    requires |es| == 7 && c == OrphanState(map[9 := 0], {9}, map[], 5) && Reaches(OrphansApart, 7, es, c)
    ensures var fs := es + [RETRY] + [STORE] + [REMOVE];
            RunBut(OrphansApart, 7, fs) && Lost(Run(CONFIG, Start(), fs), 9)
  {
    RetryStep();
    RetryStored();
    var d := OrphanState(map[9 := 0], {9}, map[20 := FIRST_WRITTEN], 5);
    Extend(OrphansApart, 7, es, c, RETRY, d);
    StoredThenCondemned(CONFIG, d, 20, 9, 5, 5);
    FinishOrphan(OrphansApart, 7, es + [RETRY], d);
  }

  lemma FinishOrphan(x: Assumption, bad: nat, es: seq<Event>, d: State)
    requires Reaches(x, bad, es, d) && |es| > bad && d.clock == 5
    ensures Reaches(x, bad, es + [STORE] + [REMOVE], Step(CONFIG, Step(CONFIG, d, STORE), REMOVE))
  {
    Extend(x, bad, es, d, STORE, Step(CONFIG, d, STORE));
    Extend(x, bad, es + [STORE], Step(CONFIG, d, STORE), REMOVE, Step(CONFIG, Step(CONFIG, d, STORE), REMOVE));
  }

  // ---------------------------------------------------------------- an interrupted purge

  const DELETE := Event(0, OnNodes(DeleteNode(NodeRequest(1, 3, 5, 103), 1)))
  const DISCARD := Event(0, OnRetention(DiscardPurgedFiles(5, 0)))
  const RESTORE := Event(0, OnNodes(RestoreNode(NodeRequest(1, 3, 5, 104))))

  function TrashState(row: Node, log: seq<Change>, processed: map<Id, Processed>, files: map<(Id, nat), Bytes>): State {
    SentState().(tables := SentState().tables.(nodes := map[5 := row], log := log, processed := processed),
                 tempFiles := files)
  }

  const DELETED_ROW := FILE_ROW.(deletedAt := Some(0), revision := 2)
  const DELETED_LOG := [Change(1, 5, Created, 0), Change(1, 5, Deleted, 0)]
  const DELETED_OPS := map[100 := CREATED, 103 := Processed(1, 3, NodeDelete, 5, OPERATION_LIFETIME)]
  const RESTORED_LOG := [Change(1, 5, Created, 0), Change(1, 5, Deleted, 0), Change(1, 5, Restored, 0)]
  const RESTORED_OPS := map[100 := CREATED, 103 := Processed(1, 3, NodeDelete, 5, OPERATION_LIFETIME),
                            104 := Processed(1, 3, NodeRestore, 5, OPERATION_LIFETIME)]

  function DeletedState(files: map<(Id, nat), Bytes>): State {
    TrashState(DELETED_ROW, DELETED_LOG, DELETED_OPS, files)
  }

  function RestoredState(): State {
    TrashState(FILE_ROW.(revision := 3), RESTORED_LOG, RESTORED_OPS, map[])
  }

  lemma DeleteStep()
    ensures Step(CONFIG, SentState(), DELETE) == DeletedState(FIRST_FILE) && Allowed(SentState(), DELETE)
  {
    var t := SentState().tables;
    assert t.log + [Change(1, 5, Deleted, 0)] == DELETED_LOG;
    assert t.nodes[5 := DELETED_ROW] == map[5 := DELETED_ROW];
    assert t.processed[103 := Processed(1, 3, NodeDelete, 5, OPERATION_LIFETIME)] == DELETED_OPS;
  }

  lemma DiscardStep()
    ensures Step(CONFIG, DeletedState(FIRST_FILE), DISCARD) == DeletedState(map[])
            && Allowed(DeletedState(FIRST_FILE), DISCARD)
  {
    var t := DeletedState(FIRST_FILE).tables;
    assert 5 in TrashSubtree(t.nodes, 5, 0);
    assert 20 in PurgedUploads(t, 5, 0);
    assert WithoutDirectories(FIRST_FILE, PurgedUploads(t, 5, 0)) == map[];
  }

  lemma RestoreStep()
    ensures Step(CONFIG, DeletedState(map[]), RESTORE) == RestoredState() && Allowed(DeletedState(map[]), RESTORE)
  {
    var t := DeletedState(map[]).tables;
    assert t.log + [Change(1, 5, Restored, 0)] == RESTORED_LOG;
    assert t.nodes[5 := FILE_ROW.(revision := 3)] == map[5 := FILE_ROW.(revision := 3)];
    assert t.processed[104 := Processed(1, 3, NodeRestore, 5, OPERATION_LIFETIME)] == RESTORED_OPS;
  }

  /** A file with an open upload is deleted; a purge removes the upload's directory and crashes
      before it commits; the owner restores the file. No assumption is broken, the chunk counts as
      received, and the completion fails because its file is gone. */
  lemma InterruptedPurgeStrandsUpload()
    ensures var es := [CREATE, OPEN, SEND] + [DELETE] + [DISCARD] + [RESTORE];
            var s := Run(CONFIG, Start(), es);
            && AllowedRun(CONFIG, Start(), es)
            && (20, 0) in s.tables.chunks && (20, 0) !in s.tempFiles && OpenSession(s.tables.sessions, 20)
            && Begin(s.tables, s.blobFiles, s.tempFiles, WRITE.action.completion.complete, 0, CONFIG.limit).outcome
               == Err(MissingRow)
  {
    ReachesSent(ForwardClock, 100);
    DeleteStep();
    DiscardStep();
    RestoreStep();
    var es := [CREATE, OPEN, SEND];
    ThreeMore(ForwardClock, 100, es, SentState(), DELETE, DeletedState(FIRST_FILE), DISCARD, DeletedState(map[]),
              RESTORE, RestoredState());
    NoneBroken(ForwardClock, 100, es + [DELETE] + [DISCARD] + [RESTORE]);
    StrandedBegin();
  }

  lemma StrandedBegin()
    ensures var s := RestoredState();
            Begin(s.tables, s.blobFiles, s.tempFiles, WRITE.action.completion.complete, 0, CONFIG.limit).outcome
              == Err(MissingRow)
  {
    var s := RestoredState();
    JoinOne(s.tables.chunks, FIRST_FILE, 20, 1);
    assert Assembled(s.tables.chunks, s.tempFiles, 20, 0) == Ok([]);
    assert Assembled(s.tables.chunks, s.tempFiles, 20, 1) == Err(MissingRow);
    assert Ready(s.tables, WRITE.action.completion.complete, 0, 100) == Ok(Some(FIRST));
  }

  lemma {:induction false} NoneBroken(x: Assumption, bad: nat, es: seq<Event>)
    requires RunBut(x, bad, es) && |es| <= bad
    ensures AllowedRun(CONFIG, Start(), es)
    decreases |es|
  {
    if es != [] { NoneBroken(x, bad, es[..|es| - 1]); }
  }
}
