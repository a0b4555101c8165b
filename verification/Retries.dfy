/** Optimistic revisions and operation IDs over whole runs: a checked mutation is applied to the
    row its client read, and a repeated request changes nothing. */
module Retries {
  import opened Common
  import opened Schema
  import opened Nodes
  import opened Sharing
  import opened Uploads
  import opened Server
  import opened ChangeLog
  import opened AccessLaws
  import NodeRules
  import RekeyRules
  import UploadRules

  // ---------------------------------------------------------------- no lost update

  /** An accepted rename or move rewrites exactly the row that the client read. */
  lemma UpdateAppliesToRead(cfg: Config, s: State, es: seq<Event>, u: UpdateInput, now: Time)
    requires TreeAndLog(s.tables) && u.node in s.tables.nodes && s.tables.nodes[u.node].revision == u.expected
    requires var t := Run(cfg, s, es).tables;
             UpdateTx(t, u, now).Ok? && ReplayOf(t.processed, u.operation, u.actor, NodeUpdate).Fresh?
    ensures var t := Run(cfg, s, es).tables;
            var t' := UpdateTx(t, u, now).value.tables;
            && u.node in t'.nodes
            && NodeRules.Rewritten(s.tables.nodes[u.node], t'.nodes[u.node], u, |t.log| + 1, now)
  {
    var t := Run(cfg, s, es).tables;
    NodeRules.UpdateEffect(t, u, now);
    assert u.node in t.nodes && t.nodes[u.node].revision == u.expected;
    RevisionDeterminesRow(cfg, s, es, u.node);
  }

  lemma DeleteAppliesToRead(cfg: Config, s: State, es: seq<Event>, q: NodeRequest, expected: nat, now: Time)
    requires TreeAndLog(s.tables) && q.node in s.tables.nodes && s.tables.nodes[q.node].revision == expected
    requires var t := Run(cfg, s, es).tables;
             DeleteTx(t, q, expected, now).Ok? && ReplayOf(t.processed, q.operation, q.actor, NodeDelete).Fresh?
    ensures var n, t' := s.tables.nodes[q.node], DeleteTx(Run(cfg, s, es).tables, q, expected, now).value.tables;
            q.node in t'.nodes && t'.nodes[q.node]
              == n.(deletedAt := Some(now), revision := t'.nodes[q.node].revision, updatedAt := now)
  {
    var t := Run(cfg, s, es).tables;
    assert q.node in t.nodes && t.nodes[q.node].revision == expected;
    RevisionDeterminesRow(cfg, s, es, q.node);
  }

  /** A stored completion replaces exactly the file row that the client's expected revision named. */
  lemma CommitAppliesToRead(cfg: Config, s: State, es: seq<Event>, w: Written, now: Time)
    requires TreeAndLog(s.tables) && w.session.target in s.tables.nodes
    requires s.tables.nodes[w.session.target].revision == w.session.expectedRevision
    requires StoredRows(CommitTx(Run(cfg, s, es).tables, w, now))
    ensures var x, t := w.session.target, Run(cfg, s, es).tables;
            var t' := CommitTx(t, w, now).value.tables;
            && x in t'.nodes
            && UploadRules.ReplacedFile(s.tables.nodes[x], t'.nodes[x], w.session, w.request.keyScope, |t.log| + 1, now)
  {
    UploadRules.CommitEffect(Run(cfg, s, es).tables, w, now);
    RevisionDeterminesRow(cfg, s, es, w.session.target);
  }

  /** Each item of an applied batch rewrites exactly the row that the client read. */
  lemma RekeyAppliesToRead(cfg: Config, s: State, es: seq<Event>, k: RekeyInput, now: Time, i: nat)
    requires TreeAndLog(s.tables) && i < |k.items| && k.items[i].node in s.tables.nodes
    requires s.tables.nodes[k.items[i].node].revision == k.items[i].expected
    requires RekeyTx(Run(cfg, s, es).tables, k, now).Ok?
    ensures var x, t := k.items[i].node, Run(cfg, s, es).tables;
            var t' := RekeyTx(t, k, now).value.tables;
            && x in t'.nodes
            && RekeyRules.RekeyedRow(s.tables.nodes[x], t'.nodes[x], k.items[i], |t.log| + i + 1, now)
  {
    RekeyListed(Run(cfg, s, es).tables, k, now, i);
    RevisionDeterminesRow(cfg, s, es, k.items[i].node);
  }

  lemma RekeyListed(t: Tables, k: RekeyInput, now: Time, i: nat)
    requires RekeyTx(t, k, now).Ok? && i < |k.items|
    ensures var x, t' := k.items[i].node, RekeyTx(t, k, now).value.tables;
            && x in t.nodes && t.nodes[x].revision == k.items[i].expected && x in t'.nodes
            && RekeyRules.RekeyedRow(t.nodes[x], t'.nodes[x], k.items[i], |t.log| + i + 1, now)
  {
    RekeyRules.BatchDecides(t, k, now);
    RekeyRules.BatchEffect(t, k, now);
    assert RekeyRules.ItemAccepted(t, k.actor, k.items[i]);
  }

  // ---------------------------------------------------------------- repeated requests

  ghost predicate RecordKept(before: map<Id, Processed>, after: map<Id, Processed>, op: Id) {
    op in before ==> op in after && after[op] == before[op]
  }

  lemma CreateKeepsRecord(t: Tables, c: CreateInput, now: Time, op: Id)
    ensures RecordKept(t.processed, After(t, CreateTx(t, c, now)).processed, op)
  {
  }

  lemma UpdateKeepsRecord(t: Tables, u: UpdateInput, now: Time, op: Id)
    ensures RecordKept(t.processed, After(t, UpdateTx(t, u, now)).processed, op)
  {
  }

  lemma DeleteKeepsRecord(t: Tables, q: NodeRequest, expected: nat, now: Time, op: Id)
    ensures RecordKept(t.processed, After(t, DeleteTx(t, q, expected, now)).processed, op)
  {
  }

  lemma RestoreKeepsRecord(t: Tables, q: NodeRequest, now: Time, op: Id)
    ensures RecordKept(t.processed, After(t, RestoreTx(t, q, now)).processed, op)
  {
  }

  lemma NodesKeepRecord(t: Tables, a: NodeAction, now: Time, op: Id)
    ensures RecordKept(t.processed, NodeTables(t, a, now).processed, op)
  {
    match a {
      case CreateNode(c) => CreateKeepsRecord(t, c, now, op);
      case UpdateNode(u) => UpdateKeepsRecord(t, u, now, op);
      case DeleteNode(q, expected) => DeleteKeepsRecord(t, q, expected, now, op);
      case RestoreNode(q) => RestoreKeepsRecord(t, q, now, op);
      case RekeyNodes(k) => if RekeyTx(t, k, now).Ok? { RekeyFrame(t, k.actor, k.items, now); }
    }
  }

  lemma FolderKeyKeepsRecord(t: Tables, f: FolderKeyInput, op: Id)
    ensures RecordKept(t.processed, After(t, FolderKeyTx(t, f)).processed, op)
  {
  }

  lemma GrantKeepsRecord(t: Tables, g: GrantInput, sid: Id, now: Time, op: Id)
    ensures RecordKept(t.processed, After(t, GrantTx(t, g, sid, now)).processed, op)
  {
  }

  lemma DeliverKeepsRecord(t: Tables, owner: Id, device: Id, sid: Id, es: seq<DeviceEnvelope>, op: Id)
    ensures RecordKept(t.processed, After(t, AddEnvelopesTx(t, owner, device, sid, es)).processed, op)
  {
  }

  lemma RevokeKeepsRecord(t: Tables, owner: Id, device: Id, sid: Id, now: Time, op: Id)
    ensures RecordKept(t.processed, After(t, RevokeTx(t, owner, device, sid, now)).processed, op)
  {
  }

  lemma SharingKeepsRecord(t: Tables, a: SharingAction, now: Time, op: Id)
    ensures RecordKept(t.processed, SharingTables(t, a, now).processed, op)
  {
    match a {
      case AddFolderKey(f) => FolderKeyKeepsRecord(t, f, op);
      case Grant(g, sid) => GrantKeepsRecord(t, g, sid, now, op);
      case Deliver(owner, device, sid, es) => DeliverKeepsRecord(t, owner, device, sid, es, op);
      case RevokeShare(owner, device, sid) => RevokeKeepsRecord(t, owner, device, sid, now, op);
    }
  }

  lemma CommitKeepsRecord(t: Tables, w: Written, now: Time, op: Id)
    ensures RecordKept(t.processed, After(t, CommitTx(t, w, now)).processed, op)
  {
  }

  lemma CompletionKeepsRecord(cfg: Config, s: State, a: CompletionAction, now: Time, op: Id)
    ensures RecordKept(s.tables.processed, ApplyCompletion(cfg, s, a, now).tables.processed, op)
  {
    if a.CommitBlob? && a.session in s.writing { CommitKeepsRecord(s.tables, s.writing[a.session], now, op); }
  }

  lemma RetentionKeepsRecord(s: State, a: RetentionAction, now: Time, op: Id)
    requires op in s.tables.processed ==> now < s.tables.processed[op].expiresAt
    ensures RecordKept(s.tables.processed, ApplyRetention(s, a, now).tables.processed, op)
  {
    match a {
      case DiscardPurgedFiles(id, cutoff) =>
      case PurgeTrash(id, cutoff, order) =>
      case PurgeOwn(owner, id, order) =>
      case Prune(maxVersions, cutoff) =>
      case ForgetOperations =>
    }
  }

  /** An operation record is written once and lasts until it expires. */
  lemma {:induction false} RecordLasts(cfg: Config, s: State, es: seq<Event>, op: Id)
    requires op in s.tables.processed && forall e :: e in es ==> e.now < s.tables.processed[op].expiresAt
    ensures RecordKept(s.tables.processed, Run(cfg, s, es).tables.processed, op)
    decreases |es|
  {
    if es != [] {
      var m, e := Run(cfg, s, es[..|es| - 1]), es[|es| - 1];
      assert e in es;
      RecordLasts(cfg, s, es[..|es| - 1], op);
      match e.action {
        case OnNodes(a) => NodesKeepRecord(m.tables, a, e.now, op);
        case OnShares(a) => SharingKeepsRecord(m.tables, a, e.now, op);
        case OnCompletion(a) => CompletionKeepsRecord(cfg, m, a, e.now, op);
        case OnRetention(a) => RetentionKeepsRecord(m, a, e.now, op);
        case _ =>
      }
    }
  }

  /** A committed create sent again within the lifetime of its record changes nothing and names
      the same node, whatever happened in between. */
  lemma RepeatedCreate(cfg: Config, s: State, c: CreateInput, now: Time, es: seq<Event>, later: Time)
    requires CreateTx(s.tables, c, now).Ok? && ReplayOf(s.tables.processed, c.operation, c.actor, NodeCreate).Fresh?
    requires forall e :: e in es ==> e.now < now + THIRTY_DAYS
    ensures var t := Run(cfg, Step(cfg, s, Event(now, OnNodes(CreateNode(c)))), es).tables;
            && CreateTx(t, c, later) == Ok(Committed(t, c.id))
            && Reply(t, c.actor, Answer(CreateTx(t, c, later))) == Get(t, c.actor, c.id)
  {
    RecordLasts(cfg, Step(cfg, s, Event(now, OnNodes(CreateNode(c)))), es, c.operation);
  }

  lemma RepeatedUpdate(cfg: Config, s: State, u: UpdateInput, now: Time, es: seq<Event>, later: Time)
    requires UpdateTx(s.tables, u, now).Ok? && ReplayOf(s.tables.processed, u.operation, u.actor, NodeUpdate).Fresh?
    requires forall e :: e in es ==> e.now < now + THIRTY_DAYS
    ensures var t := Run(cfg, Step(cfg, s, Event(now, OnNodes(UpdateNode(u)))), es).tables;
            && UpdateTx(t, u, later) == Ok(Committed(t, u.node))
            && Reply(t, u.actor, Answer(UpdateTx(t, u, later))) == Get(t, u.actor, u.node)
  {
    RecordLasts(cfg, Step(cfg, s, Event(now, OnNodes(UpdateNode(u)))), es, u.operation);
  }

  lemma RepeatedDelete(cfg: Config, s: State, q: NodeRequest, expected: nat, now: Time, es: seq<Event>, later: Time)
    requires DeleteTx(s.tables, q, expected, now).Ok?
    requires ReplayOf(s.tables.processed, q.operation, q.actor, NodeDelete).Fresh?
    requires forall e :: e in es ==> e.now < now + THIRTY_DAYS
    ensures var t := Run(cfg, Step(cfg, s, Event(now, OnNodes(DeleteNode(q, expected)))), es).tables;
            DeleteTx(t, q, expected, later) == Ok(Committed(t, q.node))
  {
    RecordLasts(cfg, Step(cfg, s, Event(now, OnNodes(DeleteNode(q, expected)))), es, q.operation);
  }

  lemma RepeatedRestore(cfg: Config, s: State, q: NodeRequest, now: Time, es: seq<Event>, later: Time)
    requires RestoreTx(s.tables, q, now).Ok? && ReplayOf(s.tables.processed, q.operation, q.actor, NodeRestore).Fresh?
    requires forall e :: e in es ==> e.now < now + THIRTY_DAYS
    ensures var t := Run(cfg, Step(cfg, s, Event(now, OnNodes(RestoreNode(q)))), es).tables;
            && RestoreTx(t, q, later) == Ok(Committed(t, q.node))
            && Reply(t, q.actor, Answer(RestoreTx(t, q, later))) == Get(t, q.actor, q.node)
  {
    RecordLasts(cfg, Step(cfg, s, Event(now, OnNodes(RestoreNode(q)))), es, q.operation);
  }

  lemma RepeatedGrant(cfg: Config, s: State, g: GrantInput, sid: Id, now: Time, es: seq<Event>, sid': Id, later: Time)
    requires GrantTx(s.tables, g, sid, now).Ok? && ShareReplay(s.tables.processed, g).Fresh?
    requires forall e :: e in es ==> e.now < now + THIRTY_DAYS
    ensures var t := Run(cfg, Step(cfg, s, Event(now, OnShares(Grant(g, sid)))), es).tables;
            && GrantTx(t, g, sid', later) == Ok(Committed(t, sid))
            && ShareReply(t, g.owner, Answer(GrantTx(t, g, sid', later))) == OutgoingShare(t, g.owner, sid)
  {
    RecordLasts(cfg, Step(cfg, s, Event(now, OnShares(Grant(g, sid)))), es, g.operation);
  }

  lemma ReplayedComplete(t: Tables, files: map<Id, Bytes>, temp: map<(Id, nat), Bytes>, c: CompleteInput, limit: nat,
        now: Time)
    requires ReplayOf(t.processed, c.operation, c.user, UploadComplete).Applied?
    ensures var begun := Begin(t, files, temp, c, now, limit);
            begun.files == files && (begun.outcome.Ok? ==> begun.outcome.value.None?)
    ensures forall w: Written :: w.request == c ==> CommitTx(t, w, now) == Ok(Committed(t, Replayed))
  {
  }

  lemma CommitLeavesRecord(t: Tables, w: Written, now: Time)
    requires StoredRows(CommitTx(t, w, now))
    ensures var rows, op := CommitTx(t, w, now).value.tables.processed, w.request.operation;
            op in rows && rows[op]
              == Processed(w.request.user, w.request.device, UploadComplete, w.session.version,
                           now + THIRTY_DAYS)
  {
  }

  /** A stored completion sent again within the lifetime of its record, whatever else it carries:
      it writes no file and stores nothing, before and inside the transaction. */
  lemma RepeatedComplete(cfg: Config, s: State, u: Id, now: Time, es: seq<Event>, c: CompleteInput, later: Time)
    requires u in s.writing && StoredRows(CommitTx(s.tables, s.writing[u], now))
    requires forall e :: e in es ==> e.now < now + THIRTY_DAYS
    requires c.operation == s.writing[u].request.operation && c.user == s.writing[u].request.user
    ensures var s' := Run(cfg, Step(cfg, s, Event(now, OnCompletion(CommitBlob(u)))), es);
            var begun := Begin(s'.tables, s'.blobFiles, s'.tempFiles, c, later, cfg.limit);
            && begun.files == s'.blobFiles && (begun.outcome.Ok? ==> begun.outcome.value.None?)
            && ReplayOf(s'.tables.processed, c.operation, c.user, UploadComplete)
               == Applied(s.writing[u].session.version)
            && forall w: Written ::
                 w.request == c ==> CommitTx(s'.tables, w, later) == Ok(Committed(s'.tables, Replayed))
  {
    var s1 := Step(cfg, s, Event(now, OnCompletion(CommitBlob(u))));
    CommitLeavesRecord(s.tables, s.writing[u], now);
    RecordLasts(cfg, s1, es, c.operation);
    var s' := Run(cfg, s1, es);
    ReplayedComplete(s'.tables, s'.blobFiles, s'.tempFiles, c, cfg.limit, later);
  }

  /** A node's revision never falls. */
  lemma RevisionNeverFalls(cfg: Config, s: State, es: seq<Event>, x: Id)
    requires TreeAndLog(s.tables) && x in s.tables.nodes && x in Run(cfg, s, es).tables.nodes
    ensures s.tables.nodes[x].revision <= Run(cfg, s, es).tables.nodes[x].revision <= |Run(cfg, s, es).tables.log|
  {
    RunKeepsTreeAndLog(cfg, s, es);
    var t, t' := s.tables, Run(cfg, s, es).tables;
    var r := t.nodes[x].revision;
    assert LastNamed(t.log, x, t.nodes[x].owner, r);
    assert LastNamed(t'.log, x, t'.nodes[x].owner, t'.nodes[x].revision);
    assert t'.log[r - 1] == t'.log[..|t.log|][r - 1];
  }

  /** A batch has no operation record. Sent again after it was applied it always fails and changes
      nothing, with a revision conflict as long as the device and the first node are still the
      actor's. */
  lemma RepeatedRekey(cfg: Config, s: State, k: RekeyInput, now: Time, es: seq<Event>, later: Time)
    requires TreeAndLog(s.tables) && RekeyTx(s.tables, k, now).Ok?
    ensures var t, x := Run(cfg, Step(cfg, s, Event(now, OnNodes(RekeyNodes(k)))), es).tables, k.items[0].node;
            && RekeyTx(t, k, later).Err?
            && (ActiveDevice(t.devices, k.actor, k.device) && x in t.nodes && t.nodes[x].owner == k.actor ==>
                  RekeyTx(t, k, later) == Err(RevisionConflict))
  {
    var e, x := Event(now, OnNodes(RekeyNodes(k))), k.items[0].node;
    var t := Run(cfg, Step(cfg, s, e), es).tables;
    RekeyListed(s.tables, k, now, 0);
    StepKeepsTreeAndLog(cfg, s, e);
    assert LastNamed(s.tables.log, x, s.tables.nodes[x].owner, s.tables.nodes[x].revision);
    if x in t.nodes { RevisionNeverFalls(cfg, Step(cfg, s, e), es, x); }
    RekeyRefused(t, k, later);
  }

  lemma RekeyRefused(t: Tables, k: RekeyInput, now: Time)
    requires WellFormedBatch(k.items)
    requires k.items[0].node in t.nodes ==> t.nodes[k.items[0].node].revision != k.items[0].expected
    ensures RekeyTx(t, k, now).Err?
    ensures var x := k.items[0].node;
            ActiveDevice(t.devices, k.actor, k.device) && x in t.nodes && t.nodes[x].owner == k.actor ==>
              RekeyTx(t, k, now) == Err(RevisionConflict)
  {
  }
}
