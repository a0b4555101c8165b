/** References that no foreign key enforces: a file's current version is a version of that file,
    no share, upload, version or child points at a node that is gone, and a restored node is out
    of reach of every Trash pass. */
module Integrity {
  import opened Common
  import opened Schema
  import opened Forest
  import opened Nodes
  import opened Trash
  import opened Uploads
  import opened Collector
  import opened Server
  import opened ChangeLog
  import opened KeyScopes
  import opened AccessLaws

  ghost predicate CurrentOk(ns: map<Id, Node>, vs: map<Id, Version>, x: Id)
    requires x in ns
  {
    ns[x].current.Some? ==> ns[x].current.value in vs && vs[ns[x].current.value].node == x
  }

  /** current_version_id names an existing version of the same node. */
  ghost predicate CurrentVersions(ns: map<Id, Node>, vs: map<Id, Version>) {
    forall x :: x in ns ==> CurrentOk(ns, vs, x)
  }

  ghost predicate TargetsExist(ns: map<Id, Node>, sessions: map<Id, Session>) {
    forall u :: u in sessions ==> sessions[u].target in ns
  }

  ghost predicate References(t: Tables) {
    CurrentVersions(t.nodes, t.versions) && TargetsExist(t.nodes, t.sessions)
  }

  /** Nothing that is left names a node that is not. */
  ghost predicate NothingDangles(t: Tables) {
    && (forall x :: x in t.nodes && t.nodes[x].parent.Some? ==> t.nodes[x].parent.value in t.nodes)
    && (forall sid :: sid in t.shares ==> t.shares[sid].node in t.nodes)
    && (forall k :: k in t.envelopes ==> k.0 in t.shares)
    && (forall u :: u in t.sessions ==> t.sessions[u].target in t.nodes)
    && (forall v :: v in t.versions ==> t.versions[v].node in t.nodes)
    && (forall x ::
          x in t.nodes && t.nodes[x].current.Some? ==>
            t.nodes[x].current.value in t.versions && t.versions[t.nodes[x].current.value].node == x)
  }

  lemma InvariantsLeaveNothingDangling(t: Tables)
    requires ScopesInv(t) && References(t)
    ensures NothingDangles(t)
  {
    forall x | x in t.nodes && t.nodes[x].parent.Some? ensures t.nodes[x].parent.value in t.nodes {
      ChainStep(t.nodes, x, t.nodes[x].parent.value);
    }
    forall sid | sid in t.shares
      ensures t.shares[sid].node in t.nodes
    {
      assert SharePlaced(t.nodes, t.folderKeys, t.shares[sid]);
    }
    forall x | x in t.nodes ensures CurrentOk(t.nodes, t.versions, x) {}
  }

  // ---------------------------------------------------------------- every step

  /** Nodes stay and keep naming their current version; versions stay with their file. */
  ghost predicate RowsKept(t: Tables, t': Tables) {
    && t.nodes.Keys <= t'.nodes.Keys
    && (forall x :: x in t.nodes ==> t'.nodes[x].current == t.nodes[x].current)
    && (forall x :: x in t'.nodes && x !in t.nodes ==> t'.nodes[x].current.None?)
    && (forall v :: v in t.versions ==> v in t'.versions && t'.versions[v].node == t.versions[v].node)
  }

  lemma KeptReferences(t: Tables, t': Tables)
    requires References(t) && RowsKept(t, t') && t'.sessions == t.sessions
    ensures References(t')
  {
    forall x | x in t'.nodes ensures CurrentOk(t'.nodes, t'.versions, x) {
      if x in t.nodes { assert CurrentOk(t.nodes, t.versions, x); }
    }
  }

  lemma {:induction false} RekeyKeepsRows(t: Tables, actor: Id, items: seq<RekeyItem>, now: Time)
    requires RekeyAll(t, actor, items, now).Ok?
    ensures RowsKept(t, RekeyAll(t, actor, items, now).value)
    decreases |items|
  {
    if items != [] {
      RewrappedFrame(t, actor, t.nodes[items[0].node].owner, items[0].node, items[0].versions);
      RekeyKeepsRows(RekeyOne(t, actor, items[0], now).value, actor, items[1..], now);
    }
  }

  lemma CreateKeepsRows(t: Tables, c: CreateInput, now: Time)
    ensures RowsKept(t, After(t, CreateTx(t, c, now)))
  {
  }

  /** One row is rewritten or added without touching its current version. */
  ghost predicate CurrentKept(t: Tables, t': Tables, x: Id) {
    && t'.versions == t.versions && x in t'.nodes && t'.nodes == t.nodes[x := t'.nodes[x]]
    && t'.nodes[x].current == if x in t.nodes then t.nodes[x].current else None
  }

  lemma RowKept(t: Tables, t': Tables, x: Id)
    requires CurrentKept(t, t', x)
    ensures RowsKept(t, t')
  {
  }

  lemma UpdateKeepsCurrent(t: Tables, u: UpdateInput, now: Time)
    ensures var t' := After(t, UpdateTx(t, u, now)); t' == t || CurrentKept(t, t', u.node)
  {
  }

  lemma UpdateKeepsRows(t: Tables, u: UpdateInput, now: Time)
    ensures RowsKept(t, After(t, UpdateTx(t, u, now)))
  {
    UpdateKeepsCurrent(t, u, now);
    if After(t, UpdateTx(t, u, now)) != t { RowKept(t, After(t, UpdateTx(t, u, now)), u.node); }
  }

  lemma DeleteKeepsRows(t: Tables, q: NodeRequest, expected: nat, now: Time)
    ensures RowsKept(t, After(t, DeleteTx(t, q, expected, now)))
  {
  }

  lemma RestoreKeepsRows(t: Tables, q: NodeRequest, now: Time)
    ensures RowsKept(t, After(t, RestoreTx(t, q, now)))
  {
  }

  lemma NodesKeepRows(t: Tables, a: NodeAction, now: Time)
    ensures RowsKept(t, NodeTables(t, a, now))
  {
    match a {
      case CreateNode(c) => CreateKeepsRows(t, c, now);
      case UpdateNode(u) => UpdateKeepsRows(t, u, now);
      case DeleteNode(q, expected) => DeleteKeepsRows(t, q, expected, now);
      case RestoreNode(q) => RestoreKeepsRows(t, q, now);
      case RekeyNodes(k) => if RekeyTx(t, k, now).Ok? { RekeyKeepsRows(t, k.actor, k.items, now); }
    }
  }

  lemma NodesKeepReferences(t: Tables, a: NodeAction, now: Time)
    requires References(t)
    ensures References(NodeTables(t, a, now))
  {
    NodesFrame(t, a, now);
    NodesKeepRows(t, a, now);
    KeptReferences(t, NodeTables(t, a, now));
  }

  lemma CommitKeepsReferences(t: Tables, w: Written, now: Time)
    requires References(t)
    ensures References(After(t, CommitTx(t, w, now)))
  {
    var t' := After(t, CommitTx(t, w, now));
    forall x | x in t'.nodes ensures CurrentOk(t'.nodes, t'.versions, x) {
      if x in t.nodes { assert CurrentOk(t.nodes, t.versions, x); }
    }
  }

  /** A session is opened only for an existing file, and never changes its target. */
  lemma SessionsKeepTargets(cfg: Config, s: State, a: SessionAction, now: Time)
    requires TargetsExist(s.tables.nodes, s.tables.sessions)
    ensures TargetsExist(s.tables.nodes, ApplySession(cfg, s, a, now).tables.sessions)
  {
  }

  lemma PurgeKeepsReferences(s: State, id: Id, cutoff: Time, order: seq<Id>, now: Time)
    requires References(s.tables)
    ensures References(TrashPurged(s, id, cutoff, order, now).tables)
  {
    var gone := TrashSubtree(s.tables.nodes, id, cutoff);
    if Enumerates(order, gone) {
      assert forall x :: x in order ==> x in gone;
      PurgedReferences(s.tables, gone, order, now);
    }
  }

  lemma PurgedReferences(t: Tables, gone: set<Id>, order: seq<Id>, now: Time)
    requires References(t) && gone <= t.nodes.Keys && forall x :: x in order ==> x in t.nodes
    ensures References(PurgedTables(t, gone, order, now))
  {
    var t' := PurgedTables(t, gone, order, now);
    forall x | x in t'.nodes ensures CurrentOk(t'.nodes, t'.versions, x) {
      assert x in t.nodes && CurrentOk(t.nodes, t.versions, x);
    }
  }

  lemma PruneKeepsReferences(t: Tables, maxVersions: nat, cutoff: Time)
    requires References(t)
    ensures References(t.(versions := KeptVersions(t.nodes, t.versions, maxVersions, cutoff)))
  {
    forall x | x in t.nodes ensures CurrentOk(t.nodes, KeptVersions(t.nodes, t.versions, maxVersions, cutoff), x) {
      assert CurrentOk(t.nodes, t.versions, x);
    }
  }

  lemma RetentionKeepsReferences(s: State, a: RetentionAction, now: Time)
    requires References(s.tables)
    ensures References(ApplyRetention(s, a, now).tables)
  {
    match a {
      case DiscardPurgedFiles(id, cutoff) =>
      case PurgeTrash(id, cutoff, order) => PurgeKeepsReferences(s, id, cutoff, order, now);
      case PurgeOwn(owner, id, order) =>
        if OwnEntry(s.tables.nodes, owner, id) {
          PurgeKeepsReferences(s, id, s.tables.nodes[id].deletedAt.value, order, now);
        }
      case Prune(maxVersions, cutoff) => PruneKeepsReferences(s.tables, maxVersions, cutoff);
      case ForgetOperations =>
    }
  }

  lemma StepKeepsReferences(cfg: Config, s: State, e: Event)
    requires References(s.tables)
    ensures References(Step(cfg, s, e).tables)
  {
    match e.action {
      case OnNodes(a) => NodesKeepReferences(s.tables, a, e.now);
      case OnSessions(a) => SessionsKeepTargets(cfg, s, a, e.now);
      case OnCompletion(a) =>
        if a.CommitBlob? && a.session in s.writing { CommitKeepsReferences(s.tables, s.writing[a.session], e.now); }
      case OnRetention(a) => RetentionKeepsReferences(s, a, e.now);
      case _ =>
    }
  }

  /** In every reachable state nothing points at a removed node, and every file's current
      version exists. */
  lemma {:induction false} RunLeavesNothingDangling(cfg: Config, s: State, es: seq<Event>)
    requires ScopesInv(s.tables) && References(s.tables) && AllowedRun(cfg, s, es)
    ensures References(Run(cfg, s, es).tables) && NothingDangles(Run(cfg, s, es).tables)
    decreases |es|
  {
    RunKeepsScopes(cfg, s, es);
    if es != [] {
      RunLeavesNothingDangling(cfg, s, es[..|es| - 1]);
      StepKeepsReferences(cfg, Run(cfg, s, es[..|es| - 1]), es[|es| - 1]);
    }
    InvariantsLeaveNothingDangling(Run(cfg, s, es).tables);
  }

  // ---------------------------------------------------------------- restore

  /** The chain a restored node ends up on. */
  lemma RestoredChain(t: Tables, q: NodeRequest, now: Time)
    requires IsForest(t.nodes) && RestoreTx(t, q, now).Ok?
    requires ReplayOf(t.processed, q.operation, q.actor, NodeRestore).Fresh?
    ensures var ns' := RestoreTx(t, q, now).value.tables.nodes;
            IsForest(ns') && q.node in ns' && !HasDeletedAncestor(ns', q.node)
  {
    var ns, ns' := t.nodes, RestoreTx(t, q, now).value.tables.nodes;
    RestoreWrites(t, q, now);
    var p := ns'[q.node].parent;
    if p.Some? {
      ChainStep(ns, q.node, p.value);
      if p == ns[q.node].parent { SameShapeForest(ns, ns'); }
    }
  }

  /** A node just restored belongs to no expired subtree, whichever entry and cutoff a pass takes. */
  lemma RestoredIsSafe(t: Tables, q: NodeRequest, now: Time, entry: Id, cutoff: Time)
    requires IsForest(t.nodes) && RestoreTx(t, q, now).Ok?
    requires ReplayOf(t.processed, q.operation, q.actor, NodeRestore).Fresh?
    ensures q.node !in TrashSubtree(RestoreTx(t, q, now).value.tables.nodes, entry, cutoff)
  {
    RestoredChain(t, q, now);
    TrashSubtreeComplete(RestoreTx(t, q, now).value.tables.nodes, entry, cutoff);
  }
}
