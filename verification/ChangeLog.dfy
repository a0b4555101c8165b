/** The nodes table is a forest and the change log determines it. */
module ChangeLog {
  import opened Common
  import opened Schema
  import opened Forest
  import opened Nodes
  import opened Trash
  import opened Uploads
  import opened Server

  // ---------------------------------------------------------------- what one mutation writes

  /** One row is written, one log entry names it, and the row carries that entry's revision. */
  ghost predicate RowWritten(t: Tables, t': Tables, x: Id, op: Operation) {
    && x in t'.nodes
    && t'.nodes == t.nodes[x := t'.nodes[x]]
    && |t'.log| == |t.log| + 1 && t'.log[..|t.log|] == t.log
    && t'.log[|t.log|].node == x && t'.log[|t.log|].op == op && t'.log[|t.log|].user == t'.nodes[x].owner
    && t'.nodes[x].revision == |t'.log|
    && (op == Created <==> x !in t.nodes)
    && op != Purged
    && (x in t.nodes ==> t'.nodes[x].owner == t.nodes[x].owner && t'.nodes[x].kind == t.nodes[x].kind)
    && (t'.nodes[x].deletedAt.Some? <==> op == Deleted || (op == Updated && t.nodes[x].deletedAt.Some?))
  }

  ghost predicate NodesAndLogSame(t: Tables, t': Tables) {
    t'.nodes == t.nodes && t'.log == t.log
  }

  lemma CreateWrites(t: Tables, c: CreateInput, now: Time)
    requires IsForest(t.nodes)
    ensures var t' := After(t, CreateTx(t, c, now));
            NodesAndLogSame(t, t') || (RowWritten(t, t', c.id, Created) && IsForest(t'.nodes))
  {
    var t' := After(t, CreateTx(t, c, now));
    if t' != t && c.id !in t.nodes && c.id in t'.nodes { LeafForest(t.nodes, c.id, t'.nodes[c.id]); }
  }

  /** A node moves only below a directory of its own tree outside its own subtree. */
  lemma MoveChecked(t: Tables, actor: Id, x: Id, root: Option<Id>, parent: Option<Id>)
    requires IsForest(t.nodes) && x in t.nodes && ValidateMove(t, actor, x, root, parent).Pass?
    ensures MoveAllowed(t.nodes, x, parent)
  {
    if parent.Some? { CycleWalkExact(t.nodes, x, parent.value, MAX_MOVE_DEPTH); }
  }

  lemma UpdateWrites(t: Tables, u: UpdateInput, now: Time)
    requires IsForest(t.nodes)
    ensures var t' := After(t, UpdateTx(t, u, now));
            NodesAndLogSame(t, t') || (RowWritten(t, t', u.node, Updated) && IsForest(t'.nodes))
  {
    var t' := After(t, UpdateTx(t, u, now));
    if !NodesAndLogSame(t, t') {
      if u.move {
        MoveChecked(t, u.actor, u.node, AuthorizeWrite(t, u.actor, u.node).value, u.parent);
        MoveForest(t.nodes, t'.nodes, u.node, u.parent);
      } else {
        SameShapeForest(t.nodes, t'.nodes);
      }
    }
  }

  lemma DeleteWrites(t: Tables, q: NodeRequest, expected: nat, now: Time)
    requires IsForest(t.nodes)
    ensures var t' := After(t, DeleteTx(t, q, expected, now));
            NodesAndLogSame(t, t') || (RowWritten(t, t', q.node, Deleted) && IsForest(t'.nodes))
  {
    var t' := After(t, DeleteTx(t, q, expected, now));
    if !NodesAndLogSame(t, t') { SameShapeForest(t.nodes, t'.nodes); }
  }

  lemma RestoreWrites(t: Tables, q: NodeRequest, now: Time)
    requires IsForest(t.nodes)
    ensures var t' := After(t, RestoreTx(t, q, now));
            NodesAndLogSame(t, t') || (RowWritten(t, t', q.node, Restored) && IsForest(t'.nodes))
  {
    var t' := After(t, RestoreTx(t, q, now));
    if !NodesAndLogSame(t, t') {
      if t'.nodes[q.node].parent == t.nodes[q.node].parent { SameShapeForest(t.nodes, t'.nodes); }
      else { MoveForest(t.nodes, t'.nodes, q.node, None); }
    }
  }

  lemma CommitWrites(t: Tables, w: Written, now: Time)
    requires IsForest(t.nodes)
    ensures var t' := After(t, CommitTx(t, w, now));
            NodesAndLogSame(t, t') || (RowWritten(t, t', w.session.target, Updated) && IsForest(t'.nodes))
  {
    var t' := After(t, CommitTx(t, w, now));
    if !NodesAndLogSame(t, t') { SameShapeForest(t.nodes, t'.nodes); }
  }

  /** Rewrapping touches only key fields of versions. */
  lemma {:induction false} RewrappedFrame(t: Tables, actor: Id, owner: Id, node: Id, vs: seq<RekeyVersion>)
    requires Rewrapped(t, actor, owner, node, vs).Ok?
    ensures var t' := Rewrapped(t, actor, owner, node, vs).value;
            && t' == t.(versions := t'.versions) && t'.versions.Keys == t.versions.Keys
            && forall v ::
                 v in t.versions ==>
                   t'.versions[v].node == t.versions[v].node && t'.versions[v].blob == t.versions[v].blob
    decreases |vs|
  {
    if vs != [] {
      var v := vs[0];
      var row := t.versions[v.id].(wrappedKey := v.wrappedKey, scope := v.scope, keyVersion := v.version);
      RewrappedFrame(t.(versions := t.versions[v.id := row]), actor, owner, node, vs[1..]);
    }
  }

  lemma RekeyOneWrites(t: Tables, actor: Id, i: RekeyItem, now: Time)
    requires IsForest(t.nodes) && RekeyOne(t, actor, i, now).Ok?
    ensures var t' := RekeyOne(t, actor, i, now).value;
            && RowWritten(t, t', i.node, Updated) && IsForest(t'.nodes)
            && t' == t.(nodes := t'.nodes, log := t'.log, versions := t'.versions)
            && t'.versions.Keys == t.versions.Keys
            && (forall v ::
                  v in t.versions ==>
                    t'.versions[v].node == t.versions[v].node && t'.versions[v].blob == t.versions[v].blob)
  {
    var t' := RekeyOne(t, actor, i, now).value;
    RewrappedFrame(t, actor, t.nodes[i.node].owner, i.node, i.versions);
    SameShapeForest(t.nodes, t'.nodes);
  }

  // ---------------------------------------------------------------- the log determines the nodes

  /** The owner's nodes with their Trash flags, replayed from its log entries alone. */
  ghost function Folded(log: seq<Change>, user: Id): map<Id, bool> {
    if log == [] then map[]
    else
      var before := Folded(log[..|log| - 1], user);
      var e := log[|log| - 1];
      if e.user != user then before
      else match e.op
        case Created => before[e.node := false]
        case Updated => before
        case Deleted => before[e.node := true]
        case Restored => before[e.node := false]
        case Purged => before - {e.node}
  }

  ghost function TrashFlags(ns: map<Id, Node>, user: Id): map<Id, bool> {
    map x | x in ns && ns[x].owner == user :: ns[x].deletedAt.Some?
  }

  /** r is the number of the last entry naming x, and it stands in the owner's feed. */
  ghost predicate LastNamed(log: seq<Change>, x: Id, owner: Id, r: nat) {
    1 <= r <= |log| && log[r - 1].node == x && log[r - 1].user == owner
      && forall j :: r <= j < |log| ==> log[j].node != x
  }

  ghost predicate LogMatches(ns: map<Id, Node>, log: seq<Change>) {
    && (forall x :: x in ns ==> LastNamed(log, x, ns[x].owner, ns[x].revision))
    && (forall user :: Folded(log, user) == TrashFlags(ns, user))
  }

  lemma RowFolds(t: Tables, t': Tables, x: Id, op: Operation, user: Id)
    requires RowWritten(t, t', x, op) && Folded(t.log, user) == TrashFlags(t.nodes, user)
    ensures Folded(t'.log, user) == TrashFlags(t'.nodes, user)
  {
    assert t'.log[..|t'.log| - 1] == t.log;
    var before, flags := TrashFlags(t.nodes, user), TrashFlags(t'.nodes, user);
    if t'.nodes[x].owner != user { assert flags == before; }
    else if op == Updated { assert flags == before; }
    else { assert flags == before[x := t'.nodes[x].deletedAt.Some?]; }
  }

  lemma RowKeepsLog(t: Tables, t': Tables, x: Id, op: Operation)
    requires LogMatches(t.nodes, t.log) && RowWritten(t, t', x, op)
    ensures LogMatches(t'.nodes, t'.log)
  {
    forall y | y in t'.nodes ensures LastNamed(t'.log, y, t'.nodes[y].owner, t'.nodes[y].revision) {
      if y != x { LastNamedGrows(t.log, t'.log, y, t.nodes[y].owner, t.nodes[y].revision); }
    }
    forall user ensures Folded(t'.log, user) == TrashFlags(t'.nodes, user) { RowFolds(t, t', x, op, user); }
  }

  lemma LastNamedGrows(log: seq<Change>, log': seq<Change>, y: Id, owner: Id, r: nat)
    requires LastNamed(log, y, owner, r) && |log| <= |log'| && log'[..|log|] == log
    requires forall j :: |log| <= j < |log'| ==> log'[j].node != y
    ensures LastNamed(log', y, owner, r)
  {
    assert forall j :: 0 <= j < |log| ==> log'[j] == log'[..|log|][j];
  }

  lemma {:induction false} FoldedPurge(log: seq<Change>, ns: map<Id, Node>, order: seq<Id>, now: Time, user: Id)
    requires forall x :: x in order ==> x in ns
    requires Folded(log, user) == TrashFlags(ns, user)
    ensures Folded(log + PurgeEntries(ns, order, now), user) == TrashFlags(ns - Members(order), user)
    decreases |order|
  {
    if order == [] {
      assert log + [] == log;
      assert ns - Members(order) == ns;
    } else {
      var before, x := order[..|order| - 1], order[|order| - 1];
      LastPurgeEntry(log, ns, order, now);
      FoldedPurge(log, ns, before, now, user);
      FoldedLast(log + PurgeEntries(ns, order, now), log + PurgeEntries(ns, before, now),
                 Change(ns[x].owner, x, Purged, now), user);
      OneMorePurged(ns, before, order, user);
    }
  }

  lemma LastPurgeEntry(log: seq<Change>, ns: map<Id, Node>, order: seq<Id>, now: Time)
    requires order != [] && forall x :: x in order ==> x in ns
    ensures forall x :: x in order[..|order| - 1] ==> x in ns
    ensures var n := |order| - 1;
            log + PurgeEntries(ns, order, now)
              == log + PurgeEntries(ns, order[..n], now) + [Change(ns[order[n]].owner, order[n], Purged, now)]
  {
    var n := |order| - 1;
    forall x | x in order[..n] ensures x in ns { assert x in order; }
    var es, bs := PurgeEntries(ns, order, now), PurgeEntries(ns, order[..n], now);
    PrefixAndLast(es, bs);
    AppendAssociative(log, bs, [es[n]]);
  }

  lemma PrefixAndLast(es: seq<Change>, bs: seq<Change>)
    requires |es| == |bs| + 1 && forall i :: 0 <= i < |bs| ==> es[i] == bs[i]
    ensures es == bs + [es[|bs|]]
  {
  }

  lemma FoldedLast(log': seq<Change>, log: seq<Change>, e: Change, user: Id)
    requires log' == log + [e] && e.op == Purged
    ensures Folded(log', user) == if e.user == user then Folded(log, user) - {e.node} else Folded(log, user)
  {
    assert log'[..|log'| - 1] == log;
  }

  lemma OneMorePurged(ns: map<Id, Node>, before: seq<Id>, order: seq<Id>, user: Id)
    requires order != [] && before == order[..|order| - 1] && order[|order| - 1] in ns
    ensures var x := order[|order| - 1];
            TrashFlags(ns - Members(order), user)
              == if ns[x].owner == user then TrashFlags(ns - Members(before), user) - {x}
                 else TrashFlags(ns - Members(before), user)
  {
    assert Members(order) == Members(before) + {order[|order| - 1]};
  }

  lemma PurgeKeepsLog(t: Tables, gone: set<Id>, order: seq<Id>, now: Time)
    requires LogMatches(t.nodes, t.log) && gone <= t.nodes.Keys && Enumerates(order, gone)
    ensures forall x :: x in order ==> x in t.nodes
    ensures LogMatches(t.nodes - gone, t.log + PurgeEntries(t.nodes, order, now))
  {
    forall x | x in order ensures x in t.nodes { assert x in gone; }
    assert Members(order) == gone;
    forall user ensures Folded(t.log + PurgeEntries(t.nodes, order, now), user) == TrashFlags(t.nodes - gone, user) {
      assert Folded(t.log, user) == TrashFlags(t.nodes, user);
      FoldedPurge(t.log, t.nodes, order, now, user);
    }
    var es := PurgeEntries(t.nodes, order, now);
    forall y | y in t.nodes - gone ensures LastNamed(t.log + es, y, t.nodes[y].owner, t.nodes[y].revision) {
      forall j | |t.log| <= j < |t.log + es| ensures (t.log + es)[j].node != y {
        assert es[j - |t.log|].node == order[j - |t.log|] && order[j - |t.log|] in gone;
      }
      LastNamedGrows(t.log, t.log + es, y, t.nodes[y].owner, t.nodes[y].revision);
    }
  }

  // ---------------------------------------------------------------- what changed since a snapshot

  ghost function OwnedRow(ns: map<Id, Node>, user: Id, x: Id): Option<Node> {
    if x in ns && ns[x].owner == user then Some(ns[x]) else None
  }

  ghost predicate NamedSince(log: seq<Change>, since: nat, user: Id, x: Id) {
    exists j :: since <= j < |log| && log[j].user == user && log[j].node == x
  }

  /** The log grew from `log` to `log'`, and each of a user's rows that differs is named by one
      of the new entries of that user's feed. */
  ghost predicate ChangesNamed(ns: map<Id, Node>, log: seq<Change>, ns': map<Id, Node>, log': seq<Change>) {
    && |log| <= |log'| && log'[..|log|] == log
    && forall user, x :: OwnedRow(ns, user, x) != OwnedRow(ns', user, x) ==> NamedSince(log', |log|, user, x)
  }

  lemma ChangesNamedTransitive(ns1: map<Id, Node>, log1: seq<Change>, ns2: map<Id, Node>, log2: seq<Change>,
        ns3: map<Id, Node>, log3: seq<Change>)
    requires ChangesNamed(ns1, log1, ns2, log2) && ChangesNamed(ns2, log2, ns3, log3)
    ensures ChangesNamed(ns1, log1, ns3, log3)
  {
    assert log3[..|log1|] == log3[..|log2|][..|log1|];
    forall user, x | OwnedRow(ns1, user, x) != OwnedRow(ns3, user, x) ensures NamedSince(log3, |log1|, user, x) {
      if OwnedRow(ns1, user, x) != OwnedRow(ns2, user, x) {
        var j :| |log1| <= j < |log2| && log2[j].user == user && log2[j].node == x;
        assert log3[j] == log3[..|log2|][j];
      } else {
        var j :| |log2| <= j < |log3| && log3[j].user == user && log3[j].node == x;
      }
    }
  }

  lemma RowNamed(t: Tables, t': Tables, x: Id, op: Operation)
    requires RowWritten(t, t', x, op)
    ensures ChangesNamed(t.nodes, t.log, t'.nodes, t'.log)
  {
    forall user, y | OwnedRow(t.nodes, user, y) != OwnedRow(t'.nodes, user, y)
      ensures NamedSince(t'.log, |t.log|, user, y)
    {
      assert t'.log[|t.log|].user == user && t'.log[|t.log|].node == y;
    }
  }

  lemma PurgeNamed(t: Tables, gone: set<Id>, order: seq<Id>, now: Time)
    requires gone <= t.nodes.Keys && Enumerates(order, gone) && forall x :: x in order ==> x in t.nodes
    ensures ChangesNamed(t.nodes, t.log, t.nodes - gone, t.log + PurgeEntries(t.nodes, order, now))
  {
    var es := PurgeEntries(t.nodes, order, now);
    forall user, y | OwnedRow(t.nodes, user, y) != OwnedRow(t.nodes - gone, user, y)
      ensures NamedSince(t.log + es, |t.log|, user, y)
    {
      assert y in gone;
      var i :| 0 <= i < |order| && order[i] == y;
      assert (t.log + es)[|t.log| + i] == es[i];
    }
  }

  // ---------------------------------------------------------------- every step

  /** What every step keeps about the nodes and the log. */
  ghost predicate TreeAndLog(t: Tables) {
    IsForest(t.nodes) && LogMatches(t.nodes, t.log)
  }

  /** Forest and log are kept and every change is named. */
  ghost predicate GoodStep(t: Tables, t': Tables) {
    TreeAndLog(t') && ChangesNamed(t.nodes, t.log, t'.nodes, t'.log)
  }

  lemma RowGood(t: Tables, t': Tables, x: Id, op: Operation)
    requires TreeAndLog(t)
    requires NodesAndLogSame(t, t') || (RowWritten(t, t', x, op) && IsForest(t'.nodes))
    ensures GoodStep(t, t')
  {
    if !NodesAndLogSame(t, t') {
      RowKeepsLog(t, t', x, op);
      RowNamed(t, t', x, op);
    }
  }

  lemma {:induction false} RekeyGood(t: Tables, actor: Id, items: seq<RekeyItem>, now: Time)
    requires TreeAndLog(t) && RekeyAll(t, actor, items, now).Ok?
    ensures GoodStep(t, RekeyAll(t, actor, items, now).value)
    decreases |items|
  {
    if items != [] {
      RekeyOneWrites(t, actor, items[0], now);
      var t1 := RekeyOne(t, actor, items[0], now).value;
      RowGood(t, t1, items[0].node, Updated);
      RekeyGood(t1, actor, items[1..], now);
      var t' := RekeyAll(t, actor, items, now).value;
      ChangesNamedTransitive(t.nodes, t.log, t1.nodes, t1.log, t'.nodes, t'.log);
    }
  }

  lemma PurgeGood(t: Tables, id: Id, cutoff: Time, order: seq<Id>, now: Time)
    requires TreeAndLog(t) && Enumerates(order, TrashSubtree(t.nodes, id, cutoff))
    ensures forall x :: x in order ==> x in t.nodes
    ensures GoodStep(t, PurgedTables(t, TrashSubtree(t.nodes, id, cutoff), order, now))
  {
    var gone := TrashSubtree(t.nodes, id, cutoff);
    PurgeKeepsLog(t, gone, order, now);
    PurgeNamed(t, gone, order, now);
    TrashSubtreeComplete(t.nodes, id, cutoff);
    forall y, x | y in t.nodes && x in gone && Below(t.nodes, y, x)
      ensures y in gone
    {
      BelowTransitive(t.nodes, y, x, id);
    }
    RemoveForest(t.nodes, gone);
  }

  lemma NodeStepGood(t: Tables, a: NodeAction, now: Time)
    requires TreeAndLog(t)
    ensures GoodStep(t, NodeTables(t, a, now))
  {
    var t' := NodeTables(t, a, now);
    match a {
      case CreateNode(c) => CreateWrites(t, c, now); RowGood(t, t', c.id, Created);
      case UpdateNode(u) => UpdateWrites(t, u, now); RowGood(t, t', u.node, Updated);
      case DeleteNode(q, expected) => DeleteWrites(t, q, expected, now); RowGood(t, t', q.node, Deleted);
      case RestoreNode(q) => RestoreWrites(t, q, now); RowGood(t, t', q.node, Restored);
      case RekeyNodes(k) =>
        if RekeyTx(t, k, now).Ok? { RekeyGood(t, k.actor, k.items, now); } else { RowGood(t, t', 0, Updated); }
    }
  }

  lemma CompletionStepGood(cfg: Config, s: State, a: CompletionAction, now: Time)
    requires TreeAndLog(s.tables)
    ensures GoodStep(s.tables, ApplyCompletion(cfg, s, a, now).tables)
  {
    var t, t' := s.tables, ApplyCompletion(cfg, s, a, now).tables;
    if a.CommitBlob? && a.session in s.writing {
      var w := s.writing[a.session];
      CommitWrites(t, w, now);
      RowGood(t, t', w.session.target, Updated);
    } else {
      RowGood(t, t', 0, Updated);
    }
  }

  lemma PurgedGood(s: State, id: Id, cutoff: Time, order: seq<Id>, now: Time)
    requires TreeAndLog(s.tables)
    ensures GoodStep(s.tables, TrashPurged(s, id, cutoff, order, now).tables)
  {
    var t := s.tables;
    if Enumerates(order, TrashSubtree(t.nodes, id, cutoff)) {
      PurgeGood(t, id, cutoff, order, now);
    } else {
      RowGood(t, t, 0, Updated);
    }
  }

  lemma RetentionStepGood(s: State, a: RetentionAction, now: Time)
    requires TreeAndLog(s.tables)
    ensures GoodStep(s.tables, ApplyRetention(s, a, now).tables)
  {
    RowGood(s.tables, s.tables, 0, Updated);
    match a {
      case PurgeTrash(id, cutoff, order) => PurgedGood(s, id, cutoff, order, now);
      case PurgeOwn(owner, id, order) =>
        if OwnEntry(s.tables.nodes, owner, id) { PurgedGood(s, id, s.tables.nodes[id].deletedAt.value, order, now); }
      case _ => RowGood(s.tables, ApplyRetention(s, a, now).tables, 0, Updated);
    }
  }

  /** Every step keeps the forest and the log, and names what it changes. */
  lemma StepKeepsTreeAndLog(cfg: Config, s: State, e: Event)
    requires TreeAndLog(s.tables)
    ensures GoodStep(s.tables, Step(cfg, s, e).tables)
  {
    match e.action {
      case OnNodes(a) => NodeStepGood(s.tables, a, e.now);
      case OnCompletion(a) => CompletionStepGood(cfg, s, a, e.now);
      case OnRetention(a) => RetentionStepGood(s, a, e.now);
      case _ => RowGood(s.tables, Step(cfg, s, e).tables, 0, Updated);
    }
  }

  /** Over any run: the walks stay finite, the log still folds to the tables, and whatever
      differs from an earlier state has been named since. */
  lemma {:induction false} RunKeepsTreeAndLog(cfg: Config, s: State, es: seq<Event>)
    requires TreeAndLog(s.tables)
    ensures GoodStep(s.tables, Run(cfg, s, es).tables)
    decreases |es|
  {
    if es == [] {
      assert forall user, x :: OwnedRow(s.tables.nodes, user, x) == OwnedRow(s.tables.nodes, user, x);
    } else {
      var before := es[..|es| - 1];
      RunKeepsTreeAndLog(cfg, s, before);
      var m := Run(cfg, s, before);
      StepKeepsTreeAndLog(cfg, m, es[|es| - 1]);
      var t' := Run(cfg, s, es).tables;
      ChangesNamedTransitive(s.tables.nodes, s.tables.log, m.tables.nodes, m.tables.log, t'.nodes, t'.log);
    }
  }

  /** No two contents of one node row ever carry the same revision. */
  lemma RevisionDeterminesRow(cfg: Config, s: State, es: seq<Event>, x: Id)
    requires TreeAndLog(s.tables)
    requires x in s.tables.nodes && x in Run(cfg, s, es).tables.nodes
    requires s.tables.nodes[x].revision == Run(cfg, s, es).tables.nodes[x].revision
    ensures s.tables.nodes[x] == Run(cfg, s, es).tables.nodes[x]
  {
    RunKeepsTreeAndLog(cfg, s, es);
    var t, t' := s.tables, Run(cfg, s, es).tables;
    var user := t'.nodes[x].owner;
    assert LastNamed(t.log, x, t.nodes[x].owner, t.nodes[x].revision)
           && LastNamed(t'.log, x, user, t'.nodes[x].revision);
    assert !NamedSince(t'.log, |t.log|, user, x);
  }

  /** A mirror of one user's rows taken at state s misses nothing: a row that the user's feed
      does not name after s is still the mirrored one. */
  lemma UnnamedRowsAreCurrent(cfg: Config, s: State, es: seq<Event>, user: Id, x: Id)
    requires TreeAndLog(s.tables)
    requires !NamedSince(Run(cfg, s, es).tables.log, |s.tables.log|, user, x)
    ensures OwnedRow(Run(cfg, s, es).tables.nodes, user, x) == OwnedRow(s.tables.nodes, user, x)
  {
    RunKeepsTreeAndLog(cfg, s, es);
  }
}
