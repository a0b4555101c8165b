/** What a client sees after its request: creations can be read back, a deletion hides exactly the
    shares above it, a restore undoes it, a grant reaches the live part of its folder, and an
    upload stores what was declared when it was opened. */
module Outcomes {
  import opened Common
  import opened Schema
  import opened Forest
  import opened Access
  import opened Nodes
  import opened Sharing
  import opened Uploads
  import opened Server
  import opened ChangeLog
  import opened KeyScopes
  import opened AccessLaws
  import opened Durability
  import opened ChunkStore
  import opened Completions
  import NodeRules

  // ---------------------------------------------------------------- create

  /** Whoever creates a node, owner or member, reads back what it sent, at the newest revision. */
  lemma CreateThenGet(t: Tables, c: CreateInput, now: Time)
    requires IsForest(t.nodes) && CreateTx(t, c, now).Ok?
    requires ReplayOf(t.processed, c.operation, c.actor, NodeCreate).Fresh?
    ensures var t' := CreateTx(t, c, now).value.tables;
            && Get(t', c.actor, c.id).Ok?
            && var n := Get(t', c.actor, c.id).value;
               && n.metadata == c.metadata && n.metadataKeyVersion == c.keyVersion
               && n.metadataScope.GetOr(n.owner) == c.scope.GetOr(n.owner)
               && n.parent == c.parent && n.kind == c.kind && n.current.None? && n.deletedAt.None?
               && n.revision == |t'.log| && n.createdAt == now
  {
    var t' := CreateTx(t, c, now).value.tables;
    var n := t'.nodes[c.id];
    if n.owner != c.actor {
      LeafForest(t.nodes, c.id, n);
      MemberReadsLeaf(t, t', c.actor, c.id, c.parent.value);
    }
  }

  /** A live node below a node that the user reaches is reached as well. */
  lemma MemberReadsLeaf(t: Tables, t': Tables, user: Id, x: Id, p: Id)
    requires x in t'.nodes && t'.nodes == t.nodes[x := t'.nodes[x]] && x !in t.nodes
    requires t'.nodes[x].deletedAt.None? && t'.shares == t.shares
    requires Chain(t'.nodes, x) == [x] + Chain(t.nodes, p) && ShareGrant(t.nodes, t.shares, user, p).Some?
    ensures ShareGrant(t'.nodes, t'.shares, user, x).Some?
  {
    assert Chain(t'.nodes, x)[1..] == Chain(t.nodes, p);
    GrantFrame(t.nodes, t'.nodes, t.shares, user, Chain(t.nodes, p));
  }

  // ---------------------------------------------------------------- rename and move

  /** A node reached through a share keeps being reached when its own row is rewritten in place. */
  lemma RewrittenStaysReached(ns: map<Id, Node>, ns': map<Id, Node>, shares: map<Id, Share>, user: Id, x: Id)
    requires Rooted(ns) && x in ns && Chain(ns', x) == Chain(ns, x)
    requires forall y :: y in Chain(ns, x) ==> y in ns' && ns'[y].deletedAt == ns[y].deletedAt
    requires ShareGrant(ns, shares, user, x).Some?
    ensures ShareGrant(ns', shares, user, x).Some?
  {
    GrantFrame(ns, ns', shares, user, Chain(ns, x));
  }

  /** So does one that is moved below a node that is reached. */
  lemma MovedStaysReached(ns: map<Id, Node>, ns': map<Id, Node>, shares: map<Id, Share>, user: Id, x: Id, p: Id)
    requires x in ns' && ns'[x].deletedAt.None? && Chain(ns', x) == [x] + Chain(ns, p)
    requires forall y :: y in Chain(ns, p) ==> y in ns && y in ns' && ns'[y].deletedAt == ns[y].deletedAt
    requires ShareGrant(ns, shares, user, p).Some?
    ensures ShareGrant(ns', shares, user, x).Some?
  {
    assert Chain(ns', x)[1..] == Chain(ns, p);
    GrantFrame(ns, ns', shares, user, Chain(ns, p));
  }

  lemma MovedMember(ns: map<Id, Node>, ns': map<Id, Node>, shares: map<Id, Share>, actor: Id, x: Id, p: Id)
    requires IsForest(ns) && MoveAllowed(ns, x, Some(p)) && ShareGrant(ns, shares, actor, p).Some?
    requires x in ns' && ns' == ns[x := ns'[x]] && ns[x].deletedAt.None? && ns'[x].deletedAt.None?
    requires ns'[x].kind == ns[x].kind && ns'[x].owner == ns[x].owner && ns'[x].parent == Some(p)
    ensures ShareGrant(ns', shares, actor, x).Some?
  {
    MoveForest(ns, ns', x, Some(p));
    assert p in ns && IsPath(ns, Chain(ns, p));
    MovedStaysReached(ns, ns', shares, actor, x, p);
  }

  /** A member that may rename or move a node still reaches it afterwards. */
  lemma MemberStillReaches(t: Tables, ns': map<Id, Node>, actor: Id, x: Id, move: bool, parent: Option<Id>)
    requires IsForest(t.nodes) && x in t.nodes && t.nodes[x].owner != actor && AuthorizeWrite(t, actor, x).Ok?
    requires move ==> ValidateMove(t, actor, x, AuthorizeWrite(t, actor, x).value, parent).Pass?
    requires x in ns' && ns' == t.nodes[x := ns'[x]] && ns'[x].deletedAt == t.nodes[x].deletedAt
    requires ns'[x].kind == t.nodes[x].kind && ns'[x].owner == t.nodes[x].owner
    requires ns'[x].parent == if move then parent else t.nodes[x].parent
    ensures ShareGrant(ns', t.shares, actor, x).Some?
  {
    if move {
      MoveChecked(t, actor, x, AuthorizeWrite(t, actor, x).value, parent);
      MovedMember(t.nodes, ns', t.shares, actor, x, parent.value);
    } else {
      SameShapeForest(t.nodes, ns');
      RewrittenStaysReached(t.nodes, ns', t.shares, actor, x);
    }
  }

  /** Whoever renames or moves a node, owner or member, can read it afterwards, at the newest
      revision. */
  lemma UpdateThenGet(t: Tables, u: UpdateInput, now: Time)
    requires IsForest(t.nodes) && UpdateTx(t, u, now).Ok?
    requires ReplayOf(t.processed, u.operation, u.actor, NodeUpdate).Fresh?
    ensures var t' := UpdateTx(t, u, now).value.tables;
            && u.node in t.nodes && Get(t', u.actor, u.node).Ok?
            && NodeRules.Rewritten(t.nodes[u.node], Get(t', u.actor, u.node).value, u, |t.log| + 1, now)
  {
    NodeRules.UpdateEffect(t, u, now);
    if t.nodes[u.node].owner != u.actor {
      MemberStillReaches(t, UpdateTx(t, u, now).value.tables.nodes, u.actor, u.node, u.move, u.parent);
    }
  }

  // ---------------------------------------------------------------- delete and restore

  /** `a` is met no later than `b` on the walk. */
  ghost predicate Before(c: seq<Id>, a: Id, b: Id) {
    exists i, j :: 0 <= i <= j < |c| && c[i] == a && c[j] == b
  }

  lemma BeforeTail(c: seq<Id>, a: Id, b: Id)
    requires c != [] && c[0] != a
    ensures Before(c, a, b) <==> Before(c[1..], a, b)
  {
    if i, j :| 0 <= i <= j < |c| && c[i] == a && c[j] == b { assert c[1..][i - 1] == a && c[1..][j - 1] == b; }
    if i, j :| 0 <= i <= j < |c[1..]| && c[1..][i] == a && c[1..][j] == b { assert c[i + 1] == a && c[j + 1] == b; }
  }

  /** Putting one node of a walk in Trash hides the shares at or above it and no others. */
  lemma {:induction false} TrashAlong(ns: map<Id, Node>, ns': map<Id, Node>, shares: map<Id, Share>, user: Id,
        c: seq<Id>, x: Id)
    requires x in ns && x in ns' && ns' == ns[x := ns'[x]] && ns'[x].deletedAt.Some?
    requires (forall y :: y in c ==> y in ns) && forall i, j :: 0 <= i < j < |c| ==> c[i] != c[j]
    requires GrantAlong(ns, shares, user, c).Some?
    ensures var g := GrantAlong(ns, shares, user, c).value;
            GrantAlong(ns', shares, user, c) == if Before(c, x, g.root) then None else Some(g)
  {
    var g := GrantAlong(ns, shares, user, c).value;
    if c[0] == x {
      var k := GrantPosition(ns, shares, user, c);
      assert c[0] == x && c[k] == g.root;
    } else if ShareOn(shares, user, c[0]).Some? {
      assert g.root == c[0];
    } else {
      TrashAlong(ns, ns', shares, user, c[1..], x);
      BeforeTail(c, x, g.root);
    }
  }

  lemma GrantRootAbove(ns: map<Id, Node>, shares: map<Id, Share>, user: Id, y: Id)
    requires ShareGrant(ns, shares, user, y).Some?
    ensures Below(ns, y, ShareGrant(ns, shares, user, y).value.root)
  {
    var k := GrantPosition(ns, shares, user, Chain(ns, y));
  }

  /** Of two ancestors of y, the one met first on its walk lies below the other. */
  lemma OrderOnChain(ns: map<Id, Node>, y: Id, a: Id, b: Id)
    requires Rooted(ns) && Below(ns, y, a) && Below(ns, y, b)
    ensures Before(Chain(ns, y), a, b) <==> Below(ns, a, b)
  {
    var c := Chain(ns, y);
    assert y in ns && IsPath(ns, c);
    PathDistinct(ns, c);
    var p :| 0 <= p < |c| && c[p] == a;
    ChainSuffix(ns, y, p);
    if Below(ns, a, b) {
      var k :| 0 <= k < |c[p..]| && c[p..][k] == b;
      assert c[p] == a && c[p + k] == b;
    }
    if i, j :| 0 <= i <= j < |c| && c[i] == a && c[j] == b { assert c[p..][j - p] == b; }
  }

  /** In a forest, trashing x hides from everything below it the shares at or above x. */
  lemma TrashHides(ns: map<Id, Node>, ns': map<Id, Node>, shares: map<Id, Share>, user: Id, x: Id, y: Id)
    requires Rooted(ns) && x in ns && x in ns' && ns' == ns[x := ns'[x]] && ns'[x].deletedAt.Some?
    requires Below(ns, y, x) && ShareGrant(ns, shares, user, y).Some?
    ensures var g := ShareGrant(ns, shares, user, y).value;
            GrantAlong(ns', shares, user, Chain(ns, y)) == if Below(ns, x, g.root) then None else Some(g)
  {
    var c := Chain(ns, y);
    assert y in ns && IsPath(ns, c);
    PathDistinct(ns, c);
    GrantRootAbove(ns, shares, user, y);
    OrderOnChain(ns, y, x, ShareGrant(ns, shares, user, y).value.root);
    TrashAlong(ns, ns', shares, user, c, x);
  }

  /** After a deletion a recipient keeps exactly the shares rooted strictly below the deleted
      node, for every node below it. */
  lemma DeleteHides(t: Tables, q: NodeRequest, expected: nat, now: Time, user: Id, y: Id)
    requires IsForest(t.nodes) && DeleteTx(t, q, expected, now).Ok?
    requires ReplayOf(t.processed, q.operation, q.actor, NodeDelete).Fresh?
    requires Below(t.nodes, y, q.node) && ShareGrant(t.nodes, t.shares, user, y).Some?
    ensures var t', g := DeleteTx(t, q, expected, now).value.tables, ShareGrant(t.nodes, t.shares, user, y).value;
            ShareGrant(t'.nodes, t'.shares, user, y) == if Below(t.nodes, q.node, g.root) then None else Some(g)
  {
    var ns' := DeleteTx(t, q, expected, now).value.tables.nodes;
    assert q.node in t.nodes && ns' == t.nodes[q.node := ns'[q.node]] && ns'[q.node].deletedAt.Some?;
    SameShapeForest(t.nodes, ns');
    TrashHides(t.nodes, ns', t.shares, user, q.node, y);
  }

  /** Deleting and then restoring gives the row back, under a new revision, in its folder unless
      that folder is itself in Trash; all other rows are untouched. */
  lemma RestoreUndoesDelete(t: Tables, d: NodeRequest, expected: nat, r: NodeRequest, now: Time, later: Time)
    requires IsForest(t.nodes) && DeleteTx(t, d, expected, now).Ok?
    requires ReplayOf(t.processed, d.operation, d.actor, NodeDelete).Fresh?
    requires var t1 := DeleteTx(t, d, expected, now).value.tables;
             r.node == d.node && RestoreTx(t1, r, later).Ok?
               && ReplayOf(t1.processed, r.operation, r.actor, NodeRestore).Fresh?
    ensures var n, t' := t.nodes[d.node], RestoreTx(DeleteTx(t, d, expected, now).value.tables, r, later).value.tables;
            var hidden := n.parent.Some? && HasDeletedAncestor(t.nodes, n.parent.value);
            t'.nodes == t.nodes[d.node := n.(parent := if hidden then None else n.parent,
                                             revision := |t'.log|, updatedAt := later)]
  {
    var x, n, t1 := d.node, t.nodes[d.node], DeleteTx(t, d, expected, now).value.tables;
    if n.parent.Some? {
      SameShapeForest(t.nodes, t1.nodes);
      ChainStep(t.nodes, x, n.parent.value);
      var c := Chain(t.nodes, n.parent.value);
      assert forall y :: y in c ==> y != x && t1.nodes[y] == t.nodes[y];
    }
  }

  // ---------------------------------------------------------------- grants

  /** A committed grant gives its recipient exactly its permission on everything of the folder
      that Trash does not hide. */
  lemma GrantReaches(t: Tables, g: GrantInput, sid: Id, now: Time, x: Id)
    requires IsForest(t.nodes) && KeyScopesOk(t) && GrantTx(t, g, sid, now).Ok? && ShareReplay(t.processed, g).Fresh?
    requires Below(t.nodes, x, g.node)
    ensures var t' := GrantTx(t, g, sid, now).value.tables;
            ShareGrant(t'.nodes, t'.shares, g.target, x)
              == if LiveUpTo(t.nodes, x, g.node) then Some(Access.Grant.Grant(g.node, g.permission)) else None
  {
    GrantKeepsScopes(t, g, sid, now);
    var t' := GrantTx(t, g, sid, now).value.tables;
    assert ActiveFor(t'.shares, sid, g.target, g.node);
    GrantIsTheShare(t', g.target, x, sid, g.node);
  }

  // ---------------------------------------------------------------- uploads

  /** A stored completion gives the file the metadata, and the version the blob, wrapped key and
      key, of the session it completes, all under one new revision. */
  lemma CommitStoresSession(t: Tables, w: Written, now: Time)
    requires StoredRows(CommitTx(t, w, now))
    ensures var t', s, c := CommitTx(t, w, now).value.tables, w.session, w.request;
            && s.target in t'.nodes && s.version in t'.versions
            && var n, v := t'.nodes[s.target], t'.versions[s.version];
               && n.current == Some(s.version) && n.metadata == s.metadata
               && n.metadataKeyVersion == s.metadataKeyVersion
               && n.metadataScope.GetOr(n.owner) == c.keyScope
               && v.node == s.target && v.blob == s.blob && v.wrappedKey == s.wrappedKey && v.scope == c.keyScope
               && v.keyVersion == c.keyVersion
               && n.revision == v.revision == |t'.log| == CommitTx(t, w, now).value.value.revision && v.createdAt == now
  {
  }

  /** The session carries what the client declared. */
  predicate Declared(session: Session, input: UploadInput) {
    && session.target == input.target && session.version == input.version && session.blob == input.blob
    && session.metadata == input.metadata && session.metadataKeyVersion == input.metadataKeyVersion
    && session.wrappedKey == input.wrappedKey
    && session.expectedRevision == input.expected && session.chunkCount == input.chunkCount
  }

  /** What the client declared when it opened the upload is what the completion works with. */
  lemma SessionKeepsDeclaration(cfg: Config, s: State, input: UploadInput, uid: Id, start: Time, es: seq<Event>)
    requires ReserveTx(s.tables, input, uid, start, cfg.limit, cfg.lifetime).Ok?
    requires StaysOpen(cfg, Step(cfg, s, Event(start, OnSessions(OpenUpload(input, uid)))), es, uid)
    ensures var session :=
              Run(cfg, Step(cfg, s, Event(start, OnSessions(OpenUpload(input, uid)))), es).tables.sessions[uid];
            Declared(session, input) && session.expiresAt == start + cfg.lifetime
  {
    OpenSessionUnchanged(cfg, Step(cfg, s, Event(start, OnSessions(OpenUpload(input, uid)))), es, uid);
  }

  /** What an upload leaves in the tables: the declaration of its opening, under one revision. */
  ghost predicate StoredAsDeclared(t: Tables, input: UploadInput, c: CompleteInput, now: Time) {
    && input.target in t.nodes && input.version in t.versions
    && var n, v := t.nodes[input.target], t.versions[input.version];
       && n.current == Some(input.version) && n.metadata == input.metadata
       && n.metadataKeyVersion == input.metadataKeyVersion && n.metadataScope.GetOr(n.owner) == c.keyScope
       && v.node == input.target && v.blob == input.blob && v.wrappedKey == input.wrappedKey
       && v.scope == c.keyScope && v.keyVersion == c.keyVersion && v.createdAt == now
       && n.revision == v.revision == |t.log|
  }

  lemma StoredDeclares(s: State, u: Id, input: UploadInput, now: Time)
    requires u in s.writing && Declared(s.writing[u].session, input)
    requires StoredRows(CommitTx(s.tables, s.writing[u], now))
    ensures StoredAsDeclared(BlobCommitted(s, u, now).tables, input, s.writing[u].request, now)
  {
    CommitStoresSession(s.tables, s.writing[u], now);
  }

  /** Opening and the run up to the completion. */
  lemma OpenedAsDeclared(cfg: Config, s: State, input: UploadInput, uid: Id, start: Time, es: seq<Event>)
    requires BlobInv(s) && ChunkInv(cfg, s) && Allowed(s, Event(start, OnSessions(OpenUpload(input, uid))))
    requires ReserveTx(s.tables, input, uid, start, cfg.limit, cfg.lifetime).Ok?
    requires var s0 := Step(cfg, s, Event(start, OnSessions(OpenUpload(input, uid))));
             AllowedRun(cfg, s0, es) && StaysOpen(cfg, s0, es, uid)
    ensures var s1 := Run(cfg, Step(cfg, s, Event(start, OnSessions(OpenUpload(input, uid)))), es);
            BlobInv(s1) && ChunkInv(cfg, s1) && uid in s1.tables.sessions && Declared(s1.tables.sessions[uid], input)
  {
    var open := Event(start, OnSessions(OpenUpload(input, uid)));
    SessionKeepsDeclaration(cfg, s, input, uid, start, es);
    StepKeepsBlobs(cfg, s, open);
    RunKeepsBlobs(cfg, Step(cfg, s, open), es);
    StepKeepsChunks(cfg, s, open);
    RunKeepsChunks(cfg, Step(cfg, s, open), es);
  }

  /** The completion and the run up to its commit. */
  lemma CompletedAsDeclared(cfg: Config, s: State, uid: Id, input: UploadInput, c: CompleteInput, now: Time, s1: State,
        es: seq<Event>)
    requires c.upload == uid && uid !in s.writing && s1 == Step(cfg, s, Event(now, OnCompletion(WriteBlobFile(c))))
    requires uid in s1.writing && AllowedRun(cfg, s1, es)
    requires uid in s.tables.sessions && Declared(s.tables.sessions[uid], input)
    requires forall e :: e in es ==> e.action != Crash && e.action != OnCompletion(CommitBlob(uid))
    ensures var m := Run(cfg, s1, es);
            uid in m.writing && Declared(m.writing[uid].session, input) && m.writing[uid].request == c
  {
    StartedWith(cfg, s, c, now);
    WritingStays(cfg, s1, es, uid);
  }

  lemma StartedWith(cfg: Config, s: State, c: CompleteInput, now: Time)
    requires c.upload !in s.writing && c.upload in BlobWritten(cfg, s, c, now).writing
    ensures var w := BlobWritten(cfg, s, c, now).writing[c.upload];
            c.upload in s.tables.sessions && w.session == s.tables.sessions[c.upload] && w.request == c
  {
    StartedCompletion(cfg, s, c, now);
  }

  /** The bytes of the stored version, seen from the declaration. */
  ghost predicate HoldsChunks(end: State, input: UploadInput, rows: map<(Id, nat), Chunk>, uid: Id) {
    && (forall i: nat :: i < input.chunkCount ==> (uid, i) in rows)
    && input.version in end.tables.versions && end.tables.versions[input.version].blob in end.blobFiles
    && end.blobFiles[end.tables.versions[input.version].blob] == Joined(rows, uid, input.chunkCount)
  }

  lemma CompletedBytes(cfg: Config, s: State, now: Time, input: UploadInput, c: CompleteInput, s1: State,
        es: seq<Event>, later: Time)
    requires ChunkInv(cfg, s) && BlobInv(s) && Allowed(s, Event(now, OnCompletion(WriteBlobFile(c))))
    requires s1 == Step(cfg, s, Event(now, OnCompletion(WriteBlobFile(c)))) && c.upload in s1.writing
    requires c.upload in s.tables.sessions && Declared(s.tables.sessions[c.upload], input)
    requires AllowedRun(cfg, s1, es)
    requires forall e :: e in es ==> e.action != Crash && e.action != OnCompletion(CommitBlob(c.upload))
    requires var m := Run(cfg, s1, es);
             c.upload in m.writing && StoredRows(CommitTx(m.tables, m.writing[c.upload], later))
    ensures HoldsChunks(BlobCommitted(Run(cfg, s1, es), c.upload, later), input, s.tables.chunks, c.upload)
  {
    CompletedUpload(cfg, s, now, c, s1, es, later);
  }

  lemma CompletionStoresDeclared(cfg: Config, s: State, now: Time, input: UploadInput, c: CompleteInput, s1: State,
        es: seq<Event>, later: Time)
    requires ChunkInv(cfg, s) && BlobInv(s) && Allowed(s, Event(now, OnCompletion(WriteBlobFile(c))))
    requires s1 == Step(cfg, s, Event(now, OnCompletion(WriteBlobFile(c)))) && c.upload in s1.writing
    requires c.upload in s.tables.sessions && Declared(s.tables.sessions[c.upload], input)
    requires AllowedRun(cfg, s1, es)
    requires forall e :: e in es ==> e.action != Crash && e.action != OnCompletion(CommitBlob(c.upload))
    requires var m := Run(cfg, s1, es);
             c.upload in m.writing && StoredRows(CommitTx(m.tables, m.writing[c.upload], later))
    ensures var end := BlobCommitted(Run(cfg, s1, es), c.upload, later);
            StoredAsDeclared(end.tables, input, c, later) && HoldsChunks(end, input, s.tables.chunks, c.upload)
  {
    CompletedBytes(cfg, s, now, input, c, s1, es, later);
    CompletedAsDeclared(cfg, s, c.upload, input, c, now, s1, es);
    StoredDeclares(Run(cfg, s1, es), c.upload, input, later);
  }

  /** From opening to commit, with anything but a crash in between: the file and its new version get
      exactly what was declared at the opening, and the version's bytes are the recorded chunks. */
  lemma UploadStoresDeclared(cfg: Config, s: State, input: UploadInput, uid: Id, start: Time, es: seq<Event>,
        s1: State, c: CompleteInput, t1: Time, s2: State, fs: seq<Event>, s3: State, t2: Time)
    requires BlobInv(s) && ChunkInv(cfg, s) && Allowed(s, Event(start, OnSessions(OpenUpload(input, uid))))
    requires ReserveTx(s.tables, input, uid, start, cfg.limit, cfg.lifetime).Ok?
    requires var s0 := Step(cfg, s, Event(start, OnSessions(OpenUpload(input, uid))));
             AllowedRun(cfg, s0, es) && StaysOpen(cfg, s0, es, uid) && s1 == Run(cfg, s0, es)
    requires c.upload == uid && Allowed(s1, Event(t1, OnCompletion(WriteBlobFile(c))))
    requires s2 == Step(cfg, s1, Event(t1, OnCompletion(WriteBlobFile(c)))) && uid in s2.writing
    requires AllowedRun(cfg, s2, fs) && s3 == Run(cfg, s2, fs)
    requires forall e :: e in fs ==> e.action != Crash && e.action != OnCompletion(CommitBlob(uid))
    requires uid in s3.writing && StoredRows(CommitTx(s3.tables, s3.writing[uid], t2))
    ensures var end := BlobCommitted(s3, uid, t2);
            StoredAsDeclared(end.tables, input, c, t2) && HoldsChunks(end, input, s1.tables.chunks, uid)
  {
    OpenedAsDeclared(cfg, s, input, uid, start, es);
    CompletionStoresDeclared(cfg, s1, t1, input, c, s2, fs, t2);
  }
}
