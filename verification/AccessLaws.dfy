/** What the key-scope invariant means for the people a folder is shared with: one share decides
    everything below it, revoking it cuts off its whole subtree, and browsing finds exactly the
    nodes a lookup returns. */
module AccessLaws {
  import opened Common
  import opened Schema
  import opened Forest
  import opened Access
  import opened Nodes
  import opened Sharing
  import opened Trash
  import opened Uploads
  import opened Server
  import opened ChangeLog
  import opened KeyScopes

  // ---------------------------------------------------------------- one share on every chain

  /** Two active shares that reach one node for one recipient are the same share. */
  lemma OneShareReaches(t: Tables, user: Id, x: Id, a: Id, f: Id, b: Id, g: Id)
    requires IsForest(t.nodes) && KeyScopesOk(t)
    requires ActiveFor(t.shares, a, user, f) && Below(t.nodes, x, f)
    requires ActiveFor(t.shares, b, user, g) && Below(t.nodes, x, g)
    ensures a == b && f == g
  {
    assert SharePlaced(t.nodes, t.folderKeys, t.shares[a]) && SharePlaced(t.nodes, t.folderKeys, t.shares[b]);
    AncestorsComparable(t.nodes, x, f, g);
  }

  /** Nothing on the way from x up to its ancestor root is in Trash. */
  ghost predicate LiveUpTo(ns: map<Id, Node>, x: Id, root: Id) {
    exists k: nat :: LiveUpToAt(ns, Chain(ns, x), root, k)
  }

  ghost predicate LiveUpToAt(ns: map<Id, Node>, c: seq<Id>, root: Id, k: nat)
    requires forall y :: y in c ==> y in ns
  {
    k < |c| && c[k] == root && forall i :: 0 <= i <= k ==> ns[c[i]].deletedAt.None?
  }

  /** A grant reaches x exactly when the share that lies on its chain is not hidden by Trash;
      its permission is that share's. No second share can shadow it. */
  lemma GrantIsTheShare(t: Tables, user: Id, x: Id, sid: Id, f: Id)
    requires IsForest(t.nodes) && KeyScopesOk(t)
    requires ActiveFor(t.shares, sid, user, f) && Below(t.nodes, x, f)
    ensures ShareGrant(t.nodes, t.shares, user, x)
         == if LiveUpTo(t.nodes, x, f) then Some(Access.Grant.Grant(f, t.shares[sid].permission)) else None
  {
    var ns, c := t.nodes, Chain(t.nodes, x);
    if ShareGrant(ns, t.shares, user, x).Some? {
      var k := GrantPosition(ns, t.shares, user, c);
      OneShareReaches(t, user, x, sid, f, ShareOn(t.shares, user, c[k]).value, c[k]);
      assert LiveUpToAt(ns, c, f, k);
      GrantFound(ns, t.shares, user, c, k);
    } else if LiveUpTo(ns, x, f) {
      var k: nat :| LiveUpToAt(ns, c, f, k);
      forall i | 0 <= i < k ensures ShareOn(t.shares, user, c[i]).None? {
        if ShareOn(t.shares, user, c[i]).Some? {
          OneShareReaches(t, user, x, sid, f, ShareOn(t.shares, user, c[i]).value, c[i]);
          PathDistinct(ns, c);
        }
      }
      GrantFound(ns, t.shares, user, c, k);
    }
  }

  // ---------------------------------------------------------------- revocation

  ghost predicate NoShareOn(shares: map<Id, Share>, user: Id, f: Id) {
    forall sid :: !ActiveFor(shares, sid, user, f)
  }

  /** The event is a new grant of the folder to the user. */
  predicate Grants(e: Event, user: Id, f: Id) {
    e.action.OnShares? && e.action.sharing.Grant? && e.action.sharing.grant.node == f
      && e.action.sharing.grant.target == user
  }

  /** Without an active share of the folder, no node at or below it can be read or written by
      the recipient: not looked up, listed, changed, nor given a new version. */
  lemma CutOff(t: Tables, user: Id, f: Id, x: Id)
    requires IsForest(t.nodes) && KeyScopesOk(t)
    requires NoShareOn(t.shares, user, f) && Keyed(t.folderKeys, f) && Below(t.nodes, x, f) && t.nodes[f].owner != user
    ensures ShareGrant(t.nodes, t.shares, user, x).None?
    ensures Get(t, user, x) == Err(Forbidden) && ReadableDirectory(t, user, x).Fail?
    ensures AuthorizeWrite(t, user, x) == Err(Forbidden) && AuthorizeFileWrite(t, user, x) == Err(Forbidden)
  {
    BelowOwner(t.nodes, x, f);
    if ShareGrant(t.nodes, t.shares, user, x).Some? {
      var k := GrantPosition(t.nodes, t.shares, user, Chain(t.nodes, x));
      var g := Chain(t.nodes, x)[k];
      var sid := ShareOn(t.shares, user, g).value;
      assert SharePlaced(t.nodes, t.folderKeys, t.shares[sid]);
      AncestorsComparable(t.nodes, x, f, g);
    }
  }

  lemma SharingStaysCutOff(t: Tables, a: SharingAction, now: Time, user: Id, f: Id)
    requires NoShareOn(t.shares, user, f)
    requires !(a.Grant? && a.grant.node == f && a.grant.target == user)
    ensures NoShareOn(SharingTables(t, a, now).shares, user, f)
  {
    var t' := SharingTables(t, a, now);
    forall sid ensures !ActiveFor(t'.shares, sid, user, f) { assert !ActiveFor(t.shares, sid, user, f); }
  }

  /** Only the sharing service and a purge write the shares table. */
  lemma SharesFrame(cfg: Config, s: State, e: Event)
    requires !e.action.OnShares?
    ensures forall sid ::
              sid in Step(cfg, s, e).tables.shares ==>
                sid in s.tables.shares && Step(cfg, s, e).tables.shares[sid] == s.tables.shares[sid]
  {
    match e.action {
      case OnNodes(a) => NodesFrame(s.tables, a, e.now);
      case OnRetention(a) => RetentionFrame(s, a, e.now);
      case OnCompletion(a) => CompletionFrame(cfg, s, a, e.now);
      case _ =>
    }
  }

  lemma PurgedFrame(s: State, id: Id, cutoff: Time, order: seq<Id>, now: Time)
    ensures var t, t' := s.tables, TrashPurged(s, id, cutoff, order, now).tables;
            && (forall sid :: sid in t'.shares ==> sid in t.shares && t'.shares[sid] == t.shares[sid])
            && (forall k :: k in t.folderKeys && k.0 in t'.nodes ==> k in t'.folderKeys)
            && (forall x :: x in t'.nodes ==> x in t.nodes && t'.nodes[x] == t.nodes[x])
  {
    var gone := TrashSubtree(s.tables.nodes, id, cutoff);
    if Enumerates(order, gone) {
      assert forall x :: x in order ==> x in gone;
      PurgedTablesFrame(s.tables, gone, order, now);
    }
  }

  lemma PurgedTablesFrame(t: Tables, gone: set<Id>, order: seq<Id>, now: Time)
    requires gone <= t.nodes.Keys && forall x :: x in order ==> x in t.nodes
    ensures var t' := PurgedTables(t, gone, order, now);
            && (forall sid :: sid in t'.shares ==> sid in t.shares && t'.shares[sid] == t.shares[sid])
            && (forall k :: k in t.folderKeys && k.0 in t'.nodes ==> k in t'.folderKeys)
            && (forall x :: x in t'.nodes ==> x in t.nodes && t'.nodes[x] == t.nodes[x])
  {
  }

  /** Retention removes shares, and the keys of removed folders only. */
  lemma RetentionFrame(s: State, a: RetentionAction, now: Time)
    ensures var t, t' := s.tables, ApplyRetention(s, a, now).tables;
            && (forall sid :: sid in t'.shares ==> sid in t.shares && t'.shares[sid] == t.shares[sid])
            && (forall k :: k in t.folderKeys && k.0 in t'.nodes ==> k in t'.folderKeys)
            && (forall x :: x in t'.nodes ==> x in t.nodes && t'.nodes[x] == t.nodes[x])
  {
    match a {
      case DiscardPurgedFiles(id, cutoff) =>
      case PurgeTrash(id, cutoff, order) => PurgedFrame(s, id, cutoff, order, now);
      case PurgeOwn(owner, id, order) =>
        if OwnEntry(s.tables.nodes, owner, id) { PurgedFrame(s, id, s.tables.nodes[id].deletedAt.value, order, now); }
      case Prune(maxVersions, cutoff) =>
      case ForgetOperations =>
    }
  }

  /** A node never changes hands. */
  ghost predicate OwnersKept(ns: map<Id, Node>, ns': map<Id, Node>) {
    forall x :: x in ns && x in ns' ==> ns'[x].owner == ns[x].owner
  }

  lemma {:induction false} RekeyFrame(t: Tables, actor: Id, items: seq<RekeyItem>, now: Time)
    requires RekeyAll(t, actor, items, now).Ok?
    ensures var t' := RekeyAll(t, actor, items, now).value;
            t' == t.(nodes := t'.nodes, log := t'.log, versions := t'.versions) && OwnersKept(t.nodes, t'.nodes)
            && t'.nodes.Keys == t.nodes.Keys
    decreases |items|
  {
    if items != [] {
      RewrappedFrame(t, actor, t.nodes[items[0].node].owner, items[0].node, items[0].versions);
      RekeyFrame(RekeyOne(t, actor, items[0], now).value, actor, items[1..], now);
    }
  }

  /** A node request writes these tables only; rekeying also rewrites versions. */
  ghost predicate NodeTablesOnly(t: Tables, t': Tables) {
    t' == t.(nodes := t'.nodes, log := t'.log, processed := t'.processed)
  }

  lemma CreateFrame(t: Tables, c: CreateInput, now: Time)
    ensures var t' := After(t, CreateTx(t, c, now)); NodeTablesOnly(t, t') && OwnersKept(t.nodes, t'.nodes)
  {
  }

  lemma UpdateFrame(t: Tables, u: UpdateInput, now: Time)
    ensures var t' := After(t, UpdateTx(t, u, now)); NodeTablesOnly(t, t') && OwnersKept(t.nodes, t'.nodes)
  {
  }

  lemma DeleteFrame(t: Tables, q: NodeRequest, expected: nat, now: Time)
    ensures var t' := After(t, DeleteTx(t, q, expected, now)); NodeTablesOnly(t, t') && OwnersKept(t.nodes, t'.nodes)
  {
  }

  lemma RestoreFrame(t: Tables, q: NodeRequest, now: Time)
    ensures var t' := After(t, RestoreTx(t, q, now)); NodeTablesOnly(t, t') && OwnersKept(t.nodes, t'.nodes)
  {
  }

  lemma NodesFrame(t: Tables, a: NodeAction, now: Time)
    ensures var t' := NodeTables(t, a, now);
            && NodeTablesOnly(t, t'.(versions := t.versions)) && (!a.RekeyNodes? ==> t'.versions == t.versions)
            && OwnersKept(t.nodes, t'.nodes)
  {
    match a {
      case CreateNode(c) => CreateFrame(t, c, now);
      case UpdateNode(u) => UpdateFrame(t, u, now);
      case DeleteNode(q, expected) => DeleteFrame(t, q, expected, now);
      case RestoreNode(q) => RestoreFrame(t, q, now);
      case RekeyNodes(k) => if RekeyTx(t, k, now).Ok? { RekeyFrame(t, k.actor, k.items, now); }
    }
  }

  lemma CompletionFrame(cfg: Config, s: State, a: CompletionAction, now: Time)
    ensures var t, t' := s.tables, ApplyCompletion(cfg, s, a, now).tables;
            t' == t.(nodes := t'.nodes, log := t'.log, processed := t'.processed, versions := t'.versions,
                     blobs := t'.blobs, sessions := t'.sessions)
            && OwnersKept(t.nodes, t'.nodes)
  {
    if a.CommitBlob? && a.session in s.writing { CommitFrame(s.tables, s.writing[a.session], now); }
  }

  lemma CommitFrame(t: Tables, w: Written, now: Time)
    ensures OwnersKept(t.nodes, After(t, CommitTx(t, w, now)).nodes)
  {
  }

  lemma {:induction false} RunStaysCutOff(cfg: Config, s: State, es: seq<Event>, user: Id, f: Id)
    requires NoShareOn(s.tables.shares, user, f) && GrantFree(es, user, f)
    ensures NoShareOn(Run(cfg, s, es).tables.shares, user, f)
    decreases |es|
  {
    if es != [] {
      var m, e := Run(cfg, s, es[..|es| - 1]), es[|es| - 1];
      assert e in es;
      RunStaysCutOff(cfg, s, es[..|es| - 1], user, f);
      if e.action.OnShares? {
        SharingStaysCutOff(m.tables, e.action.sharing, e.now, user, f);
      } else {
        SharesFrame(cfg, m, e);
        forall sid
          ensures !ActiveFor(Step(cfg, m, e).tables.shares, sid, user, f)
        {
          assert !ActiveFor(m.tables.shares, sid, user, f);
        }
      }
    }
  }

  /** No lookup, listing, change or new version of x succeeds for the user. */
  ghost predicate Unreachable(t: Tables, user: Id, x: Id)
    requires x in t.nodes
  {
    && ShareGrant(t.nodes, t.shares, user, x).None?
    && Get(t, user, x) == Err(Forbidden) && ReadableDirectory(t, user, x).Fail?
    && AuthorizeWrite(t, user, x) == Err(Forbidden) && AuthorizeFileWrite(t, user, x) == Err(Forbidden)
  }

  lemma RevokeRemovesShare(t: Tables, owner: Id, device: Id, sid: Id, now: Time)
    requires SharesUnique(t.shares) && sid in t.shares && RevokeTx(t, owner, device, sid, now).Ok?
    requires t.shares[sid].revokedAt.None? || NoShareOn(t.shares, t.shares[sid].target, t.shares[sid].node)
    ensures NoShareOn(RevokeTx(t, owner, device, sid, now).value.tables.shares, t.shares[sid].target,
                      t.shares[sid].node)
  {
    var h, t' := t.shares[sid], RevokeTx(t, owner, device, sid, now).value.tables;
    forall a ensures !ActiveFor(t'.shares, a, h.target, h.node) {
      assert ActiveFor(t'.shares, a, h.target, h.node) ==> ActiveFor(t.shares, a, h.target, h.node);
      assert h.revokedAt.None? ==> ActiveFor(t.shares, sid, h.target, h.node);
    }
  }

  /** x lies at or below the keyed folder f of somebody else's. */
  ghost predicate InSharedFolder(t: Tables, user: Id, f: Id, x: Id) {
    f in t.nodes && Keyed(t.folderKeys, f) && t.nodes[f].owner != user && Below(t.nodes, x, f)
  }

  /** Nothing in the run grants the folder to the user. */
  ghost predicate GrantFree(es: seq<Event>, user: Id, f: Id) {
    forall e :: e in es ==> !Grants(e, user, f)
  }

  lemma CutOffDuring(cfg: Config, s: State, es: seq<Event>, user: Id, f: Id, x: Id)
    requires ScopesInv(s.tables) && AllowedRun(cfg, s, es) && NoShareOn(s.tables.shares, user, f)
    requires GrantFree(es, user, f)
    requires InSharedFolder(Run(cfg, s, es).tables, user, f, x)
    ensures x in Run(cfg, s, es).tables.nodes && Unreachable(Run(cfg, s, es).tables, user, x)
  {
    RunKeepsScopes(cfg, s, es);
    RunStaysCutOff(cfg, s, es, user, f);
    CutOff(Run(cfg, s, es).tables, user, f, x);
  }

  lemma KeysGrow(t: Tables, a: SharingAction, now: Time)
    ensures forall k :: k in t.folderKeys ==> k in SharingTables(t, a, now).folderKeys
  {
  }

  lemma KeysFrame(cfg: Config, s: State, e: Event)
    ensures var t, t' := s.tables, Step(cfg, s, e).tables;
            forall k :: k in t.folderKeys && k.0 in t'.nodes ==> k in t'.folderKeys
  {
    match e.action {
      case OnNodes(a) => NodesFrame(s.tables, a, e.now);
      case OnShares(a) => KeysGrow(s.tables, a, e.now);
      case OnSessions(a) =>
      case OnCompletion(a) => CompletionFrame(cfg, s, a, e.now);
      case OnRetention(a) => RetentionFrame(s, a, e.now);
      case OnBlobs(a) =>
      case ChangeAccounts(users, devices) =>
      case Crash =>
    }
  }

  /** The node table after an action: three services write it. */
  function NodesAfter(cfg: Config, s: State, a: Action, now: Time): map<Id, Node> {
    match a
    case OnNodes(n) => NodeTables(s.tables, n, now).nodes
    case OnCompletion(c) => ApplyCompletion(cfg, s, c, now).tables.nodes
    case OnRetention(r) => ApplyRetention(s, r, now).tables.nodes
    case _ => s.tables.nodes
  }

  lemma StepNodes(cfg: Config, s: State, e: Event)
    ensures Step(cfg, s, e).tables.nodes == NodesAfter(cfg, s, e.action, e.now)
  {
    match e.action {
      case OnNodes(a) =>
      case OnShares(a) => assert SharingTables(s.tables, a, e.now).nodes == s.tables.nodes;
      case OnSessions(a) => assert ApplySession(cfg, s, a, e.now).tables.nodes == s.tables.nodes;
      case OnCompletion(a) =>
      case OnRetention(a) =>
      case OnBlobs(a) => assert ApplyCollection(cfg, s, a, e.now).tables.nodes == s.tables.nodes;
      case ChangeAccounts(users, devices) =>
      case Crash =>
    }
  }

  lemma OwnersFrame(cfg: Config, s: State, e: Event)
    ensures OwnersKept(s.tables.nodes, Step(cfg, s, e).tables.nodes)
  {
    StepNodes(cfg, s, e);
    match e.action {
      case OnNodes(a) => NodesFrame(s.tables, a, e.now);
      case OnCompletion(a) => CompletionFrame(cfg, s, a, e.now);
      case OnRetention(a) => RetentionFrame(s, a, e.now);
      case _ =>
    }
  }

  lemma KeyedFolderStep(cfg: Config, s: State, e: Event, f: Id)
    requires Keyed(s.tables.folderKeys, f) && f in Step(cfg, s, e).tables.nodes
    ensures Keyed(Step(cfg, s, e).tables.folderKeys, f)
  {
    KeysFrame(cfg, s, e);
    var k :| k in s.tables.folderKeys && k.0 == f;
    assert k in Step(cfg, s, e).tables.folderKeys;
  }

  /** The folder exists in every state of the run. */
  ghost predicate FolderStays(cfg: Config, s: State, es: seq<Event>, f: Id)
    decreases |es|
  {
    f in Run(cfg, s, es).tables.nodes && (es != [] ==> FolderStays(cfg, s, es[..|es| - 1], f))
  }

  /** As long as a keyed folder exists it keeps its keys and its owner: its keys can go only with
      the folder itself. */
  lemma {:induction false} KeysLastAsLongAsFolder(cfg: Config, s: State, es: seq<Event>, f: Id)
    requires Keyed(s.tables.folderKeys, f) && FolderStays(cfg, s, es, f)
    ensures Keyed(Run(cfg, s, es).tables.folderKeys, f)
    ensures f in s.tables.nodes && Run(cfg, s, es).tables.nodes[f].owner == s.tables.nodes[f].owner
    decreases |es|
  {
    if es != [] {
      var m := Run(cfg, s, es[..|es| - 1]);
      KeysLastAsLongAsFolder(cfg, s, es[..|es| - 1], f);
      KeyedFolderStep(cfg, m, es[|es| - 1], f);
      OwnersFrame(cfg, m, es[|es| - 1]);
    }
  }

  lemma AfterRevoke(cfg: Config, s: State, owner: Id, device: Id, sid: Id, now: Time)
    requires ScopesInv(s.tables) && s.clock <= now && RevokeTx(s.tables, owner, device, sid, now).Ok?
    requires sid in s.tables.shares
    requires s.tables.shares[sid].revokedAt.None?
             || NoShareOn(s.tables.shares, s.tables.shares[sid].target, s.tables.shares[sid].node)
    ensures var s1, h := Step(cfg, s, Event(now, OnShares(RevokeShare(owner, device, sid)))), s.tables.shares[sid];
            && ScopesInv(s1.tables) && NoShareOn(s1.tables.shares, h.target, h.node)
            && Keyed(s1.tables.folderKeys, h.node) && h.node in s1.tables.nodes
            && s1.tables.nodes[h.node].owner != h.target
  {
    StepKeepsScopes(cfg, s, Event(now, OnShares(RevokeShare(owner, device, sid))));
    RevokedTables(s.tables, owner, device, sid, now);
  }

  lemma RevokedTables(t: Tables, owner: Id, device: Id, sid: Id, now: Time)
    requires KeyScopesOk(t) && sid in t.shares && RevokeTx(t, owner, device, sid, now).Ok?
    requires t.shares[sid].revokedAt.None? || NoShareOn(t.shares, t.shares[sid].target, t.shares[sid].node)
    ensures var t', h := SharingTables(t, RevokeShare(owner, device, sid), now), t.shares[sid];
            && NoShareOn(t'.shares, h.target, h.node) && Keyed(t'.folderKeys, h.node)
            && h.node in t'.nodes && t'.nodes[h.node].owner != h.target
  {
    assert SharePlaced(t.nodes, t.folderKeys, t.shares[sid]);
    RevokeRemovesShare(t, owner, device, sid, now);
  }

  /** Revocation holds: from a committed Revoke of a share until the next grant of the same
      folder to the same user, whatever else happens in between, nothing at or below the folder
      is reachable by that user for as long as the folder exists. */
  lemma RevokedUntilGranted(cfg: Config, s: State, owner: Id, device: Id, sid: Id, now: Time, s1: State,
        es: seq<Event>, x: Id)
    requires ScopesInv(s.tables) && s.clock <= now
    requires s1 == Step(cfg, s, Event(now, OnShares(RevokeShare(owner, device, sid))))
    requires RevokeTx(s.tables, owner, device, sid, now).Ok? && sid in s.tables.shares
    requires s.tables.shares[sid].revokedAt.None?
             || NoShareOn(s.tables.shares, s.tables.shares[sid].target, s.tables.shares[sid].node)
    requires AllowedRun(cfg, s1, es) && GrantFree(es, s.tables.shares[sid].target, s.tables.shares[sid].node)
    requires FolderStays(cfg, s1, es, s.tables.shares[sid].node)
             && Below(Run(cfg, s1, es).tables.nodes, x, s.tables.shares[sid].node)
    ensures x in Run(cfg, s1, es).tables.nodes && Unreachable(Run(cfg, s1, es).tables, s.tables.shares[sid].target, x)
  {
    var h := s.tables.shares[sid];
    AfterRevoke(cfg, s, owner, device, sid, now);
    KeysLastAsLongAsFolder(cfg, s1, es, h.node);
    CutOffDuring(cfg, s1, es, h.target, h.node, x);
  }

  // ---------------------------------------------------------------- browsing

  /** A way through the listings: from the root listing down, one directory at a time. */
  ghost predicate Browse(t: Tables, user: Id, path: seq<Id>) {
    |path| > 0 && InRootListing(t, user, path[0])
      && forall i {:trigger BrowseStep(t, user, path, i)} :: 0 <= i < |path| - 1 ==> BrowseStep(t, user, path, i)
  }

  ghost predicate BrowseStep(t: Tables, user: Id, path: seq<Id>, i: int)
    requires 0 <= i < |path| - 1
  {
    InChildListing(t, user, path[i], path[i + 1])
  }

  /** Everything on a way into another owner's tree may be looked up. */
  lemma {:induction false} BrowsedIsReadable(t: Tables, user: Id, path: seq<Id>)
    requires IsForest(t.nodes) && Browse(t, user, path)
    requires path[|path| - 1] in t.nodes && t.nodes[path[|path| - 1]].owner != user
    ensures var x := path[|path| - 1]; t.nodes[x].deletedAt.None? && ShareGrant(t.nodes, t.shares, user, x).Some?
    decreases |path|
  {
    var n := |path| - 1;
    var x := path[n];
    if n > 0 {
      assert BrowseStep(t, user, path, n - 1);
      var dir := path[n - 1];
      assert FollowsParent(t.nodes, x);
      ChainStep(t.nodes, x, dir);
      assert Browse(t, user, path[..n]) by {
        forall i | 0 <= i < n - 1 ensures BrowseStep(t, user, path[..n], i) { assert BrowseStep(t, user, path, i); }
      }
      BrowsedIsReadable(t, user, path[..n]);
      assert Chain(t.nodes, x)[1..] == Chain(t.nodes, dir);
    }
  }

  /** The way down from the share root to a readable node. */
  lemma {:induction false} ReadableIsBrowsed(t: Tables, user: Id, x: Id) returns (path: seq<Id>)
    requires IsForest(t.nodes) && x in t.nodes && t.nodes[x].owner != user
    requires ShareGrant(t.nodes, t.shares, user, x).Some?
    ensures Browse(t, user, path) && path[|path| - 1] == x
    decreases |Chain(t.nodes, x)|
  {
    var c := Chain(t.nodes, x);
    if ShareOn(t.shares, user, x).Some? {
      path := [x];
    } else {
      assert IsPath(t.nodes, c) && Link(t.nodes, c, 0);
      assert GrantAlong(t.nodes, t.shares, user, c[1..]).Some?;
      var dir := t.nodes[x].parent.value;
      ChainStep(t.nodes, x, dir);
      assert c[1..] == Chain(t.nodes, dir);
      assert FollowsParent(t.nodes, x);
      var before := ReadableIsBrowsed(t, user, dir);
      path := before + [x];
      forall i | 0 <= i < |path| - 1 ensures BrowseStep(t, user, path, i) {
        if i < |before| - 1 { assert BrowseStep(t, user, before, i); }
      }
    }
  }

  /** Browsing agrees with lookup, for every tree, Trash state and set of shares: a node of
      another owner is met by listing directories exactly when looking it up succeeds. */
  lemma BrowsingAgreesWithLookup(t: Tables, user: Id, x: Id)
    requires IsForest(t.nodes) && (x in t.nodes ==> t.nodes[x].owner != user)
    ensures (exists path :: Browse(t, user, path) && path[|path| - 1] == x) <==> Get(t, user, x).Ok?
  {
    if path :| Browse(t, user, path) && path[|path| - 1] == x {
      if |path| > 1 { assert BrowseStep(t, user, path, |path| - 2); }
      BrowsedIsReadable(t, user, path);
    }
    if Get(t, user, x).Ok? {
      var path := ReadableIsBrowsed(t, user, x);
    }
  }
}
