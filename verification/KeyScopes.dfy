/** Folder keys, shares and envelopes: no stored content ever loses its key, key scopes stay
    disjoint, and a recipient has at most one active share on any chain of folders. */
module KeyScopes {
  import opened Common
  import opened Schema
  import opened Forest
  import opened Access
  import opened Nodes
  import opened Sharing
  import opened Trash
  import opened Uploads
  import opened Collector
  import opened Server
  import opened ChangeLog

  // ---------------------------------------------------------------- invariant

  /** A folder's keys belong to the folder's owner, and versions start at 1. */
  ghost predicate KeysOwned(ns: map<Id, Node>, keys: map<(Id, int), FolderKey>) {
    forall k :: k in keys ==> k.1 >= 1 && (k.0 in ns ==> ns[k.0].kind == Directory && ns[k.0].owner == keys[k].owner)
  }

  /** No keyed folder lies strictly below another. */
  ghost predicate ScopesDisjoint(ns: map<Id, Node>, keys: map<(Id, int), FolderKey>) {
    forall f, g :: g in ns && Keyed(keys, f) && Keyed(keys, g) && Below(ns, g, f) ==> f == g
  }

  /** Every share sits on a keyed directory of its owner, who is not the recipient. */
  ghost predicate SharePlaced(ns: map<Id, Node>, keys: map<(Id, int), FolderKey>, h: Share) {
    && h.node in ns && ns[h.node].kind == Directory && ns[h.node].owner == h.owner
    && h.owner != h.target && Keyed(keys, h.node)
  }

  ghost predicate SharesPlaced(ns: map<Id, Node>, keys: map<(Id, int), FolderKey>, shares: map<Id, Share>) {
    forall sid :: sid in shares ==> SharePlaced(ns, keys, shares[sid])
  }

  /** At most one active share of a folder to a recipient. */
  ghost predicate SharesUnique(shares: map<Id, Share>) {
    forall a, b, user, x :: ActiveFor(shares, a, user, x) && ActiveFor(shares, b, user, x) ==> a == b
  }

  /** Every envelope names an existing version of its folder's key under the share's owner. */
  ghost predicate EnvelopesKeyed(keys: map<(Id, int), FolderKey>, shares: map<Id, Share>,
        envelopes: map<(Id, Id, int), Envelope>)
  {
    forall k :: k in envelopes
      ==> k.0 in shares && (shares[k.0].node, k.2) in keys && keys[(shares[k.0].node, k.2)].owner == shares[k.0].owner
  }

  /** Every node's metadata key exists, under the node's owner. */
  ghost predicate MetadataKeyed(ns: map<Id, Node>, keys: map<(Id, int), FolderKey>) {
    forall x :: x in ns ==> KeyHeld(keys, ns[x].owner, ns[x].metadataScope.GetOr(ns[x].owner), ns[x].metadataKeyVersion)
  }

  /** Every file version belongs to a node, and its key exists under that node's owner. */
  ghost predicate VersionsKeyed(ns: map<Id, Node>, keys: map<(Id, int), FolderKey>, vs: map<Id, Version>) {
    forall v :: v in vs ==> vs[v].node in ns && KeyHeld(keys, ns[vs[v].node].owner, vs[v].scope, vs[v].keyVersion)
  }

  ghost predicate KeyScopesOk(t: Tables) {
    && KeysOwned(t.nodes, t.folderKeys)
    && ScopesDisjoint(t.nodes, t.folderKeys)
    && SharesPlaced(t.nodes, t.folderKeys, t.shares)
    && SharesUnique(t.shares)
    && EnvelopesKeyed(t.folderKeys, t.shares, t.envelopes)
    && MetadataKeyed(t.nodes, t.folderKeys)
    && VersionsKeyed(t.nodes, t.folderKeys, t.versions)
  }

  ghost predicate ScopeTablesSame(t: Tables, t': Tables) {
    t'.nodes == t.nodes && t'.folderKeys == t.folderKeys && t'.shares == t.shares && t'.envelopes == t.envelopes
      && t'.versions == t.versions
  }

  // ---------------------------------------------------------------- rows rewritten in place

  /** Only the row x changed among the tables that key scopes depend on. */
  ghost predicate RowOnly(t: Tables, t': Tables, x: Id) {
    && x in t'.nodes && t'.nodes == t.nodes[x := t'.nodes[x]]
    && t'.folderKeys == t.folderKeys && t'.shares == t.shares && t'.envelopes == t.envelopes
    && t'.versions == t.versions
    && (x in t.nodes ==> t'.nodes[x].owner == t.nodes[x].owner && t'.nodes[x].kind == t.nodes[x].kind)
  }

  ghost predicate NodeKeyed(keys: map<(Id, int), FolderKey>, n: Node) {
    KeyHeld(keys, n.owner, n.metadataScope.GetOr(n.owner), n.metadataKeyVersion)
  }

  /** One node row is rewritten; its new metadata key exists; keyed folders stay disjoint. */
  lemma RowKeepsScopes(t: Tables, t': Tables, x: Id)
    requires KeyScopesOk(t) && RowOnly(t, t', x) && NodeKeyed(t.folderKeys, t'.nodes[x])
    requires x !in t.nodes ==> KeysOwned(t'.nodes, t'.folderKeys)
    requires ScopesDisjoint(t'.nodes, t'.folderKeys)
    ensures KeyScopesOk(t')
  {
    forall k | k in t'.folderKeys
      ensures k.1 >= 1 && (k.0 in t'.nodes
                           ==> t'.nodes[k.0].kind == Directory && t'.nodes[k.0].owner == t'.folderKeys[k].owner)
    {
      assert Keyed(t.folderKeys, k.0);
    }
    forall sid | sid in t'.shares ensures SharePlaced(t'.nodes, t'.folderKeys, t'.shares[sid]) {
      assert SharePlaced(t.nodes, t.folderKeys, t.shares[sid]);
    }
  }

  lemma SameChainsDisjoint(ns: map<Id, Node>, ns': map<Id, Node>, keys: map<(Id, int), FolderKey>)
    requires ScopesDisjoint(ns, keys)
    requires forall g :: g in ns' && Keyed(keys, g) ==> g in ns && Chain(ns', g) == Chain(ns, g)
    ensures ScopesDisjoint(ns', keys)
  {
  }

  lemma SameParentKeepsScopes(t: Tables, t': Tables, x: Id)
    requires IsForest(t.nodes) && KeyScopesOk(t) && x in t.nodes && RowOnly(t, t', x)
    requires t'.nodes[x].parent == t.nodes[x].parent && NodeKeyed(t.folderKeys, t'.nodes[x])
    ensures KeyScopesOk(t')
  {
    SameShapeForest(t.nodes, t'.nodes);
    SameChainsDisjoint(t.nodes, t'.nodes, t.folderKeys);
    RowKeepsScopes(t, t', x);
  }

  lemma CreateRow(t: Tables, c: CreateInput, now: Time)
    ensures var t' := After(t, CreateTx(t, c, now));
            ScopeTablesSame(t, t') || NewLeaf(t, t', c.id)
  {
    if CreateTx(t, c, now).Ok? && ReplayOf(t.processed, c.operation, c.actor, NodeCreate).Fresh? {
      var place := Place(t, c.actor, c.parent).value;
      AcceptedScope(t.folderKeys, place.owner, c.actor, place.writeRoot, c.scope.GetOr(place.owner), c.keyVersion);
    }
  }

  /** The row of a new node under its parent. */
  ghost predicate NewLeaf(t: Tables, t': Tables, x: Id) {
    && x !in t.nodes && RowOnly(t, t', x) && NodeKeyed(t.folderKeys, t'.nodes[x])
    && (var p := t'.nodes[x].parent;
        p.Some? ==>
          p.value in t.nodes && t.nodes[p.value].kind == Directory && t.nodes[p.value].owner == t'.nodes[x].owner)
  }

  /** The keys kept under the ID are those of a directory with this owner, and no keyed folder
      lies above: what the ID of a new node must satisfy when keys outlived an earlier folder. */
  ghost predicate FitsRetainedKeys(ns: map<Id, Node>, keys: map<(Id, int), FolderKey>, x: Id, n: Node) {
    Keyed(keys, x) ==>
      && n.kind == Directory && (forall k :: k in keys && k.0 == x ==> keys[k].owner == n.owner)
      && (n.parent.Some? ==> NearestKeyedFolder(ns, keys, n.parent.value).None?)
  }

  lemma LeafKeepsScopes(t: Tables, t': Tables, x: Id)
    requires IsForest(t.nodes) && KeyScopesOk(t) && NewLeaf(t, t', x)
    ensures KeyScopesOk(t') <==> FitsRetainedKeys(t.nodes, t.folderKeys, x, t'.nodes[x])
  {
    LeafForest(t.nodes, x, t'.nodes[x]);
    if FitsRetainedKeys(t.nodes, t.folderKeys, x, t'.nodes[x]) {
      LeafDisjoint(t.nodes, t'.nodes, t.folderKeys, x);
      assert KeysOwned(t'.nodes, t.folderKeys) by {
        forall k | k in t.folderKeys && k.0 == x
          ensures t'.nodes[x].kind == Directory && t'.nodes[x].owner == t.folderKeys[k].owner
        {
          assert Keyed(t.folderKeys, x);
        }
      }
      RowKeepsScopes(t, t', x);
    }
    if KeyScopesOk(t') { LeafFits(t.nodes, t'.nodes, t.folderKeys, x); }
  }

  lemma LeafDisjoint(ns: map<Id, Node>, ns': map<Id, Node>, keys: map<(Id, int), FolderKey>, x: Id)
    requires ScopesDisjoint(ns, keys) && x in ns'
             && (forall y :: y in ns' ==> y == x || y in ns) && FitsRetainedKeys(ns, keys, x, ns'[x])
    requires forall y :: y in ns ==> Chain(ns', y) == Chain(ns, y)
    requires Chain(ns', x) == [x] + TailAt(ns, ns'[x].parent)
    ensures ScopesDisjoint(ns', keys)
  {
    forall f, g | g in ns' && Keyed(keys, f) && Keyed(keys, g) && Below(ns', g, f) ensures f == g {
      if g == x {
        NoKeyAbove(ns, keys, x, ns'[x], f);
      } else {
        assert Below(ns, g, f);
      }
    }
  }

  lemma NoKeyAbove(ns: map<Id, Node>, keys: map<(Id, int), FolderKey>, x: Id, n: Node, f: Id)
    requires FitsRetainedKeys(ns, keys, x, n) && Keyed(keys, x) && Keyed(keys, f) && f in [x] + TailAt(ns, n.parent)
    ensures f == x
  {
    if n.parent.Some? { assert Below(ns, n.parent.value, f) <==> f in TailAt(ns, n.parent); }
  }

  lemma LeafFits(ns: map<Id, Node>, ns': map<Id, Node>, keys: map<(Id, int), FolderKey>, x: Id)
    requires KeysOwned(ns', keys) && ScopesDisjoint(ns', keys) && x in ns' && x !in ns
    requires Chain(ns', x) == [x] + TailAt(ns, ns'[x].parent)
    ensures FitsRetainedKeys(ns, keys, x, ns'[x])
  {
    if Keyed(keys, x) && ns'[x].parent.Some? && NearestKeyedFolder(ns, keys, ns'[x].parent.value).Some? {
      var f := NearestKeyedFolder(ns, keys, ns'[x].parent.value).value;
      assert Below(ns', x, f) && f in ns;
    }
  }

  /** A committed create keeps the invariant exactly when the new node fits whatever keys were
      retained under its ID; an ID without retained keys always does. */
  lemma CreateKeepsScopes(t: Tables, c: CreateInput, now: Time)
    requires IsForest(t.nodes) && KeyScopesOk(t)
    ensures var t' := After(t, CreateTx(t, c, now));
            && (ScopeTablesSame(t, t') || NewLeaf(t, t', c.id))
            && (KeyScopesOk(t') <==>
                  ScopeTablesSame(t, t') || FitsRetainedKeys(t.nodes, t.folderKeys, c.id, t'.nodes[c.id]))
    ensures !Keyed(t.folderKeys, c.id) ==> KeyScopesOk(After(t, CreateTx(t, c, now)))
  {
    CreateRow(t, c, now);
    var t' := After(t, CreateTx(t, c, now));
    if !ScopeTablesSame(t, t') { LeafKeepsScopes(t, t', c.id); }
  }

  /** Moving x below p nests no keyed folder in another. */
  ghost predicate KeepsApart(t: Tables, x: Id, p: Option<Id>)
    requires x in t.nodes
  {
    p.Some? && SharesFolders(t.folderKeys, t.nodes[x].owner) && SubtreeHasKeyedFolder(t.nodes, t.folderKeys, x)
    ==> NearestKeyedFolder(t.nodes, t.folderKeys, p.value).None?
  }

  lemma MoveKeepsApart(t: Tables, actor: Id, x: Id, root: Option<Id>, parent: Option<Id>)
    requires x in t.nodes && ValidateMove(t, actor, x, root, parent).Pass?
    ensures KeepsApart(t, x, parent)
  {
  }

  lemma MoveKeepsDisjoint(t: Tables, ns': map<Id, Node>, x: Id, parent: Option<Id>)
    requires IsForest(t.nodes) && KeysOwned(t.nodes, t.folderKeys) && ScopesDisjoint(t.nodes, t.folderKeys)
    requires MoveAllowed(t.nodes, x, parent) && KeepsApart(t, x, parent)
    requires x in ns' && ns' == t.nodes[x := ns'[x]] && ns'[x].parent == parent
    requires ns'[x].kind == t.nodes[x].kind && ns'[x].owner == t.nodes[x].owner
    ensures ScopesDisjoint(ns', t.folderKeys)
  {
    var ns, keys := t.nodes, t.folderKeys;
    MoveForest(ns, ns', x, parent);
    forall f, g | g in ns' && Keyed(keys, f) && Keyed(keys, g) && Below(ns', g, f) ensures f == g {
      if Below(ns, g, x) { assert MovedAncestors(ns, ns', x, parent, g); }
      MovedPair(t, ns', x, parent, f, g);
    }
  }

  /** After the move, too, two keyed folders on one chain are one. */
  lemma MovedPair(t: Tables, ns': map<Id, Node>, x: Id, parent: Option<Id>, f: Id, g: Id)
    requires IsForest(t.nodes) && KeysOwned(t.nodes, t.folderKeys) && ScopesDisjoint(t.nodes, t.folderKeys)
    requires x in t.nodes && KeepsApart(t, x, parent)
    requires g in t.nodes && Keyed(t.folderKeys, f) && Keyed(t.folderKeys, g) && Below(ns', g, f)
    requires if Below(t.nodes, g, x) then MovedAncestors(t.nodes, ns', x, parent, g)
             else Chain(ns', g) == Chain(t.nodes, g)
    ensures f == g
  {
    if !Below(t.nodes, g, f) { KeyedStaysOutside(t, x, parent, f, g); }
  }

  /** No keyed folder of the moved subtree comes below a keyed folder above the new parent. */
  lemma KeyedStaysOutside(t: Tables, x: Id, parent: Option<Id>, f: Id, g: Id)
    requires IsForest(t.nodes) && KeysOwned(t.nodes, t.folderKeys) && x in t.nodes && KeepsApart(t, x, parent)
    requires parent.Some? && Below(t.nodes, parent.value, f) && Below(t.nodes, g, x) && Keyed(t.folderKeys, g)
    ensures !Keyed(t.folderKeys, f)
  {
    SubtreeIsDescendants(t.nodes, x);
    BelowOwner(t.nodes, g, x);
    var k :| k in t.folderKeys && k.0 == g;
    assert t.folderKeys[k].owner == t.nodes[x].owner;
  }

  /** What an accepted rename or move has passed. */
  lemma UpdateChecked(t: Tables, u: UpdateInput)
    requires CheckedUpdate(t, u).Ok?
    ensures u.node in t.nodes && AuthorizeWrite(t, u.actor, u.node) == CheckedUpdate(t, u)
    ensures u.move ==> ValidateMove(t, u.actor, u.node, CheckedUpdate(t, u).value, u.parent).Pass?
    ensures var n := t.nodes[u.node];
            |u.metadata| > 0 ==> KeyHeld(t.folderKeys, n.owner,
                                         StoredScope(u.scope.GetOr(n.owner), n.owner).GetOr(n.owner), u.keyVersion)
  {
    if |u.metadata| > 0 {
      var n := t.nodes[u.node];
      AcceptedScope(t.folderKeys, n.owner, u.actor, CheckedUpdate(t, u).value, u.scope.GetOr(n.owner), u.keyVersion);
    }
  }

  lemma UpdateRow(t: Tables, u: UpdateInput, now: Time)
    requires MetadataKeyed(t.nodes, t.folderKeys)
    ensures var t' := After(t, UpdateTx(t, u, now));
            ScopeTablesSame(t, t') ||
            (u.node in t.nodes && RowOnly(t, t', u.node) && NodeKeyed(t.folderKeys, t'.nodes[u.node])
             && (if u.move then t'.nodes[u.node].parent == u.parent
                 && ValidateMove(t, u.actor, u.node, AuthorizeWrite(t, u.actor, u.node).value, u.parent).Pass?
                 else t'.nodes[u.node].parent == t.nodes[u.node].parent))
  {
    if UpdateTx(t, u, now).Ok? && ReplayOf(t.processed, u.operation, u.actor, NodeUpdate).Fresh? {
      UpdateChecked(t, u);
      assert NodeKeyed(t.folderKeys, t.nodes[u.node]);
      var n' := UpdatedNode(t.nodes[u.node], u, |t.log| + 1, now);
      assert NodeKeyed(t.folderKeys, n');
    }
  }

  lemma UpdateKeepsScopes(t: Tables, u: UpdateInput, now: Time)
    requires IsForest(t.nodes) && KeyScopesOk(t)
    ensures KeyScopesOk(After(t, UpdateTx(t, u, now)))
  {
    UpdateRow(t, u, now);
    var t' := After(t, UpdateTx(t, u, now));
    if !ScopeTablesSame(t, t') {
      if u.move {
        var root := AuthorizeWrite(t, u.actor, u.node).value;
        MoveChecked(t, u.actor, u.node, root, u.parent);
        MoveKeepsApart(t, u.actor, u.node, root, u.parent);
      }
      MovedKeepsScopes(t, t', u.node, u.move, u.parent);
    }
  }

  lemma MovedKeepsScopes(t: Tables, t': Tables, x: Id, move: bool, parent: Option<Id>)
    requires IsForest(t.nodes) && KeyScopesOk(t) && x in t.nodes && RowOnly(t, t', x)
    requires NodeKeyed(t.folderKeys, t'.nodes[x])
    requires if move then t'.nodes[x].parent == parent && MoveAllowed(t.nodes, x, parent) && KeepsApart(t, x, parent)
             else t'.nodes[x].parent == t.nodes[x].parent
    ensures KeyScopesOk(t')
  {
    if move {
      MoveKeepsDisjoint(t, t'.nodes, x, parent);
      RowKeepsScopes(t, t', x);
    } else {
      SameParentKeepsScopes(t, t', x);
    }
  }

  lemma DeleteRow(t: Tables, q: NodeRequest, expected: nat, now: Time)
    ensures var t' := After(t, DeleteTx(t, q, expected, now));
            ScopeTablesSame(t, t') ||
            (q.node in t.nodes && RowOnly(t, t', q.node) && t'.nodes[q.node].parent == t.nodes[q.node].parent
             && (NodeKeyed(t.folderKeys, t.nodes[q.node]) ==> NodeKeyed(t.folderKeys, t'.nodes[q.node])))
  {
  }

  lemma DeleteKeepsScopes(t: Tables, q: NodeRequest, expected: nat, now: Time)
    requires IsForest(t.nodes) && KeyScopesOk(t)
    ensures KeyScopesOk(After(t, DeleteTx(t, q, expected, now)))
  {
    DeleteRow(t, q, expected, now);
    var t' := After(t, DeleteTx(t, q, expected, now));
    if !ScopeTablesSame(t, t') {
      assert NodeKeyed(t.folderKeys, t.nodes[q.node]);
      SameParentKeepsScopes(t, t', q.node);
    }
  }

  lemma RestoreRow(t: Tables, q: NodeRequest, now: Time)
    ensures var t' := After(t, RestoreTx(t, q, now));
            ScopeTablesSame(t, t') ||
            (q.node in t.nodes && RowOnly(t, t', q.node)
             && (t'.nodes[q.node].parent == t.nodes[q.node].parent || t'.nodes[q.node].parent == None)
             && (NodeKeyed(t.folderKeys, t.nodes[q.node]) ==> NodeKeyed(t.folderKeys, t'.nodes[q.node])))
  {
  }

  lemma RestoreKeepsScopes(t: Tables, q: NodeRequest, now: Time)
    requires IsForest(t.nodes) && KeyScopesOk(t)
    ensures KeyScopesOk(After(t, RestoreTx(t, q, now)))
  {
    RestoreRow(t, q, now);
    var t' := After(t, RestoreTx(t, q, now));
    if !ScopeTablesSame(t, t') {
      assert NodeKeyed(t.folderKeys, t.nodes[q.node]);
      MovedKeepsScopes(t, t', q.node, t'.nodes[q.node].parent != t.nodes[q.node].parent, None);
    }
  }

  // ---------------------------------------------------------------- versions

  lemma {:induction false} RewrapKeepsScopes(t: Tables, actor: Id, owner: Id, node: Id, vs: seq<RekeyVersion>)
    requires KeyScopesOk(t) && node in t.nodes && t.nodes[node].owner == owner
    requires Rewrapped(t, actor, owner, node, vs).Ok?
    ensures KeyScopesOk(Rewrapped(t, actor, owner, node, vs).value)
    decreases |vs|
  {
    if vs != [] {
      var v := vs[0];
      AcceptedScope(t.folderKeys, owner, actor, None, v.scope, v.version);
      var row := t.versions[v.id].(wrappedKey := v.wrappedKey, scope := v.scope, keyVersion := v.version);
      RewrapKeepsScopes(t.(versions := t.versions[v.id := row]), actor, owner, node, vs[1..]);
    }
  }

  lemma RekeyOneKeepsScopes(t: Tables, actor: Id, i: RekeyItem, now: Time)
    requires IsForest(t.nodes) && KeyScopesOk(t) && RekeyOne(t, actor, i, now).Ok?
    ensures KeyScopesOk(RekeyOne(t, actor, i, now).value)
  {
    var n := t.nodes[i.node];
    var t1 := Rewrapped(t, actor, n.owner, i.node, i.versions).value;
    var t' := RekeyOne(t, actor, i, now).value;
    RewrapKeepsScopes(t, actor, n.owner, i.node, i.versions);
    RewrappedFrame(t, actor, n.owner, i.node, i.versions);
    AcceptedScope(t.folderKeys, n.owner, actor, None, i.scope, i.keyVersion);
    SameParentKeepsScopes(t1, t', i.node);
  }

  lemma {:induction false} RekeyKeepsScopes(t: Tables, actor: Id, items: seq<RekeyItem>, now: Time)
    requires IsForest(t.nodes) && KeyScopesOk(t) && RekeyAll(t, actor, items, now).Ok?
    ensures KeyScopesOk(RekeyAll(t, actor, items, now).value)
    decreases |items|
  {
    if items != [] {
      RekeyOneKeepsScopes(t, actor, items[0], now);
      RekeyOneWrites(t, actor, items[0], now);
      RekeyKeepsScopes(RekeyOne(t, actor, items[0], now).value, actor, items[1..], now);
    }
  }

  /** A commit rewrites one row and adds one version, both under the declared key. */
  lemma CommitRow(t: Tables, w: Written, now: Time)
    ensures var t' := After(t, CommitTx(t, w, now));
            ScopeTablesSame(t, t') ||
            (var x := w.session.target;
             && x in t.nodes && RowOnly(t, t'.(versions := t.versions), x) && NodeKeyed(t.folderKeys, t'.nodes[x])
             && t'.nodes[x].parent == t.nodes[x].parent
             && w.session.version !in t.versions && w.session.version in t'.versions
             && t'.versions == t.versions[w.session.version := t'.versions[w.session.version]]
             && t'.versions[w.session.version].node == x
             && KeyHeld(t.folderKeys, t.nodes[x].owner, t'.versions[w.session.version].scope,
                        t'.versions[w.session.version].keyVersion))
  {
    if StoredRows(CommitTx(t, w, now)) {
      var c, s := w.request, w.session;
      var n, root := t.nodes[s.target], AuthorizeFileWrite(t, c.user, s.target).value;
      AcceptedScope(t.folderKeys, n.owner, c.user, root, c.keyScope, c.keyVersion);
      AcceptedScope(t.folderKeys, n.owner, c.user, root, c.keyScope, s.metadataKeyVersion);
    }
  }

  lemma CommitKeepsScopes(t: Tables, w: Written, now: Time)
    requires IsForest(t.nodes) && KeyScopesOk(t)
    ensures KeyScopesOk(After(t, CommitTx(t, w, now)))
  {
    CommitRow(t, w, now);
    var t' := After(t, CommitTx(t, w, now));
    if !ScopeTablesSame(t, t') {
      SameParentKeepsScopes(t, t'.(versions := t.versions), w.session.target);
      VersionAdded(t'.nodes, t'.folderKeys, t.versions, t'.versions, w.session.version);
    }
  }

  lemma VersionAdded(ns: map<Id, Node>, keys: map<(Id, int), FolderKey>, vs: map<Id, Version>, vs': map<Id, Version>,
        v: Id)
    requires VersionsKeyed(ns, keys, vs) && v in vs' && vs' == vs[v := vs'[v]]
    requires vs'[v].node in ns && KeyHeld(keys, ns[vs'[v].node].owner, vs'[v].scope, vs'[v].keyVersion)
    ensures VersionsKeyed(ns, keys, vs')
  {
  }

  // ---------------------------------------------------------------- sharing

  lemma FolderKeyKeepsScopes(t: Tables, f: FolderKeyInput)
    requires IsForest(t.nodes) && KeyScopesOk(t)
    ensures KeyScopesOk(After(t, FolderKeyTx(t, f)))
  {
    var t' := After(t, FolderKeyTx(t, f));
    if t' != t {
      MoreKeys(t.folderKeys, (f.folder, f.version), FolderKey(f.owner, f.envelope));
      FirstKeyDisjoint(t, f);
      KeyAdded(t, (f.folder, f.version), FolderKey(f.owner, f.envelope));
    }
  }

  lemma MoreKeys(keys: map<(Id, int), FolderKey>, key: (Id, int), value: FolderKey)
    ensures forall x :: Keyed(keys[key := value], x) <==> Keyed(keys, x) || x == key.0
  {
    var keys' := keys[key := value];
    assert key in keys';
    forall x | Keyed(keys, x) ensures Keyed(keys', x) {
      var k :| k in keys && k.0 == x;
      assert k in keys';
    }
  }

  lemma KeyAdded(t: Tables, key: (Id, int), value: FolderKey)
    requires KeyScopesOk(t) && key !in t.folderKeys && key.1 >= 1
    requires key.0 in t.nodes && t.nodes[key.0].kind == Directory && t.nodes[key.0].owner == value.owner
    requires ScopesDisjoint(t.nodes, t.folderKeys[key := value])
    requires forall x :: Keyed(t.folderKeys[key := value], x) <==> Keyed(t.folderKeys, x) || x == key.0
    ensures KeyScopesOk(t.(folderKeys := t.folderKeys[key := value]))
  {
    forall sid | sid in t.shares ensures SharePlaced(t.nodes, t.folderKeys[key := value], t.shares[sid]) {
      assert SharePlaced(t.nodes, t.folderKeys, t.shares[sid]);
    }
  }

  /** A first key is accepted only where no keyed folder lies above or below. */
  lemma FirstKeyDisjoint(t: Tables, f: FolderKeyInput)
    requires IsForest(t.nodes) && KeyScopesOk(t) && FolderKeyTx(t, f).Ok? && FolderKeyTx(t, f).value.tables != t
    requires forall x ::
               Keyed(FolderKeyTx(t, f).value.tables.folderKeys, x) <==> Keyed(t.folderKeys, x) || x == f.folder
    ensures ScopesDisjoint(t.nodes, FolderKeyTx(t, f).value.tables.folderKeys)
  {
    var ns, keys, keys' := t.nodes, t.folderKeys, FolderKeyTx(t, f).value.tables.folderKeys;
    if !Keyed(keys, f.folder) {
      assert LatestOf(keys, f.folder) == 0 && ForbidNestedScope(ns, keys, f.folder).Pass?;
      SubtreeIsDescendants(ns, f.folder);
      forall a, b | b in ns && Keyed(keys', a) && Keyed(keys', b) && Below(ns, b, a) ensures a == b {
        if b == f.folder && a != b {
          assert IsPath(ns, Chain(ns, b)) && Link(ns, Chain(ns, b), 0);
          ChainStep(ns, b, ns[b].parent.value);
        }
      }
    } else {
      LatestPositive(t, f.folder);
    }
  }

  lemma LatestPositive(t: Tables, folder: Id)
    requires KeysOwned(t.nodes, t.folderKeys) && Keyed(t.folderKeys, folder)
    ensures LatestOf(t.folderKeys, folder) >= 1
  {
  }

  /** Envelopes accepted for a folder of `owner` name keys of `owner`. */
  lemma TargetsKeyed(t: Tables, folder: Id, owner: Id, target: Id, es: seq<DeviceEnvelope>, e: DeviceEnvelope)
    requires KeysOwned(t.nodes, t.folderKeys) && folder in t.nodes && t.nodes[folder].owner == owner
    requires EnvelopeTargets(t, folder, target, es).Pass? && e in es
    ensures (folder, e.keyVersion) in t.folderKeys && t.folderKeys[(folder, e.keyVersion)].owner == owner
  {
  }

  lemma GrantKeepsScopes(t: Tables, g: GrantInput, sid: Id, now: Time)
    requires KeyScopesOk(t)
    ensures KeyScopesOk(After(t, GrantTx(t, g, sid, now)))
  {
    var t' := After(t, GrantTx(t, g, sid, now));
    if !ScopeTablesSame(t, t') {
      TargetsKeyed(t, g.node, g.owner, g.target, g.envelopes, g.envelopes[0]);
      assert Keyed(t.folderKeys, g.node);
      forall e | e in g.envelopes
        ensures (g.node, e.keyVersion) in t.folderKeys && t.folderKeys[(g.node, e.keyVersion)].owner == g.owner
      {
        TargetsKeyed(t, g.node, g.owner, g.target, g.envelopes, e);
      }
      ShareAdded(t, t', sid, g.envelopes);
    }
  }

  /** A share added on a keyed folder of its owner, the first active one for its recipient. */
  lemma ShareAdded(t: Tables, t': Tables, sid: Id, es: seq<DeviceEnvelope>)
    requires KeyScopesOk(t) && sid !in t.shares && sid in t'.shares && t'.shares == t.shares[sid := t'.shares[sid]]
    requires t'.nodes == t.nodes && t'.folderKeys == t.folderKeys && t'.versions == t.versions
    requires t'.envelopes == Inserted(t.envelopes, sid, es)
    requires SharePlaced(t.nodes, t.folderKeys, t'.shares[sid])
    requires ShareOn(t.shares, t'.shares[sid].target, t'.shares[sid].node).None?
    requires var h := t'.shares[sid];
             forall e :: e in es ==>
               (h.node, e.keyVersion) in t.folderKeys && t.folderKeys[(h.node, e.keyVersion)].owner == h.owner
    ensures KeyScopesOk(t')
  {
    forall h | h in t'.shares ensures SharePlaced(t'.nodes, t'.folderKeys, t'.shares[h]) {
      if h != sid { assert SharePlaced(t.nodes, t.folderKeys, t.shares[h]); }
    }
    forall a, b, user, x | ActiveFor(t'.shares, a, user, x) && ActiveFor(t'.shares, b, user, x) ensures a == b {
      assert a != sid ==> ActiveFor(t.shares, a, user, x);
      assert b != sid ==> ActiveFor(t.shares, b, user, x);
    }
  }

  lemma DeliverKeepsScopes(t: Tables, owner: Id, device: Id, sid: Id, es: seq<DeviceEnvelope>)
    requires KeyScopesOk(t)
    ensures KeyScopesOk(After(t, AddEnvelopesTx(t, owner, device, sid, es)))
  {
    var t' := After(t, AddEnvelopesTx(t, owner, device, sid, es));
    if !ScopeTablesSame(t, t') {
      assert SharePlaced(t.nodes, t.folderKeys, t.shares[sid]);
      forall k | k in t'.envelopes
        ensures k.0 in t'.shares && (t'.shares[k.0].node, k.2) in t.folderKeys
        ensures t.folderKeys[(t'.shares[k.0].node, k.2)].owner == t'.shares[k.0].owner
      {
        if k !in t.envelopes {
          var e :| e in es && k == (sid, e.device, e.keyVersion);
          TargetsKeyed(t, t.shares[sid].node, owner, t.shares[sid].target, es, e);
        }
      }
    }
  }

  lemma RevokeKeepsScopes(t: Tables, owner: Id, device: Id, sid: Id, now: Time)
    requires KeyScopesOk(t)
    ensures KeyScopesOk(After(t, RevokeTx(t, owner, device, sid, now)))
  {
    var t' := After(t, RevokeTx(t, owner, device, sid, now));
    if !ScopeTablesSame(t, t') {
      forall h | h in t'.shares ensures SharePlaced(t'.nodes, t'.folderKeys, t'.shares[h]) {
        assert SharePlaced(t.nodes, t.folderKeys, t.shares[h]);
      }
      forall a, b, user, x | ActiveFor(t'.shares, a, user, x) && ActiveFor(t'.shares, b, user, x) ensures a == b {
        assert ActiveFor(t.shares, a, user, x) && ActiveFor(t.shares, b, user, x);
      }
    }
  }

  // ---------------------------------------------------------------- purge and pruning

  lemma PurgeKeepsScopes(t: Tables, id: Id, cutoff: Time, order: seq<Id>, now: Time)
    requires IsForest(t.nodes) && KeyScopesOk(t)
    requires Enumerates(order, TrashSubtree(t.nodes, id, cutoff)) && forall x :: x in order ==> x in t.nodes
    ensures KeyScopesOk(PurgedTables(t, TrashSubtree(t.nodes, id, cutoff), order, now))
  {
    var gone := TrashSubtree(t.nodes, id, cutoff);
    TrashSubtreeComplete(t.nodes, id, cutoff);
    forall y, x | y in t.nodes && x in gone && Below(t.nodes, y, x)
      ensures y in gone
    {
      BelowTransitive(t.nodes, y, x, id);
    }
    RemoveForest(t.nodes, gone);
    RemovedKeepsScopes(t, gone);
  }

  lemma RemovedKeepsScopes(t: Tables, gone: set<Id>)
    requires KeyScopesOk(t)
    requires forall y :: y in t.nodes - gone ==> Chain(t.nodes - gone, y) == Chain(t.nodes, y)
    ensures var keys, shares := KeysKept(t.nodes, t.versions, t.folderKeys, gone), SharesKept(t.shares, gone);
            && KeysOwned(t.nodes - gone, keys) && ScopesDisjoint(t.nodes - gone, keys)
            && SharesPlaced(t.nodes - gone, keys, shares) && SharesUnique(shares)
            && EnvelopesKeyed(keys, shares, EnvelopesKept(t.envelopes, t.shares, gone))
            && MetadataKeyed(t.nodes - gone, keys)
            && VersionsKeyed(t.nodes - gone, keys, VersionsKept(t.versions, gone))
  {
    var keys, shares := KeysKept(t.nodes, t.versions, t.folderKeys, gone), SharesKept(t.shares, gone);
    assert ScopesDisjoint(t.nodes - gone, keys) by {
      forall x | Keyed(keys, x) ensures Keyed(t.folderKeys, x) {
        var k :| k in keys && k.0 == x;
        assert k in t.folderKeys;
      }
    }
    forall h | h in shares ensures SharePlaced(t.nodes - gone, keys, shares[h]) {
      assert SharePlaced(t.nodes, t.folderKeys, t.shares[h]);
      var k :| k in t.folderKeys && k.0 == t.shares[h].node;
      assert k in keys;
    }
    assert SharesUnique(shares) by {
      forall a, b, user, x | ActiveFor(shares, a, user, x) && ActiveFor(shares, b, user, x) ensures a == b {
        assert ActiveFor(t.shares, a, user, x) && ActiveFor(t.shares, b, user, x);
      }
    }
    KeptKeys(t, gone);
  }

  /** Whatever survives a purge keeps its key, even the key of a purged folder. */
  lemma KeptKeys(t: Tables, gone: set<Id>)
    requires MetadataKeyed(t.nodes, t.folderKeys) && VersionsKeyed(t.nodes, t.folderKeys, t.versions)
    ensures var keys := KeysKept(t.nodes, t.versions, t.folderKeys, gone);
            && MetadataKeyed(t.nodes - gone, keys)
            && VersionsKeyed(t.nodes - gone, keys, VersionsKept(t.versions, gone))
  {
    var keys := KeysKept(t.nodes, t.versions, t.folderKeys, gone);
    forall x | x in t.nodes - gone
      ensures KeyHeld(keys, t.nodes[x].owner, t.nodes[x].metadataScope.GetOr(t.nodes[x].owner),
                      t.nodes[x].metadataKeyVersion)
    {
      var scope := t.nodes[x].metadataScope.GetOr(t.nodes[x].owner);
      if scope != t.nodes[x].owner { assert UsedOutside(t.nodes, t.versions, scope, gone); }
    }
    forall v | v in VersionsKept(t.versions, gone)
      ensures t.versions[v].node in t.nodes - gone
      ensures KeyHeld(keys, t.nodes[t.versions[v].node].owner, t.versions[v].scope, t.versions[v].keyVersion)
    {
      assert UsedOutside(t.nodes, t.versions, t.versions[v].scope, gone);
    }
  }

  // ---------------------------------------------------------------- every step

  ghost predicate ScopesInv(t: Tables) {
    TreeAndLog(t) && KeyScopesOk(t)
  }

  lemma NodeStepScopes(t: Tables, a: NodeAction, now: Time)
    requires ScopesInv(t) && (a.CreateNode? ==> !Keyed(t.folderKeys, a.create.id))
    ensures KeyScopesOk(NodeTables(t, a, now))
  {
    match a {
      case CreateNode(c) => CreateKeepsScopes(t, c, now);
      case UpdateNode(u) => UpdateKeepsScopes(t, u, now);
      case DeleteNode(q, expected) => DeleteKeepsScopes(t, q, expected, now);
      case RestoreNode(q) => RestoreKeepsScopes(t, q, now);
      case RekeyNodes(k) => if RekeyTx(t, k, now).Ok? { RekeyKeepsScopes(t, k.actor, k.items, now); }
    }
  }

  lemma SharingStepScopes(t: Tables, a: SharingAction, now: Time)
    requires ScopesInv(t)
    ensures KeyScopesOk(SharingTables(t, a, now))
  {
    match a {
      case AddFolderKey(f) => FolderKeyKeepsScopes(t, f);
      case Grant(g, sid) => GrantKeepsScopes(t, g, sid, now);
      case Deliver(owner, device, sid, es) => DeliverKeepsScopes(t, owner, device, sid, es);
      case RevokeShare(owner, device, sid) => RevokeKeepsScopes(t, owner, device, sid, now);
    }
  }

  lemma SameScopes(t: Tables, t': Tables)
    requires KeyScopesOk(t) && ScopeTablesSame(t, t')
    ensures KeyScopesOk(t')
  {
  }

  lemma CompletionStepScopes(cfg: Config, s: State, a: CompletionAction, now: Time)
    requires ScopesInv(s.tables)
    ensures KeyScopesOk(ApplyCompletion(cfg, s, a, now).tables)
  {
    if a.CommitBlob? && a.session in s.writing { CommitKeepsScopes(s.tables, s.writing[a.session], now); }
  }

  lemma FewerVersions(t: Tables, t': Tables)
    requires KeyScopesOk(t) && ScopeTablesSame(t, t'.(versions := t.versions))
    requires forall v :: v in t'.versions ==> v in t.versions && t'.versions[v] == t.versions[v]
    ensures KeyScopesOk(t')
  {
  }

  lemma PurgedScopes(s: State, id: Id, cutoff: Time, order: seq<Id>, now: Time)
    requires ScopesInv(s.tables)
    ensures KeyScopesOk(TrashPurged(s, id, cutoff, order, now).tables)
  {
    var t := s.tables;
    if Enumerates(order, TrashSubtree(t.nodes, id, cutoff)) {
      forall x | x in order ensures x in t.nodes { assert x in TrashSubtree(t.nodes, id, cutoff); }
      PurgeKeepsScopes(t, id, cutoff, order, now);
    }
  }

  lemma RetentionStepScopes(s: State, a: RetentionAction, now: Time)
    requires ScopesInv(s.tables)
    ensures KeyScopesOk(ApplyRetention(s, a, now).tables)
  {
    var t := s.tables;
    match a {
      case DiscardPurgedFiles(id, cutoff) =>
      case PurgeTrash(id, cutoff, order) => PurgedScopes(s, id, cutoff, order, now);
      case PurgeOwn(owner, id, order) =>
        if OwnEntry(t.nodes, owner, id) { PurgedScopes(s, id, t.nodes[id].deletedAt.value, order, now); }
      case Prune(maxVersions, cutoff) =>
        FewerVersions(t, t.(versions := KeptVersions(t.nodes, t.versions, maxVersions, cutoff)));
      case ForgetOperations =>
    }
  }

  lemma StepKeepsScopes(cfg: Config, s: State, e: Event)
    requires ScopesInv(s.tables) && Allowed(s, e)
    ensures ScopesInv(Step(cfg, s, e).tables)
  {
    StepKeepsTreeAndLog(cfg, s, e);
    match e.action {
      case OnNodes(a) => NodeStepScopes(s.tables, a, e.now);
      case OnShares(a) => SharingStepScopes(s.tables, a, e.now);
      case OnCompletion(a) => CompletionStepScopes(cfg, s, a, e.now);
      case OnRetention(a) => RetentionStepScopes(s, a, e.now);
      case _ => SameScopes(s.tables, Step(cfg, s, e).tables);
    }
  }

  lemma {:induction false} RunKeepsScopes(cfg: Config, s: State, es: seq<Event>)
    requires ScopesInv(s.tables) && AllowedRun(cfg, s, es)
    ensures ScopesInv(Run(cfg, s, es).tables)
    decreases |es|
  {
    if es != [] {
      RunKeepsScopes(cfg, s, es[..|es| - 1]);
      StepKeepsScopes(cfg, Run(cfg, s, es[..|es| - 1]), es[|es| - 1]);
    }
  }
}
