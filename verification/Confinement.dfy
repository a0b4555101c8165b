/** What one member can change in somebody else's tree, over every kind of request. */
module Confinement {
  import opened Common
  import opened Schema
  import opened Forest
  import opened Access
  import opened Nodes
  import opened Sharing
  import opened Trash
  import opened Uploads
  import opened Server
  import opened ChangeLog
  import opened KeyScopes
  import opened AccessLaws

  /** The user on whose behalf an event runs; maintenance and account changes have none. */
  function Actor(s: State, a: Action): Option<Id> {
    match a
    case OnNodes(CreateNode(c)) => Some(c.actor)
    case OnNodes(UpdateNode(u)) => Some(u.actor)
    case OnNodes(DeleteNode(q, _)) => Some(q.actor)
    case OnNodes(RestoreNode(q)) => Some(q.actor)
    case OnNodes(RekeyNodes(k)) => Some(k.actor)
    case OnShares(AddFolderKey(f)) => Some(f.owner)
    case OnShares(Grant(g, _)) => Some(g.owner)
    case OnShares(Deliver(owner, _, _, _)) => Some(owner)
    case OnShares(RevokeShare(owner, _, _)) => Some(owner)
    case OnSessions(OpenUpload(u, _)) => Some(u.user)
    case OnSessions(StoreChunkFile(p)) => Some(p.user)
    case OnSessions(RecordChunk(p)) => Some(p.user)
    case OnSessions(AbortUpload(user, _, _)) => Some(user)
    case OnCompletion(WriteBlobFile(c)) => Some(c.user)
    case OnCompletion(CommitBlob(u)) => if u in s.writing then Some(s.writing[u].request.user) else None
    case OnRetention(PurgeOwn(owner, _, _)) => Some(owner)
    case _ => None
  }

  /** The user holds an active READ_WRITE share of root. */
  ghost predicate WriteShare(shares: map<Id, Share>, user: Id, root: Id) {
    exists sid :: ActiveFor(shares, sid, user, root) && shares[sid].permission == ReadWrite
  }

  ghost predicate StrictlyBelow(ns: map<Id, Node>, x: Id, root: Id) {
    x != root && Below(ns, x, root)
  }

  /** The newest version of the key of root under that owner. */
  ghost predicate NewestKey(keys: map<(Id, int), FolderKey>, owner: Id, root: Id, scope: Id, version: int) {
    && scope == root && (root, version) in keys && keys[(root, version)].owner == owner
    && forall v :: (root, v) in keys && keys[(root, v)].owner == owner ==> v <= version
  }

  /** x was written through the share of root: it was and stays strictly below root in the same
      owner's tree, and metadata written with it is under the share's newest key. */
  ghost predicate WrittenThrough(t: Tables, t': Tables, user: Id, x: Id, root: Id) {
    && x in t'.nodes && WriteShare(t.shares, user, root) && root in t.nodes
    && t'.nodes[x].owner == t.nodes[root].owner != user
    && StrictlyBelow(t'.nodes, x, root)
    && (x in t.nodes ==>
          StrictlyBelow(t.nodes, x, root) && t.nodes[x].owner == t'.nodes[x].owner && t.nodes[x].deletedAt.None?)
    && (x !in t.nodes || t'.nodes[x].metadata != t.nodes[x].metadata
        || t'.nodes[x].metadataScope != t.nodes[x].metadataScope
        || t'.nodes[x].metadataKeyVersion != t.nodes[x].metadataKeyVersion
        ==> t'.nodes[x].metadataScope.Some?
            && NewestKey(t.folderKeys, t'.nodes[x].owner, root, t'.nodes[x].metadataScope.value,
                         t'.nodes[x].metadataKeyVersion))
  }

  /** The only node row that differs is x. */
  ghost predicate OnlyRow(ns: map<Id, Node>, ns': map<Id, Node>, x: Id) {
    x in ns' && ns' == ns[x := ns'[x]]
  }

  /** Whatever node row the user changed is its own, or one row written through one share. */
  ghost predicate NodesConfined(t: Tables, t': Tables, user: Id) {
    || (forall x :: x in t.nodes.Keys + t'.nodes.Keys && (x !in t.nodes || x !in t'.nodes || t'.nodes[x] != t.nodes[x])
          ==> (x in t.nodes ==> t.nodes[x].owner == user) && (x in t'.nodes ==> t'.nodes[x].owner == user))
    || exists x, root :: OnlyRow(t.nodes, t'.nodes, x) && WrittenThrough(t, t', user, x, root)
  }

  /** Each file version the user added or rewrapped belongs to its own file, or to a file written
      through a share, under the newest key of that share; each one removed was its own. */
  ghost predicate VersionsConfined(t: Tables, t': Tables, user: Id) {
    && (forall v ::
          v in t'.versions && (v !in t.versions || t'.versions[v] != t.versions[v]) ==>
            VersionConfined(t, t', user, t'.versions[v]))
    && (forall v ::
          v in t.versions && v !in t'.versions ==>
            t.versions[v].node in t.nodes && t.nodes[t.versions[v].node].owner == user)
  }

  ghost predicate VersionConfined(t: Tables, t': Tables, user: Id, v: Version) {
    && v.node in t.nodes
    && (t.nodes[v.node].owner == user
        || exists root ::
             WrittenThrough(t, t', user, v.node, root)
             && NewestKey(t.folderKeys, t.nodes[v.node].owner, root, v.scope, v.keyVersion))
  }

  // ---------------------------------------------------------------- what authorization yields

  /** A grant that authorizes a write comes from an active READ_WRITE share above the node. */
  lemma GrantGivesShare(t: Tables, user: Id, x: Id)
    requires ShareGrant(t.nodes, t.shares, user, x).Some?
    ensures var g := ShareGrant(t.nodes, t.shares, user, x).value;
            && Below(t.nodes, x, g.root) && g.root in t.nodes
            && (g.permission == ReadWrite ==> WriteShare(t.shares, user, g.root))
            && x in t.nodes && t.nodes[x].deletedAt.None?
  {
    var c := Chain(t.nodes, x);
    var k := GrantPosition(t.nodes, t.shares, user, c);
    GrantFound(t.nodes, t.shares, user, c, k);
    assert ActiveFor(t.shares, ShareOn(t.shares, user, c[k]).value, user, c[k]);
    assert ShareGrant(t.nodes, t.shares, user, x).value.root == c[k];
  }

  lemma KeyOfShare(t: Tables, owner: Id, user: Id, root: Id, scope: Id, version: int)
    requires owner != user && ValidateKeyScope(t.folderKeys, owner, user, Some(root), scope, version).Pass?
    ensures scope != owner && StoredScope(scope, owner) == Some(root)
    ensures NewestKey(t.folderKeys, owner, root, scope, version)
  {
    AcceptedScope(t.folderKeys, owner, user, Some(root), scope, version);
  }

  /** A child of p, like p or strictly below it, is strictly below every ancestor of p. */
  lemma ChildStrictlyBelow(ns: map<Id, Node>, x: Id, p: Id, root: Id)
    requires Rooted(ns) && x in ns && ns[x].parent == Some(p) && Below(ns, p, root)
    ensures StrictlyBelow(ns, x, root)
  {
    ChainStep(ns, x, p);
  }

  // ---------------------------------------------------------------- one request

  lemma CreatePlaced(t: Tables, c: CreateInput, now: Time)
    requires CreateTx(t, c, now).Ok? && CreateTx(t, c, now).value.tables != t
    ensures var t' := CreateTx(t, c, now).value.tables;
            && c.id !in t.nodes && OnlyRow(t.nodes, t'.nodes, c.id) && t'.nodes[c.id].parent == c.parent
            && (t'.nodes[c.id].owner != c.actor ==>
                  && c.parent.Some? && c.parent.value in t.nodes
                  && t.nodes[c.parent.value].owner == t'.nodes[c.id].owner
                  && t.nodes[c.parent.value].kind == Directory
                  && ShareGrant(t.nodes, t.shares, c.actor, c.parent.value).Some?
                  && var g := ShareGrant(t.nodes, t.shares, c.actor, c.parent.value).value;
                     g.permission == ReadWrite && t'.nodes[c.id].metadataScope == Some(g.root)
                     && NewestKey(t.folderKeys, t'.nodes[c.id].owner, g.root, g.root,
                                  t'.nodes[c.id].metadataKeyVersion))
  {
    var place := Place(t, c.actor, c.parent).value;
    if place.owner != c.actor {
      KeyOfShare(t, place.owner, c.actor, place.writeRoot.value, c.scope.GetOr(place.owner), c.keyVersion);
    }
  }

  lemma CreateConfined(t: Tables, c: CreateInput, now: Time)
    requires IsForest(t.nodes)
    ensures NodesConfined(t, After(t, CreateTx(t, c, now)), c.actor)
  {
    var t' := After(t, CreateTx(t, c, now));
    if t' != t {
      CreatePlaced(t, c, now);
      if t'.nodes[c.id].owner != c.actor {
        var p := c.parent.value;
        var root := ShareGrant(t.nodes, t.shares, c.actor, p).value.root;
        GrantGivesShare(t, c.actor, p);
        LeafForest(t.nodes, c.id, t'.nodes[c.id]);
        BelowOwner(t.nodes, p, root);
        ChildStrictlyBelow(t'.nodes, c.id, p, root);
        assert WrittenThrough(t, t', c.actor, c.id, root);
      }
    }
  }

  /** What AuthorizeWrite promises about somebody else's node. */
  lemma AuthorizedBelow(t: Tables, user: Id, x: Id)
    requires IsForest(t.nodes) && x in t.nodes && t.nodes[x].owner != user && AuthorizeWrite(t, user, x).Ok?
    ensures AuthorizeWrite(t, user, x).value.Some?
    ensures var root := AuthorizeWrite(t, user, x).value.value;
            && StrictlyBelow(t.nodes, x, root) && root in t.nodes && t.nodes[root].owner == t.nodes[x].owner
            && WriteShare(t.shares, user, root) && t.nodes[x].deletedAt.None?
  {
    GrantGivesShare(t, user, x);
    BelowOwner(t.nodes, x, AuthorizeWrite(t, user, x).value.value);
  }

  /** A node that stays where it is, and any metadata written with it carries the share's key. */
  lemma InPlaceConfined(t: Tables, t': Tables, user: Id, x: Id, root: Id)
    requires IsForest(t.nodes) && x in t.nodes && OnlyRow(t.nodes, t'.nodes, x)
    requires t'.nodes[x].parent == t.nodes[x].parent && t'.nodes[x].owner == t.nodes[x].owner
    requires t'.nodes[x].kind == t.nodes[x].kind
    requires StrictlyBelow(t.nodes, x, root) && root in t.nodes && t.nodes[root].owner == t.nodes[x].owner != user
    requires WriteShare(t.shares, user, root) && t.nodes[x].deletedAt.None?
    requires (t'.nodes[x].metadata == t.nodes[x].metadata && t'.nodes[x].metadataScope == t.nodes[x].metadataScope
              && t'.nodes[x].metadataKeyVersion == t.nodes[x].metadataKeyVersion)
          || (t'.nodes[x].metadataScope.Some?
              && NewestKey(t.folderKeys, t.nodes[x].owner, root, t'.nodes[x].metadataScope.value,
                           t'.nodes[x].metadataKeyVersion))
    ensures WrittenThrough(t, t', user, x, root)
  {
    SameShapeForest(t.nodes, t'.nodes);
  }

  lemma UpdatePlaced(t: Tables, u: UpdateInput, now: Time)
    requires UpdateTx(t, u, now).Ok? && UpdateTx(t, u, now).value.tables != t
    ensures var t' := UpdateTx(t, u, now).value.tables;
            && u.node in t.nodes && OnlyRow(t.nodes, t'.nodes, u.node) && AuthorizeWrite(t, u.actor, u.node).Ok?
            && var n, n', root := t.nodes[u.node], t'.nodes[u.node], AuthorizeWrite(t, u.actor, u.node).value;
               && n'.owner == n.owner && n'.kind == n.kind && n'.parent == (if u.move then u.parent else n.parent)
               && (u.move ==> ValidateMove(t, u.actor, u.node, root, u.parent).Pass?)
               && (n.owner != u.actor && root.Some? ==>
                     || (n'.metadata == n.metadata && n'.metadataScope == n.metadataScope
                         && n'.metadataKeyVersion == n.metadataKeyVersion)
                     || (n'.metadataScope.Some?
                         && NewestKey(t.folderKeys, n.owner, root.value, n'.metadataScope.value,
                                      n'.metadataKeyVersion)))
  {
    var n, root := t.nodes[u.node], AuthorizeWrite(t, u.actor, u.node).value;
    if n.owner != u.actor && root.Some? && |u.metadata| > 0 {
      KeyOfShare(t, n.owner, u.actor, root.value, u.scope.GetOr(n.owner), u.keyVersion);
    }
  }

  /** A member's move ends below the same share root. */
  lemma MoveStaysBelow(t: Tables, user: Id, x: Id, root: Id, parent: Option<Id>)
    requires x in t.nodes && ValidateMove(t, user, x, Some(root), parent).Pass?
    ensures parent.Some? && parent.value in t.nodes && Below(t.nodes, parent.value, root)
  {
    GrantGivesShare(t, user, parent.value);
  }

  lemma UpdateConfined(t: Tables, u: UpdateInput, now: Time)
    requires IsForest(t.nodes)
    ensures NodesConfined(t, After(t, UpdateTx(t, u, now)), u.actor)
  {
    var t' := After(t, UpdateTx(t, u, now));
    if t' != t {
      UpdatePlaced(t, u, now);
      if t.nodes[u.node].owner != u.actor {
        AuthorizedBelow(t, u.actor, u.node);
        MemberUpdate(t, t', u.actor, u.node, AuthorizeWrite(t, u.actor, u.node).value.value, u.move, u.parent);
      }
    }
  }

  lemma MemberUpdate(t: Tables, t': Tables, user: Id, x: Id, root: Id, move: bool, parent: Option<Id>)
    requires IsForest(t.nodes) && x in t.nodes && OnlyRow(t.nodes, t'.nodes, x)
    requires t'.nodes[x].parent == (if move then parent else t.nodes[x].parent)
             && t'.nodes[x].owner == t.nodes[x].owner && t'.nodes[x].kind == t.nodes[x].kind
    requires StrictlyBelow(t.nodes, x, root) && root in t.nodes && t.nodes[root].owner == t.nodes[x].owner != user
    requires WriteShare(t.shares, user, root) && t.nodes[x].deletedAt.None?
    requires (t'.nodes[x].metadata == t.nodes[x].metadata && t'.nodes[x].metadataScope == t.nodes[x].metadataScope
              && t'.nodes[x].metadataKeyVersion == t.nodes[x].metadataKeyVersion)
          || (t'.nodes[x].metadataScope.Some?
              && NewestKey(t.folderKeys, t.nodes[x].owner, root, t'.nodes[x].metadataScope.value,
                           t'.nodes[x].metadataKeyVersion))
    requires move ==> ValidateMove(t, user, x, Some(root), parent).Pass?
    ensures WrittenThrough(t, t', user, x, root)
  {
    if move {
      MoveStaysBelow(t, user, x, root, parent);
      MoveChecked(t, user, x, Some(root), parent);
      MoveForest(t.nodes, t'.nodes, x, parent);
      assert Below(t.nodes, x, x);
      assert Below(t'.nodes, x, root);
    } else {
      InPlaceConfined(t, t', user, x, root);
    }
  }

  lemma DeletePlaced(t: Tables, q: NodeRequest, expected: nat, now: Time)
    requires DeleteTx(t, q, expected, now).Ok? && DeleteTx(t, q, expected, now).value.tables != t
    ensures var t' := DeleteTx(t, q, expected, now).value.tables;
            && q.node in t.nodes && OnlyRow(t.nodes, t'.nodes, q.node) && AuthorizeWrite(t, q.actor, q.node).Ok?
            && var n, n' := t.nodes[q.node], t'.nodes[q.node];
               n' == n.(deletedAt := n'.deletedAt, revision := n'.revision, updatedAt := n'.updatedAt)
  {
  }

  lemma DeleteConfined(t: Tables, q: NodeRequest, expected: nat, now: Time)
    requires IsForest(t.nodes)
    ensures NodesConfined(t, After(t, DeleteTx(t, q, expected, now)), q.actor)
  {
    var t' := After(t, DeleteTx(t, q, expected, now));
    if t' != t {
      DeletePlaced(t, q, expected, now);
      if t.nodes[q.node].owner != q.actor {
        AuthorizedBelow(t, q.actor, q.node);
        InPlaceConfined(t, t', q.actor, q.node, AuthorizeWrite(t, q.actor, q.node).value.value);
      }
    }
  }

  lemma RestoreConfined(t: Tables, q: NodeRequest, now: Time)
    ensures NodesConfined(t, After(t, RestoreTx(t, q, now)), q.actor)
  {
  }

  lemma {:induction false} RewrapConfined(t: Tables, actor: Id, owner: Id, node: Id, vs: seq<RekeyVersion>)
    requires Rewrapped(t, actor, owner, node, vs).Ok?
    ensures var t' := Rewrapped(t, actor, owner, node, vs).value;
            forall v :: v in t'.versions
              ==> v in t.versions && (t'.versions[v] == t.versions[v]
                                      || t'.versions[v].node == t.versions[v].node == node)
    decreases |vs|
  {
    if vs != [] {
      var v := vs[0];
      var row := t.versions[v.id].(wrappedKey := v.wrappedKey, scope := v.scope, keyVersion := v.version);
      RewrapConfined(t.(versions := t.versions[v.id := row]), actor, owner, node, vs[1..]);
    }
  }

  /** Rekey works on the actor's own nodes and their versions only. */
  lemma {:induction false} RekeyConfined(t: Tables, actor: Id, items: seq<RekeyItem>, now: Time)
    requires RekeyAll(t, actor, items, now).Ok?
    ensures var t' := RekeyAll(t, actor, items, now).value;
            && t'.nodes.Keys == t.nodes.Keys && t'.versions.Keys == t.versions.Keys
            && (forall x ::
                  x in t.nodes ==>
                    t'.nodes[x].owner == t.nodes[x].owner && (t.nodes[x].owner != actor ==> t'.nodes[x] == t.nodes[x]))
            && (forall v :: v in t'.versions ==>
                  && v in t.versions && t'.versions[v].node == t.versions[v].node
                  && (t'.versions[v] == t.versions[v]
                      || (t.versions[v].node in t.nodes && t.nodes[t.versions[v].node].owner == actor)))
    decreases |items|
  {
    if items != [] {
      RewrappedFrame(t, actor, t.nodes[items[0].node].owner, items[0].node, items[0].versions);
      RewrapConfined(t, actor, t.nodes[items[0].node].owner, items[0].node, items[0].versions);
      RekeyConfined(RekeyOne(t, actor, items[0], now).value, actor, items[1..], now);
    }
  }

  lemma CommitPlaced(t: Tables, w: Written, now: Time)
    requires StoredRows(CommitTx(t, w, now))
    ensures var t' := CommitTx(t, w, now).value.tables;
            var x, user := w.session.target, w.request.user;
            && x in t.nodes && t.nodes[x].kind == File && t.nodes[x].deletedAt.None? && OnlyRow(t.nodes, t'.nodes, x)
            && w.session.version in t'.versions
            && t'.versions == t.versions[w.session.version := t'.versions[w.session.version]]
            && AuthorizeFileWrite(t, user, x).Ok?
            && var n, n', v, root := t.nodes[x], t'.nodes[x], t'.versions[w.session.version],
               AuthorizeFileWrite(t, user, x).value;
               && n'.parent == n.parent && n'.owner == n.owner && n'.kind == n.kind && v.node == x
               && (n.owner != user ==>
                     && root.Some? && n'.metadataScope.Some?
                     && NewestKey(t.folderKeys, n.owner, root.value, n'.metadataScope.value, n'.metadataKeyVersion)
                     && NewestKey(t.folderKeys, n.owner, root.value, v.scope, v.keyVersion))
  {
    var c, s := w.request, w.session;
    var n, root := t.nodes[s.target], AuthorizeFileWrite(t, c.user, s.target).value;
    if n.owner != c.user {
      KeyOfShare(t, n.owner, c.user, root.value, c.keyScope, c.keyVersion);
      KeyOfShare(t, n.owner, c.user, root.value, c.keyScope, s.metadataKeyVersion);
    }
  }

  /** A file is never a share root, so a member's upload lands strictly below one. */
  lemma FileBelowShare(t: Tables, user: Id, x: Id)
    requires IsForest(t.nodes) && KeyScopesOk(t) && x in t.nodes && t.nodes[x].kind == File && t.nodes[x].owner != user
    requires AuthorizeFileWrite(t, user, x).Ok? && AuthorizeFileWrite(t, user, x).value.Some?
    ensures var root := AuthorizeFileWrite(t, user, x).value.value;
            StrictlyBelow(t.nodes, x, root) && root in t.nodes && t.nodes[root].owner == t.nodes[x].owner
              && WriteShare(t.shares, user, root)
  {
    GrantGivesShare(t, user, x);
    var root := AuthorizeFileWrite(t, user, x).value.value;
    BelowOwner(t.nodes, x, root);
    var sid :| ActiveFor(t.shares, sid, user, root);
    assert SharePlaced(t.nodes, t.folderKeys, t.shares[sid]);
  }

  lemma CommitConfined(t: Tables, w: Written, now: Time)
    requires IsForest(t.nodes) && KeyScopesOk(t)
    ensures NodesConfined(t, After(t, CommitTx(t, w, now)), w.request.user)
    ensures VersionsConfined(t, After(t, CommitTx(t, w, now)), w.request.user)
  {
    var t', x := After(t, CommitTx(t, w, now)), w.session.target;
    if StoredRows(CommitTx(t, w, now)) {
      CommitPlaced(t, w, now);
      if t.nodes[x].owner != w.request.user {
        FileBelowShare(t, w.request.user, x);
        var root := AuthorizeFileWrite(t, w.request.user, x).value.value;
        InPlaceConfined(t, t', w.request.user, x, root);
        assert VersionConfined(t, t', w.request.user, t'.versions[w.session.version]);
      }
    }
  }

  // ---------------------------------------------------------------- shares, keys and envelopes

  /** Sharing requests touch only rows that belong to the actor. */
  ghost predicate SharingConfined(t: Tables, t': Tables, user: Id) {
    && t'.nodes == t.nodes && t'.versions == t.versions
    && (forall sid ::
          sid in t.shares ==> sid in t'.shares && (t'.shares[sid] == t.shares[sid] || t.shares[sid].owner == user))
    && (forall sid :: sid in t'.shares && sid !in t.shares ==> t'.shares[sid].owner == user)
    && (forall k :: k in t.folderKeys ==> k in t'.folderKeys && t'.folderKeys[k] == t.folderKeys[k])
    && (forall k :: k in t'.folderKeys && k !in t.folderKeys ==> t'.folderKeys[k].owner == user)
    && (forall k ::
          k in t.envelopes ==>
            k in t'.envelopes
            && (t'.envelopes[k] == t.envelopes[k] || (k.0 in t'.shares && t'.shares[k.0].owner == user)))
    && (forall k :: k in t'.envelopes && k !in t.envelopes ==> k.0 in t'.shares && t'.shares[k.0].owner == user)
  }

  lemma SharingIsConfined(s: State, a: SharingAction, now: Time)
    ensures SharingConfined(s.tables, SharingTables(s.tables, a, now), Actor(s, OnShares(a)).value)
  {
    match a {
      case AddFolderKey(f) =>
      case Grant(g, sid) => GrantIsConfined(s.tables, g, sid, now);
      case Deliver(owner, device, sid, es) =>
      case RevokeShare(owner, device, sid) => RevokeIsConfined(s.tables, owner, device, sid, now);
    }
  }

  lemma GrantIsConfined(t: Tables, g: GrantInput, sid: Id, now: Time)
    ensures SharingConfined(t, After(t, GrantTx(t, g, sid, now)), g.owner)
  {
  }

  lemma RevokeIsConfined(t: Tables, owner: Id, device: Id, sid: Id, now: Time)
    ensures SharingConfined(t, After(t, RevokeTx(t, owner, device, sid, now)), owner)
  {
  }

  // ---------------------------------------------------------------- node requests

  lemma VersionsSameConfined(t: Tables, t': Tables, user: Id)
    requires t'.versions == t.versions
    ensures VersionsConfined(t, t', user)
  {
  }

  lemma NodesAreConfined(s: State, a: NodeAction, now: Time)
    requires IsForest(s.tables.nodes)
    ensures NodesConfined(s.tables, NodeTables(s.tables, a, now), Actor(s, OnNodes(a)).value)
    ensures VersionsConfined(s.tables, NodeTables(s.tables, a, now), Actor(s, OnNodes(a)).value)
  {
    var t := s.tables;
    match a {
      case CreateNode(c) => CreateConfined(t, c, now);
      case UpdateNode(u) => UpdateConfined(t, u, now);
      case DeleteNode(q, expected) => DeleteConfined(t, q, expected, now);
      case RestoreNode(q) => RestoreConfined(t, q, now);
      case RekeyNodes(k) => if RekeyTx(t, k, now).Ok? { RekeyConfined(t, k.actor, k.items, now); }
    }
    if !a.RekeyNodes? {
      NodesFrame(t, a, now);
      VersionsSameConfined(t, NodeTables(t, a, now), Actor(s, OnNodes(a)).value);
    }
  }

  // ---------------------------------------------------------------- uploads and purges

  /** An upload request opens, changes or adds chunks to sessions of the requester only. */
  ghost predicate UploadsConfined(t: Tables, t': Tables, user: Id) {
    && t'.nodes == t.nodes && t'.versions == t.versions && t.sessions.Keys <= t'.sessions.Keys
    && (forall u :: u in t'.sessions && (u !in t.sessions || t'.sessions[u] != t.sessions[u]) ==>
          t'.sessions[u].user == user && (u in t.sessions ==> t.sessions[u].user == user))
    && (forall k :: k in t.chunks ==> k in t'.chunks && t'.chunks[k] == t.chunks[k])
    && (forall k :: k in t'.chunks && k !in t.chunks ==> k.0 in t.sessions && t.sessions[k.0].user == user)
  }

  lemma UploadIsConfined(cfg: Config, s: State, a: SessionAction, now: Time)
    requires Actor(s, OnSessions(a)).Some?
    ensures UploadsConfined(s.tables, ApplySession(cfg, s, a, now).tables, Actor(s, OnSessions(a)).value)
  {
    match a {
      case OpenUpload(u, uid) =>
      case StoreChunkFile(p) =>
      case RecordChunk(p) =>
      case AbortUpload(user, device, u) => AbortIsConfined(s.tables, user, device, u);
    }
  }

  lemma AbortIsConfined(t: Tables, user: Id, device: Id, u: Id)
    ensures UploadsConfined(t, After(t, AbortTx(t, user, device, u)), user)
  {
  }

  /** Purging an own Trash entry removes own nodes and versions only. */
  lemma PurgeIsConfined(s: State, owner: Id, id: Id, order: seq<Id>, now: Time)
    requires IsForest(s.tables.nodes) && VersionsKeyed(s.tables.nodes, s.tables.folderKeys, s.tables.versions)
    requires OwnEntry(s.tables.nodes, owner, id)
    ensures var t' := TrashPurged(s, id, s.tables.nodes[id].deletedAt.value, order, now).tables;
            NodesConfined(s.tables, t', owner) && VersionsConfined(s.tables, t', owner)
  {
    var t, cutoff := s.tables, s.tables.nodes[id].deletedAt.value;
    var gone := TrashSubtree(t.nodes, id, cutoff);
    TrashSubtreeComplete(t.nodes, id, cutoff);
    forall y | y in gone ensures t.nodes[y].owner == owner { BelowOwner(t.nodes, y, id); }
    if Enumerates(order, gone) {
      assert forall x :: x in order ==> x in gone;
      PurgedConfined(t, gone, order, now, owner);
    }
  }

  lemma PurgedConfined(t: Tables, gone: set<Id>, order: seq<Id>, now: Time, owner: Id)
    requires gone <= t.nodes.Keys && forall x :: x in order ==> x in t.nodes
    requires forall y :: y in gone ==> t.nodes[y].owner == owner
    ensures var t' := PurgedTables(t, gone, order, now); NodesConfined(t, t', owner) && VersionsConfined(t, t', owner)
  {
  }

  lemma RetentionIsConfined(s: State, a: RetentionAction, now: Time)
    requires ScopesInv(s.tables) && a.PurgeOwn?
    ensures NodesConfined(s.tables, ApplyRetention(s, a, now).tables, a.owner)
    ensures VersionsConfined(s.tables, ApplyRetention(s, a, now).tables, a.owner)
  {
    if OwnEntry(s.tables.nodes, a.owner, a.entry) { PurgeIsConfined(s, a.owner, a.entry, a.order, now); }
  }

  // ---------------------------------------------------------------- every request of every run

  lemma UnchangedConfined(t: Tables, t': Tables, user: Id)
    requires t'.nodes == t.nodes && t'.versions == t.versions
    ensures NodesConfined(t, t', user) && VersionsConfined(t, t', user)
  {
  }

  lemma CompletionIsConfined(cfg: Config, s: State, a: CompletionAction, now: Time)
    requires ScopesInv(s.tables) && Actor(s, OnCompletion(a)).Some?
    ensures NodesConfined(s.tables, ApplyCompletion(cfg, s, a, now).tables, Actor(s, OnCompletion(a)).value)
    ensures VersionsConfined(s.tables, ApplyCompletion(cfg, s, a, now).tables, Actor(s, OnCompletion(a)).value)
  {
    match a {
      case WriteBlobFile(c) => UnchangedConfined(s.tables, s.tables, c.user);
      case CommitBlob(u) => CommitConfined(s.tables, s.writing[u], now);
    }
  }

  /** Every request changes only the requester's own nodes and versions, or exactly one node
      strictly below the root of one active READ_WRITE share, which stays there under the same
      owner, with everything stored for it under the share's newest key. */
  lemma MemberConfined(cfg: Config, s: State, e: Event)
    requires ScopesInv(s.tables) && Actor(s, e.action).Some?
    ensures NodesConfined(s.tables, Step(cfg, s, e).tables, Actor(s, e.action).value)
    ensures VersionsConfined(s.tables, Step(cfg, s, e).tables, Actor(s, e.action).value)
  {
    match e.action {
      case OnNodes(a) => NodesAreConfined(s, a, e.now);
      case OnShares(a) => UnchangedConfined(s.tables, Step(cfg, s, e).tables, Actor(s, e.action).value);
      case OnSessions(a) => UnchangedConfined(s.tables, Step(cfg, s, e).tables, Actor(s, e.action).value);
      case OnCompletion(a) => CompletionIsConfined(cfg, s, a, e.now);
      case OnRetention(a) => RetentionIsConfined(s, a, e.now);
    }
  }

  /** The same for any event of any run. */
  lemma RunConfined(cfg: Config, s: State, es: seq<Event>, e: Event)
    requires ScopesInv(s.tables) && AllowedRun(cfg, s, es) && Actor(Run(cfg, s, es), e.action).Some?
    ensures NodesConfined(Run(cfg, s, es).tables, Run(cfg, s, es + [e]).tables, Actor(Run(cfg, s, es), e.action).value)
    ensures VersionsConfined(Run(cfg, s, es).tables, Run(cfg, s, es + [e]).tables,
                             Actor(Run(cfg, s, es), e.action).value)
  {
    assert (es + [e])[..|es + [e]| - 1] == es;
    RunKeepsScopes(cfg, s, es);
    MemberConfined(cfg, Run(cfg, s, es), e);
  }
}
