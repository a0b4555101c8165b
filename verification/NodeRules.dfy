/** Exactly when a node request is accepted, how it is refused, and what each field holds
    afterwards, stated on rows and numbers alone. */
module NodeRules {
  import opened Common
  import opened Schema
  import opened Forest
  import opened Access
  import opened Nodes

  // ---------------------------------------------------------------- shared conditions

  predicate OwnDevice(t: Tables, user: Id, device: Id) {
    device in t.devices && t.devices[device].user == user && !t.devices[device].revoked
  }

  predicate LiveDirectory(ns: map<Id, Node>, p: Id) {
    p in ns && ns[p].kind == Directory && ns[p].deletedAt.None?
  }

  /** The user is no owner, and the nearest share on the way up lets it write below its root r. */
  predicate WritesThrough(t: Tables, user: Id, x: Id, r: Id) {
    ShareGrant(t.nodes, t.shares, user, x) == Some(Access.Grant.Grant(r, ReadWrite))
  }

  predicate MemberWrites(t: Tables, user: Id, x: Id) {
    ShareGrant(t.nodes, t.shares, user, x).Some? && ShareGrant(t.nodes, t.shares, user, x).value.permission == ReadWrite
  }

  /** The share a member writes through; owners need none. */
  function RootFor(t: Tables, owner: Id, user: Id, x: Id): Option<Id> {
    if owner == user || ShareGrant(t.nodes, t.shares, user, x).None? then None
    else Some(ShareGrant(t.nodes, t.shares, user, x).value.root)
  }

  /** Content may be stored under this key: the owner's own, or an existing folder key of the owner,
      which for a member is the newest one of the share it writes through. */
  ghost predicate KeyAccepted(keys: map<(Id, int), FolderKey>, owner: Id, actor: Id, root: Option<Id>, scope: Id,
        version: int)
  {
    && version >= 1
    && if scope == owner then actor == owner
       else
         && (scope, version) in keys && keys[(scope, version)].owner == owner
         && (actor == owner
             || (root == Some(scope)
                 && forall v :: (scope, v) in keys && keys[(scope, v)].owner == owner ==> v <= version))
  }

  function KeyRefusal(keys: map<(Id, int), FolderKey>, owner: Id, actor: Id, root: Option<Id>, scope: Id,
        version: int): Error
  {
    if version < 1 then BadInput
    else if actor != owner && (scope == owner || root != Some(scope)) then WrongKeyScope
    else if (scope, version) !in keys || keys[(scope, version)].owner != owner then UnknownFolderKey
    else StaleFolderKey
  }

  lemma KeyScopeDecides(keys: map<(Id, int), FolderKey>, owner: Id, actor: Id, root: Option<Id>, scope: Id,
        version: int)
    ensures ValidateKeyScope(keys, owner, actor, root, scope, version)
         == if KeyAccepted(keys, owner, actor, root, scope, version) then Pass
            else Fail(KeyRefusal(keys, owner, actor, root, scope, version))
  {
    if scope != owner && (scope, version) in keys && keys[(scope, version)].owner == owner {
      var latest := LatestVersion(keys, scope, owner);
      assert (scope, latest) in keys && keys[(scope, latest)].owner == owner;
      assert forall v :: (scope, v) in keys && keys[(scope, v)].owner == owner ==> (scope, v).1 <= latest;
    }
  }

  /** Whose rows may be rewritten: own ones, or those strictly below a READ_WRITE share; none in Trash. */
  predicate MayWrite(t: Tables, user: Id, x: Id) {
    && x in t.nodes && t.nodes[x].deletedAt.None?
    && (t.nodes[x].owner == user || (MemberWrites(t, user, x) && RootFor(t, t.nodes[x].owner, user, x) != Some(x)))
  }

  function WriteRefusal(t: Tables, user: Id, x: Id): Error
    requires x in t.nodes
  {
    var owner := t.nodes[x].owner;
    if owner == user || (MemberWrites(t, user, x) && RootFor(t, owner, user, x) != Some(x)) then InTrash else Forbidden
  }

  lemma WriteDecides(t: Tables, user: Id, x: Id)
    requires x in t.nodes
    ensures AuthorizeWrite(t, user, x)
         == if MayWrite(t, user, x) then Ok(RootFor(t, t.nodes[x].owner, user, x)) else Err(WriteRefusal(t, user, x))
  {
  }

  /** Only one row, one log entry and one operation record differ. */
  ghost predicate OneMutation(t: Tables, t': Tables, x: Id, owner: Id, op: Operation, operation: Id, user: Id,
        device: Id, mutation: Mutation, now: Time)
  {
    && t' == t.(nodes := t'.nodes, log := t'.log, processed := t'.processed)
    && x in t'.nodes && t'.nodes == t.nodes[x := t'.nodes[x]]
    && t'.log == t.log + [Change(owner, x, op, now)]
    && t'.processed == t.processed[operation := Processed(user, device, mutation, x, now + THIRTY_DAYS)]
  }

  lemma MutationShape(t: Tables, x: Id, n: Node, owner: Id, op: Operation, operation: Id, user: Id, device: Id,
        mutation: Mutation, now: Time)
    ensures OneMutation(t, Recorded(WithNode(Logged(t, owner, x, op, now), x, n), operation, user, device, mutation, x,
                                    now),
                        x, owner, op, operation, user, device, mutation, now)
  {
  }

  /** An operation ID that is recorded is answered from its record, or refused as another request's. */
  ghost predicate AnswersRecorded<T>(t: Tables, operation: Id, user: Id, mutation: Mutation, tx: Tx<T>, subject: T) {
    operation in t.processed ==>
      tx == if t.processed[operation].user == user && t.processed[operation].mutation == mutation
            then Ok(Committed(t, subject)) else Err(OperationReused)
  }

  function SubjectOf(t: Tables, operation: Id): Id {
    if operation in t.processed then t.processed[operation].subject else 0
  }

  // ---------------------------------------------------------------- create

  /** Whose tree a new node joins. */
  function NewOwner(t: Tables, c: CreateInput): Id {
    if c.parent.Some? && c.parent.value in t.nodes then t.nodes[c.parent.value].owner else c.actor
  }

  function NewRoot(t: Tables, c: CreateInput): Option<Id> {
    if c.parent.None? then None else RootFor(t, NewOwner(t, c), c.actor, c.parent.value)
  }

  predicate ParentTakes(t: Tables, user: Id, parent: Option<Id>) {
    parent.Some? ==>
      && LiveDirectory(t.nodes, parent.value)
      && (t.nodes[parent.value].owner == user || MemberWrites(t, user, parent.value))
  }

  ghost predicate MayCreate(t: Tables, c: CreateInput) {
    var owner := NewOwner(t, c);
    && |c.metadata| > 0 && c.keyVersion >= 1 && OwnDevice(t, c.actor, c.device) && ParentTakes(t, c.actor, c.parent)
    && KeyAccepted(t.folderKeys, owner, c.actor, NewRoot(t, c), c.scope.GetOr(owner), c.keyVersion)
    && c.id !in t.nodes
  }

  ghost function CreateRefusal(t: Tables, c: CreateInput): Error {
    var owner := NewOwner(t, c);
    var scope := c.scope.GetOr(owner);
    if |c.metadata| == 0 || c.keyVersion < 1 then BadInput
    else if !OwnDevice(t, c.actor, c.device) then Forbidden
    else if !ParentTakes(t, c.actor, c.parent) then InvalidParent
    else if !KeyAccepted(t.folderKeys, owner, c.actor, NewRoot(t, c), scope, c.keyVersion)
    then KeyRefusal(t.folderKeys, owner, c.actor, NewRoot(t, c), scope, c.keyVersion)
    else IdTaken
  }

  lemma PlaceDecides(t: Tables, c: CreateInput)
    ensures Place(t, c.actor, c.parent)
         == if ParentTakes(t, c.actor, c.parent) then Ok(Placement(NewOwner(t, c), NewRoot(t, c)))
            else Err(InvalidParent)
  {
  }

  /** A new create is accepted exactly under these conditions, and otherwise refused by the first
      that fails. */
  lemma CreateAccepted(t: Tables, c: CreateInput, now: Time)
    requires c.operation !in t.processed
    ensures CreateTx(t, c, now).Ok? <==> MayCreate(t, c)
    ensures !MayCreate(t, c) ==> CreateTx(t, c, now) == Err(CreateRefusal(t, c))
  {
    var owner := NewOwner(t, c);
    PlaceDecides(t, c);
    KeyScopeDecides(t.folderKeys, owner, c.actor, NewRoot(t, c), c.scope.GetOr(owner), c.keyVersion);
  }

  ghost predicate NewRow(n: Node, c: CreateInput, owner: Id, revision: nat, now: Time) {
    && n.owner == owner && n.parent == c.parent && n.kind == c.kind && n.metadata == c.metadata
    && n.metadataKeyVersion == c.keyVersion
    && n.metadataScope == (if c.scope.GetOr(owner) == owner then None else c.scope)
    && n.current.None? && n.revision == revision && n.createdAt == now && n.updatedAt == now && n.deletedAt.None?
  }

  lemma CreatedRow(t: Tables, c: CreateInput, now: Time)
    requires CreateTx(t, c, now).Ok? && c.operation !in t.processed
    ensures var t' := CreateTx(t, c, now).value.tables;
            c.id in t'.nodes && NewRow(t'.nodes[c.id], c, NewOwner(t, c), |t.log| + 1, now)
  {
  }

  lemma CreateMutates(t: Tables, c: CreateInput, now: Time)
    requires CreateTx(t, c, now).Ok? && c.operation !in t.processed
    ensures OneMutation(t, CreateTx(t, c, now).value.tables, c.id, NewOwner(t, c), Created, c.operation, c.actor,
                        c.device, NodeCreate, now)
    ensures CreateTx(t, c, now).value.value == c.id
  {
    var owner := NewOwner(t, c);
    PlaceDecides(t, c);
    MutationShape(t, c.id, NewNode(c, owner, |t.log| + 1, now), owner, Created, c.operation, c.actor, c.device,
                  NodeCreate, now);
  }

  /** Each field of a new node, and nothing else. */
  lemma CreateEffect(t: Tables, c: CreateInput, now: Time)
    requires CreateTx(t, c, now).Ok? && c.operation !in t.processed
    ensures var t', owner := CreateTx(t, c, now).value.tables, NewOwner(t, c);
            && OneMutation(t, t', c.id, owner, Created, c.operation, c.actor, c.device, NodeCreate, now)
            && NewRow(t'.nodes[c.id], c, owner, |t.log| + 1, now) && CreateTx(t, c, now).value.value == c.id
  {
    CreatedRow(t, c, now);
    CreateMutates(t, c, now);
  }

  lemma CreateRecorded(t: Tables, c: CreateInput, now: Time)
    requires |c.metadata| > 0 && c.keyVersion >= 1
    ensures AnswersRecorded(t, c.operation, c.actor, NodeCreate, CreateTx(t, c, now), SubjectOf(t, c.operation))
  {
  }

  // ---------------------------------------------------------------- update

  /** Some keyed folder lies at or below x, and some at or above p, under an owner that shares at all. */
  ghost predicate WouldNest(t: Tables, x: Id, p: Id) {
    && x in t.nodes && (exists k :: k in t.folderKeys && t.folderKeys[k].owner == t.nodes[x].owner)
    && (exists k :: k in t.folderKeys && k.0 in t.nodes && Below(t.nodes, k.0, x))
    && (exists k :: k in t.folderKeys && k.0 in t.nodes && Below(t.nodes, p, k.0))
  }

  /** Where a node may go: for members not to the root and not out of their share; into a live
      directory of the same tree, outside its own subtree, at most 10 000 deep, without nesting
      keyed folders. */
  ghost predicate MayMove(t: Tables, user: Id, x: Id, root: Option<Id>, parent: Option<Id>) {
    && x in t.nodes && (parent.None? ==> root.None?)
    && (parent.Some? ==>
          var p := parent.value;
          && LiveDirectory(t.nodes, p) && t.nodes[p].owner == t.nodes[x].owner && !Below(t.nodes, p, x)
          && (root.Some? ==> WritesThrough(t, user, p, root.value))
          && |Chain(t.nodes, p)| <= 10_000 && !WouldNest(t, x, p))
  }

  lemma KeyedAboveExists(ns: map<Id, Node>, keys: map<(Id, int), FolderKey>, p: Id)
    ensures NearestKeyedFolder(ns, keys, p).Some? <==> exists k :: k in keys && k.0 in ns && Below(ns, p, k.0)
  {
    var c := Chain(ns, p);
    KeyedAlongExists(keys, c);
    if k :| k in keys && k.0 in ns && Below(ns, p, k.0) { assert Keyed(keys, k.0) && k.0 in c; }
    if y :| y in c && Keyed(keys, y) {
      var k :| k in keys.Keys && k.0 == y;
      assert k in keys && k.0 in ns && Below(ns, p, k.0);
    }
  }

  lemma {:induction false} KeyedAlongExists(keys: map<(Id, int), FolderKey>, c: seq<Id>)
    ensures KeyedAlong(keys, c).Some? <==> exists y :: y in c && Keyed(keys, y)
  {
    if c != [] {
      KeyedAlongExists(keys, c[1..]);
      assert forall y :: y in c <==> y == c[0] || y in c[1..];
    }
  }

  lemma KeyedBelowExists(ns: map<Id, Node>, keys: map<(Id, int), FolderKey>, x: Id)
    requires Rooted(ns) && x in ns
    ensures SubtreeHasKeyedFolder(ns, keys, x) <==> exists k :: k in keys && k.0 in ns && Below(ns, k.0, x)
  {
    SubtreeIsDescendants(ns, x);
    if k :| k in keys && k.0 in ns && Below(ns, k.0, x) { assert Keyed(keys, k.0) && k.0 in SubtreeQuery(ns, {x}); }
    if y :| y in SubtreeQuery(ns, {x}) && Keyed(keys, y) {
      var k :| k in keys.Keys && k.0 == y;
      assert k in keys && k.0 in ns && Below(ns, k.0, x);
    }
  }

  ghost predicate MeetsWithin(ns: map<Id, Node>, x: Id, p: Id, left: nat) {
    exists i :: 0 <= i < |Chain(ns, p)| && i < left && Chain(ns, p)[i] == x
  }

  /** The walk meets the moved node within the bound, or the bound before the root. */
  lemma {:induction false} CycleWalkRefusal(ns: map<Id, Node>, moving: Id, current: Id, left: nat)
    requires Rooted(ns) && current in ns && CycleWalk(ns, moving, current, left).Fail?
    ensures CycleWalk(ns, moving, current, left).error
         == if MeetsWithin(ns, moving, current, left) then MoveCycle else TreeTooDeep
    decreases left
  {
    var c := Chain(ns, current);
    if left > 0 && current == moving {
      assert c[0] == moving;
    } else if left > 0 {
      var p := ns[current].parent.value;
      ChainStep(ns, current, p);
      CycleWalkRefusal(ns, moving, p, left - 1);
      var d := Chain(ns, p);
      if MeetsWithin(ns, moving, p, left - 1) {
        var i :| 0 <= i < |d| && i < left - 1 && d[i] == moving;
        assert c[i + 1] == moving;
      }
      if MeetsWithin(ns, moving, current, left) {
        var i :| 0 <= i < |c| && i < left && c[i] == moving;
        assert i > 0 && d[i - 1] == moving;
      }
    }
  }

  ghost function MoveRefusal(t: Tables, user: Id, x: Id, root: Option<Id>, parent: Option<Id>): Error
    requires x in t.nodes
  {
    if parent.None? then InvalidParent
    else
      var p := parent.value;
      if p == x then OwnParent
      else if !LiveDirectory(t.nodes, p) || t.nodes[p].owner != t.nodes[x].owner then InvalidParent
      else if root.Some? && !WritesThrough(t, user, p, root.value) then InvalidParent
      else if MeetsWithin(t.nodes, x, p, 10_000) then MoveCycle
      else if Below(t.nodes, p, x) || |Chain(t.nodes, p)| > 10_000 then TreeTooDeep
      else NestedSharedFolder
  }

  lemma NestDecides(t: Tables, x: Id, p: Id)
    requires Rooted(t.nodes) && x in t.nodes
    ensures WouldNest(t, x, p) <==>
              && SharesFolders(t.folderKeys, t.nodes[x].owner) && SubtreeHasKeyedFolder(t.nodes, t.folderKeys, x)
              && NearestKeyedFolder(t.nodes, t.folderKeys, p).Some?
  {
    KeyedAboveExists(t.nodes, t.folderKeys, p);
    KeyedBelowExists(t.nodes, t.folderKeys, x);
    if k :| k in t.folderKeys && t.folderKeys[k].owner == t.nodes[x].owner { assert k in t.folderKeys.Keys; }
  }

  lemma WalkDecides(ns: map<Id, Node>, x: Id, p: Id)
    requires Rooted(ns) && p in ns
    ensures CycleWalk(ns, x, p, MAX_MOVE_DEPTH)
         == if !Below(ns, p, x) && |Chain(ns, p)| <= 10_000 then Pass
            else if MeetsWithin(ns, x, p, 10_000) then Fail(MoveCycle) else Fail(TreeTooDeep)
  {
    CycleWalkExact(ns, x, p, MAX_MOVE_DEPTH);
    if CycleWalk(ns, x, p, MAX_MOVE_DEPTH).Fail? { CycleWalkRefusal(ns, x, p, MAX_MOVE_DEPTH); }
  }

  lemma MoveDecides(t: Tables, user: Id, x: Id, root: Option<Id>, parent: Option<Id>)
    requires IsForest(t.nodes) && x in t.nodes
    ensures ValidateMove(t, user, x, root, parent)
         == if MayMove(t, user, x, root, parent) then Pass else Fail(MoveRefusal(t, user, x, root, parent))
  {
    if parent.Some? {
      NestDecides(t, x, parent.value);
      if parent.value in t.nodes { WalkDecides(t.nodes, x, parent.value); }
      if parent.value == x { assert x in Chain(t.nodes, x); }
    }
  }

  predicate UpdateWellFormed(u: UpdateInput) {
    (|u.metadata| > 0 || u.move) && (|u.metadata| > 0 ==> u.keyVersion >= 1)
  }

  ghost predicate MayUpdate(t: Tables, u: UpdateInput) {
    && UpdateWellFormed(u) && OwnDevice(t, u.actor, u.device) && MayWrite(t, u.actor, u.node)
    && var n := t.nodes[u.node];
       var root := RootFor(t, n.owner, u.actor, u.node);
       && n.revision == u.expected && (u.move ==> MayMove(t, u.actor, u.node, root, u.parent))
       && (|u.metadata| > 0 ==>
             KeyAccepted(t.folderKeys, n.owner, u.actor, root, u.scope.GetOr(n.owner), u.keyVersion))
  }

  ghost function UpdateRefusal(t: Tables, u: UpdateInput): Error {
    if !UpdateWellFormed(u) then BadInput
    else if !OwnDevice(t, u.actor, u.device) then Forbidden
    else if u.node !in t.nodes then NotFound
    else
      var n := t.nodes[u.node];
      var root := RootFor(t, n.owner, u.actor, u.node);
      if !MayWrite(t, u.actor, u.node) then WriteRefusal(t, u.actor, u.node)
      else if n.revision != u.expected then RevisionConflict
      else if u.move && !MayMove(t, u.actor, u.node, root, u.parent)
      then MoveRefusal(t, u.actor, u.node, root, u.parent)
      else KeyRefusal(t.folderKeys, n.owner, u.actor, root, u.scope.GetOr(n.owner), u.keyVersion)
  }

  lemma UpdateAccepted(t: Tables, u: UpdateInput, now: Time)
    requires IsForest(t.nodes) && u.operation !in t.processed
    ensures UpdateTx(t, u, now).Ok? <==> MayUpdate(t, u)
    ensures !MayUpdate(t, u) ==> UpdateTx(t, u, now) == Err(UpdateRefusal(t, u))
  {
    if u.node in t.nodes {
      var n := t.nodes[u.node];
      var root := RootFor(t, n.owner, u.actor, u.node);
      WriteDecides(t, u.actor, u.node);
      MoveDecides(t, u.actor, u.node, root, u.parent);
      KeyScopeDecides(t.folderKeys, n.owner, u.actor, root, u.scope.GetOr(n.owner), u.keyVersion);
    }
  }

  /** Each field of a renamed, moved, or renamed and moved node. */
  ghost predicate Rewritten(n: Node, n': Node, u: UpdateInput, revision: nat, now: Time) {
    && n'.parent == (if u.move then u.parent else n.parent)
    && (if |u.metadata| > 0
        then
          && n'.metadata == u.metadata && n'.metadataKeyVersion == u.keyVersion
          && n'.metadataScope == (if u.scope.GetOr(n.owner) == n.owner then None else u.scope)
        else
          && n'.metadata == n.metadata && n'.metadataKeyVersion == n.metadataKeyVersion
          && n'.metadataScope == n.metadataScope)
    && n'.owner == n.owner && n'.kind == n.kind && n'.current == n.current && n'.createdAt == n.createdAt
    && n'.deletedAt == n.deletedAt && n'.revision == revision && n'.updatedAt == now
  }

  lemma UpdateEffect(t: Tables, u: UpdateInput, now: Time)
    requires UpdateTx(t, u, now).Ok? && u.operation !in t.processed
    ensures u.node in t.nodes
    ensures var t', n := UpdateTx(t, u, now).value.tables, t.nodes[u.node];
            && OneMutation(t, t', u.node, n.owner, Updated, u.operation, u.actor, u.device, NodeUpdate, now)
            && UpdateTx(t, u, now).value.value == u.node
            && Rewritten(n, t'.nodes[u.node], u, |t.log| + 1, now)
  {
  }

  lemma UpdateRecorded(t: Tables, u: UpdateInput, now: Time)
    requires UpdateWellFormed(u)
    ensures AnswersRecorded(t, u.operation, u.actor, NodeUpdate, UpdateTx(t, u, now), SubjectOf(t, u.operation))
  {
  }

  // ---------------------------------------------------------------- delete and restore

  lemma DeleteAccepted(t: Tables, q: NodeRequest, expected: nat, now: Time)
    requires q.operation !in t.processed
    ensures DeleteTx(t, q, expected, now).Ok? <==>
              OwnDevice(t, q.actor, q.device) && MayWrite(t, q.actor, q.node) && t.nodes[q.node].revision == expected
    ensures DeleteTx(t, q, expected, now).Err? ==>
              DeleteTx(t, q, expected, now).error
                == if !OwnDevice(t, q.actor, q.device) then Forbidden
                   else if q.node !in t.nodes then NotFound
                   else if !MayWrite(t, q.actor, q.node) then WriteRefusal(t, q.actor, q.node)
                   else RevisionConflict
  {
    if q.node in t.nodes { WriteDecides(t, q.actor, q.node); }
  }

  lemma DeleteEffect(t: Tables, q: NodeRequest, expected: nat, now: Time)
    requires DeleteTx(t, q, expected, now).Ok? && q.operation !in t.processed
    ensures q.node in t.nodes
    ensures var t', n := DeleteTx(t, q, expected, now).value.tables, t.nodes[q.node];
            && OneMutation(t, t', q.node, n.owner, Deleted, q.operation, q.actor, q.device, NodeDelete, now)
            && t'.nodes[q.node] == n.(deletedAt := Some(now), revision := |t.log| + 1, updatedAt := now)
  {
  }

  lemma DeleteRecorded(t: Tables, q: NodeRequest, expected: nat, now: Time)
    ensures AnswersRecorded(t, q.operation, q.actor, NodeDelete, DeleteTx(t, q, expected, now),
                            SubjectOf(t, q.operation))
  {
  }

  lemma RestoreAccepted(t: Tables, q: NodeRequest, now: Time)
    requires q.operation !in t.processed
    ensures RestoreTx(t, q, now).Ok? <==>
              && OwnDevice(t, q.actor, q.device) && q.node in t.nodes && t.nodes[q.node].owner == q.actor
              && t.nodes[q.node].deletedAt.Some?
    ensures RestoreTx(t, q, now).Err? ==>
              RestoreTx(t, q, now).error
                == if !OwnDevice(t, q.actor, q.device) then Forbidden
                   else if q.node !in t.nodes then NotFound
                   else if t.nodes[q.node].owner != q.actor then Forbidden
                   else NotInTrash
  {
  }

  /** The folder, or one above it, is gone or in Trash. */
  ghost predicate FolderHidden(ns: map<Id, Node>, p: Id) {
    p !in ns || exists y :: y in ns && Below(ns, p, y) && ns[y].deletedAt.Some?
  }

  lemma RestoreEffect(t: Tables, q: NodeRequest, now: Time)
    requires RestoreTx(t, q, now).Ok? && q.operation !in t.processed
    ensures q.node in t.nodes
    ensures var t', n := RestoreTx(t, q, now).value.tables, t.nodes[q.node];
            && OneMutation(t, t', q.node, q.actor, Restored, q.operation, q.actor, q.device, NodeRestore, now)
            && t'.nodes[q.node]
               == n.(deletedAt := None, revision := |t.log| + 1, updatedAt := now,
                     parent := if n.parent.Some? && FolderHidden(t.nodes, n.parent.value) then None else n.parent)
  {
    var n := t.nodes[q.node];
    if n.parent.Some? {
      var p := n.parent.value;
      if y :| y in t.nodes && Below(t.nodes, p, y) && t.nodes[y].deletedAt.Some? { assert y in Chain(t.nodes, p); }
      assert HasDeletedAncestor(t.nodes, p) <==> FolderHidden(t.nodes, p);
    }
  }

  lemma RestoreRecorded(t: Tables, q: NodeRequest, now: Time)
    ensures AnswersRecorded(t, q.operation, q.actor, NodeRestore, RestoreTx(t, q, now), SubjectOf(t, q.operation))
  {
  }

  // ---------------------------------------------------------------- reading

  lemma GetDecides(t: Tables, user: Id, x: Id)
    ensures Get(t, user, x)
         == if x !in t.nodes then Err(NotFound)
            else if t.nodes[x].owner == user
                 || (t.nodes[x].deletedAt.None? && ShareGrant(t.nodes, t.shares, user, x).Some?)
            then Ok(t.nodes[x]) else Err(Forbidden)
  {
  }

  lemma ListableExactly(t: Tables, user: Id, x: Id)
    ensures ReadableDirectory(t, user, x).Pass? <==>
              && LiveDirectory(t.nodes, x)
              && (t.nodes[x].owner == user || ShareGrant(t.nodes, t.shares, user, x).Some?)
  {
  }

  // ---------------------------------------------------------------- consequences

  /** Nothing is created in, or moved into, a folder that is in Trash or of another tree. */
  lemma NothingEntersTrash(t: Tables, c: CreateInput, u: UpdateInput, now: Time)
    requires c.operation !in t.processed && u.operation !in t.processed && IsForest(t.nodes)
    ensures CreateTx(t, c, now).Ok? && c.parent.Some? ==>
              LiveDirectory(t.nodes, c.parent.value) && NewOwner(t, c) == t.nodes[c.parent.value].owner
    ensures UpdateTx(t, u, now).Ok? && u.move && u.parent.Some? ==>
              && u.node in t.nodes && LiveDirectory(t.nodes, u.parent.value)
              && t.nodes[u.parent.value].owner == t.nodes[u.node].owner
  {
    CreateAccepted(t, c, now);
    UpdateAccepted(t, u, now);
  }

  /** A revoked device, or one of somebody else's, changes no row, whether its request is new or
      repeated. */
  lemma ForeignDeviceChangesNothing(t: Tables, c: CreateInput, u: UpdateInput, q: NodeRequest, expected: nat,
        k: RekeyInput, now: Time)
    ensures !OwnDevice(t, c.actor, c.device) ==> After(t, CreateTx(t, c, now)) == t
    ensures !OwnDevice(t, u.actor, u.device) ==> After(t, UpdateTx(t, u, now)) == t
    ensures !OwnDevice(t, q.actor, q.device) ==> After(t, DeleteTx(t, q, expected, now)) == t
    ensures !OwnDevice(t, q.actor, q.device) ==> After(t, RestoreTx(t, q, now)) == t
    ensures !OwnDevice(t, k.actor, k.device) ==> After(t, RekeyTx(t, k, now)) == t
  {
  }
}
