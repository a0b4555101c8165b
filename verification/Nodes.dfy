/** The node service: create, read, rename or move, delete, restore and rekey. Each mutation is
    given twice: as the function from tables to tables that the transaction denotes, and as the
    method that runs the transaction's statements on the database. */
module Nodes {
  import opened Common
  import opened Schema
  import opened Forest
  import opened Access

  const OPERATION_LIFETIME: Time := 30 * 24 * 3600 * 1_000_000_000
  const MAX_MOVE_DEPTH: nat := 10_000
  const MAX_REKEY_ITEMS: nat := 200
  const MAX_REKEY_VERSIONS: nat := 256
  const MAX_REKEY_METADATA: nat := 131_072
  const MAX_WRAPPED_KEY: nat := 1024

  // ---------------------------------------------------------------- shared statements

  datatype Replay = Fresh | Reused | Applied(subject: Id)

  function ReplayOf(processed: map<Id, Processed>, operation: Id, user: Id, mutation: Mutation): Replay {
    if operation !in processed then Fresh
    else if processed[operation].user != user || processed[operation].mutation != mutation then Reused
    else Applied(processed[operation].subject)
  }

  function Logged(t: Tables, user: Id, node: Id, op: Operation, now: Time): Tables {
    t.(log := t.log + [Change(user, node, op, now)])
  }

  function Recorded(t: Tables, operation: Id, user: Id, device: Id, mutation: Mutation, subject: Id, now: Time): Tables
  {
    t.(processed := t.processed[operation := Processed(user, device, mutation, subject, now + OPERATION_LIFETIME)])
  }

  function WithNode(t: Tables, id: Id, n: Node): Tables {
    t.(nodes := t.nodes[id := n])
  }

  /** Appends to the change log; the new row's number is the new revision. */
  method RecordChange(db: Database, user: Id, node: Id, op: Operation, now: Time) returns (revision: nat)
    modifies db
    ensures db.tables == Logged(old(db.tables), user, node, op, now) && revision == |db.tables.log|
  {
    db.tables := db.tables.(log := db.tables.log + [Change(user, node, op, now)]);
    revision := |db.tables.log|;
  }

  method RecordProcessed(db: Database, operation: Id, user: Id, device: Id, mutation: Mutation, subject: Id, now: Time)
    modifies db
    ensures db.tables == Recorded(old(db.tables), operation, user, device, mutation, subject, now)
  {
    var row := Processed(user, device, mutation, subject, now + OPERATION_LIFETIME);
    db.tables := db.tables.(processed := db.tables.processed[operation := row]);
  }

  /** The owner of an existing directory outside Trash. */
  function DirectoryOwner(ns: map<Id, Node>, x: Id): Result<Id> {
    if x !in ns || ns[x].kind != Directory || ns[x].deletedAt.Some? then Err(InvalidParent) else Ok(ns[x].owner)
  }

  /** The owner may change its nodes; a READ_WRITE recipient only nodes strictly below the share
      root, which is then returned. */
  function AuthorizeWrite(t: Tables, actor: Id, x: Id): Result<Option<Id>>
    requires x in t.nodes
  {
    var n := t.nodes[x];
    var root :- if n.owner == actor then Ok(None)
                else match ShareGrant(t.nodes, t.shares, actor, x)
                  case None => Err(Forbidden)
                  case Some(g) => if g.permission != ReadWrite || g.root == x then Err(Forbidden) else Ok(Some(g.root));
    :- Need(n.deletedAt.None?, InTrash);
    Ok(root)
  }

  // ---------------------------------------------------------------- read

  function Get(t: Tables, user: Id, x: Id): Result<Node> {
    if x !in t.nodes then Err(NotFound) else
    var n := t.nodes[x];
    :- Need(n.owner == user || (n.deletedAt.None? && ShareGrant(t.nodes, t.shares, user, x).Some?), Forbidden);
    Ok(n)
  }

  /** What a request answers: its transaction's error, or the node read again after it. */
  function Reply(t: Tables, user: Id, r: Result<Id>): Result<Node> {
    var x :- r;
    Get(t, user, x)
  }

  /** One node appears in the caller's root listing. */
  predicate InRootListing(t: Tables, user: Id, x: Id) {
    && x in t.nodes
    && t.nodes[x].deletedAt.None?
    && ((t.nodes[x].owner == user && t.nodes[x].parent.None?) || ShareOn(t.shares, user, x).Some?)
  }

  /** A directory whose children the caller may list. */
  function ReadableDirectory(t: Tables, user: Id, x: Id): Check {
    if x !in t.nodes then Fail(InvalidParent)
    else if t.nodes[x].kind != Directory || t.nodes[x].deletedAt.Some? then Fail(Forbidden)
    else Need(t.nodes[x].owner == user || ShareGrant(t.nodes, t.shares, user, x).Some?, Forbidden)
  }

  predicate InChildListing(t: Tables, user: Id, dir: Id, x: Id) {
    ReadableDirectory(t, user, dir).Pass? && x in t.nodes && t.nodes[x].parent == Some(dir)
      && t.nodes[x].deletedAt.None?
  }

  // ---------------------------------------------------------------- create

  datatype CreateInput = CreateInput(
    id: Id, actor: Id, device: Id, operation: Id, parent: Option<Id>, kind: Kind,
    metadata: Bytes, keyVersion: int, scope: Option<Id>)

  datatype Placement = Placement(owner: Id, writeRoot: Option<Id>)

  /** Whose tree the new node joins, and the share it is written through. */
  function Place(t: Tables, actor: Id, parent: Option<Id>): Result<Placement> {
    if parent.None? then Ok(Placement(actor, None))
    else
      var owner :- DirectoryOwner(t.nodes, parent.value);
      if owner == actor then Ok(Placement(actor, None))
      else match ShareGrant(t.nodes, t.shares, actor, parent.value)
        case None => Err(InvalidParent)
        case Some(g) => if g.permission != ReadWrite then Err(InvalidParent) else Ok(Placement(owner, Some(g.root)))
  }

  function NewNode(c: CreateInput, owner: Id, revision: nat, now: Time): Node {
    Node(owner, c.parent, c.kind, c.metadata, c.keyVersion, StoredScope(c.scope.GetOr(owner), owner), None, revision,
         now, now, None)
  }

  function CreateTx(t: Tables, c: CreateInput, now: Time): Tx<Id> {
    if |c.metadata| == 0 || c.keyVersion < 1 then Err(BadInput) else
    match ReplayOf(t.processed, c.operation, c.actor, NodeCreate)
    case Reused => Err(OperationReused)
    case Applied(x) => Ok(Committed(t, x))
    case Fresh =>
      :- Need(ActiveDevice(t.devices, c.actor, c.device), Forbidden);
      var place :- Place(t, c.actor, c.parent);
      :- ValidateKeyScope(t.folderKeys, place.owner, c.actor, place.writeRoot, c.scope.GetOr(place.owner),
                          c.keyVersion);
      :- Need(c.id !in t.nodes, IdTaken);
      var t1 := Logged(t, place.owner, c.id, Created, now);
      var t2 := WithNode(t1, c.id, NewNode(c, place.owner, |t1.log|, now));
      Ok(Committed(Recorded(t2, c.operation, c.actor, c.device, NodeCreate, c.id, now), c.id))
  }

  method Create(db: Database, c: CreateInput, now: Time) returns (r: Result<Node>)
    modifies db
    ensures db.tables == After(old(db.tables), CreateTx(old(db.tables), c, now))
    ensures r == Reply(db.tables, c.actor, Answer(CreateTx(old(db.tables), c, now)))
  {
    var start := db.tables;
    :- Need(|c.metadata| > 0 && c.keyVersion >= 1, BadInput);
    match ReplayOf(start.processed, c.operation, c.actor, NodeCreate) {
      case Reused => return Err(OperationReused);
      case Applied(x) => return Get(start, c.actor, x);
      case Fresh =>
    }
    :- Need(ActiveDevice(start.devices, c.actor, c.device), Forbidden);
    var place :- Place(start, c.actor, c.parent);
    :- ValidateKeyScope(start.folderKeys, place.owner, c.actor, place.writeRoot, c.scope.GetOr(place.owner),
                        c.keyVersion);
    var revision := RecordChange(db, place.owner, c.id, Created, now);
    if c.id in db.tables.nodes {
      db.tables := start;
      return Err(IdTaken);
    }
    db.tables := db.tables.(nodes := db.tables.nodes[c.id := NewNode(c, place.owner, revision, now)]);
    RecordProcessed(db, c.operation, c.actor, c.device, NodeCreate, c.id, now);
    r := Get(db.tables, c.actor, c.id);
  }

  // ---------------------------------------------------------------- update

  datatype UpdateInput = UpdateInput(
    actor: Id, device: Id, operation: Id, node: Id, expected: nat,
    metadata: Bytes, keyVersion: int, scope: Option<Id>, move: bool, parent: Option<Id>)

  /** Walk up from `current` at most `left` rows, looking for the moving node. */
  function CycleWalk(ns: map<Id, Node>, moving: Id, current: Id, left: nat): Check
    decreases left
  {
    if left == 0 then Fail(TreeTooDeep)
    else if current == moving then Fail(MoveCycle)
    else if current !in ns then Fail(MissingRow)
    else match ns[current].parent
      case None => Pass
      case Some(p) => CycleWalk(ns, moving, p, left - 1)
  }

  method ForbidCycle(ns: map<Id, Node>, moving: Id, newParent: Id) returns (r: Check)
    ensures r == CycleWalk(ns, moving, newParent, MAX_MOVE_DEPTH)
  {
    var current := newParent;
    for i := 0 to MAX_MOVE_DEPTH
      invariant CycleWalk(ns, moving, newParent, MAX_MOVE_DEPTH) == CycleWalk(ns, moving, current, MAX_MOVE_DEPTH - i)
    {
      if current == moving {
        return Fail(MoveCycle);
      }
      if current !in ns {
        return Fail(MissingRow);
      }
      if ns[current].parent.None? {
        return Pass;
      }
      current := ns[current].parent.value;
    }
    r := Fail(TreeTooDeep);
  }

  /** The bounded walk accepts exactly the parents outside the moved subtree whose chain fits. */
  lemma {:induction false} CycleWalkExact(ns: map<Id, Node>, moving: Id, current: Id, left: nat)
    requires Rooted(ns) && current in ns
    ensures CycleWalk(ns, moving, current, left).Pass? <==> !Below(ns, current, moving) && |Chain(ns, current)| <= left
    decreases left
  {
    if left > 0 {
      match ns[current].parent {
        case None =>
        case Some(p) =>
          ChainStep(ns, current, p);
          CycleWalkExact(ns, moving, p, left - 1);
      }
    }
  }

  predicate SharesFolders(keys: map<(Id, int), FolderKey>, owner: Id) {
    exists k | k in keys.Keys :: keys[k].owner == owner
  }

  function ValidateMove(t: Tables, actor: Id, x: Id, writeRoot: Option<Id>, parent: Option<Id>): Check
    requires x in t.nodes
  {
    if parent.None? then Need(writeRoot.None?, InvalidParent)
    else
      var p := parent.value;
      if p == x then Fail(OwnParent)
      else if DirectoryOwner(t.nodes, p) != Ok(t.nodes[x].owner) then Fail(InvalidParent)
      else if writeRoot.Some? && ShareGrant(t.nodes, t.shares, actor, p) != Some(Grant(writeRoot.value, ReadWrite))
        then Fail(InvalidParent)
      else if CycleWalk(t.nodes, x, p, MAX_MOVE_DEPTH).Fail? then CycleWalk(t.nodes, x, p, MAX_MOVE_DEPTH)
      else if SharesFolders(t.folderKeys, t.nodes[x].owner) && SubtreeHasKeyedFolder(t.nodes, t.folderKeys, x)
              && NearestKeyedFolder(t.nodes, t.folderKeys, p).Some? then Fail(NestedSharedFolder)
      else Pass
  }

  /** The same checks in the order of the service, with the walk as a loop. */
  method CheckMove(t: Tables, actor: Id, x: Id, writeRoot: Option<Id>, parent: Option<Id>) returns (r: Check)
    requires x in t.nodes
    ensures r == ValidateMove(t, actor, x, writeRoot, parent)
  {
    if parent.None? {
      return Need(writeRoot.None?, InvalidParent);
    }
    var p := parent.value;
    if p == x {
      return Fail(OwnParent);
    }
    var owner := DirectoryOwner(t.nodes, p);
    if owner.Err? || owner.value != t.nodes[x].owner {
      return Fail(InvalidParent);
    }
    if writeRoot.Some? {
      var grant := ShareGrant(t.nodes, t.shares, actor, p);
      if grant.None? || grant.value.root != writeRoot.value || grant.value.permission != ReadWrite {
        return Fail(InvalidParent);
      }
    }
    r := ForbidCycle(t.nodes, x, p);
    if r.Fail? || !SharesFolders(t.folderKeys, t.nodes[x].owner) || !SubtreeHasKeyedFolder(t.nodes, t.folderKeys, x) {
      return;
    }
    if NearestKeyedFolder(t.nodes, t.folderKeys, p).Some? {
      r := Fail(NestedSharedFolder);
    }
  }

  function UpdatedNode(n: Node, u: UpdateInput, revision: nat, now: Time): Node {
    var moved := if u.move then n.(parent := u.parent) else n;
    var renamed := if |u.metadata| > 0
                   then moved.(metadata := u.metadata, metadataKeyVersion := u.keyVersion,
                               metadataScope := StoredScope(u.scope.GetOr(n.owner), n.owner))
                   else moved;
    renamed.(revision := revision, updatedAt := now)
  }

  /** The checks on a new request, in order; yields the share it is written through. */
  function CheckedUpdate(t: Tables, u: UpdateInput): Result<Option<Id>> {
    if !ActiveDevice(t.devices, u.actor, u.device) then Err(Forbidden) else
    :- Need(u.node in t.nodes, NotFound);
    var n := t.nodes[u.node];
    var root :- AuthorizeWrite(t, u.actor, u.node);
    :- Need(n.revision == u.expected, RevisionConflict);
    :- if u.move then ValidateMove(t, u.actor, u.node, root, u.parent) else Pass;
    :- if |u.metadata| > 0
       then ValidateKeyScope(t.folderKeys, n.owner, u.actor, root, u.scope.GetOr(n.owner), u.keyVersion) else Pass;
    Ok(root)
  }

  function UpdateTx(t: Tables, u: UpdateInput, now: Time): Tx<Id> {
    if |u.metadata| == 0 && !u.move then Err(BadInput) else
    :- Need(|u.metadata| > 0 ==> u.keyVersion >= 1, BadInput);
    match ReplayOf(t.processed, u.operation, u.actor, NodeUpdate)
    case Reused => Err(OperationReused)
    case Applied(x) => Ok(Committed(t, x))
    case Fresh =>
      var _ :- CheckedUpdate(t, u);
      var n := t.nodes[u.node];
      var t1 := Logged(t, n.owner, u.node, Updated, now);
      var t2 := WithNode(t1, u.node, UpdatedNode(n, u, |t1.log|, now));
      Ok(Committed(Recorded(t2, u.operation, u.actor, u.device, NodeUpdate, u.node, now), u.node))
  }

  method Update(db: Database, u: UpdateInput, now: Time) returns (r: Result<Node>)
    modifies db
    ensures db.tables == After(old(db.tables), UpdateTx(old(db.tables), u, now))
    ensures r == Reply(db.tables, u.actor, Answer(UpdateTx(old(db.tables), u, now)))
  {
    var start := db.tables;
    :- Need(|u.metadata| > 0 || u.move, BadInput);
    :- Need(|u.metadata| > 0 ==> u.keyVersion >= 1, BadInput);
    match ReplayOf(start.processed, u.operation, u.actor, NodeUpdate) {
      case Reused => return Err(OperationReused);
      case Applied(x) => return Get(start, u.actor, x);
      case Fresh =>
    }
    :- Need(ActiveDevice(start.devices, u.actor, u.device), Forbidden);
    :- Need(u.node in start.nodes, NotFound);
    var n := start.nodes[u.node];
    var root :- AuthorizeWrite(start, u.actor, u.node);
    :- Need(n.revision == u.expected, RevisionConflict);
    if u.move {
      var check := CheckMove(start, u.actor, u.node, root, u.parent);
      :- check;
    }
    var scope := u.scope.GetOr(n.owner);
    if |u.metadata| > 0 {
      var accepted := ValidateKeyScope(start.folderKeys, n.owner, u.actor, root, scope, u.keyVersion);
      :- accepted;
    }
    var revision := RecordChange(db, n.owner, u.node, Updated, now);
    var row := n.(revision := revision, updatedAt := now);
    if u.move {
      row := row.(parent := u.parent);
    }
    if |u.metadata| > 0 {
      row := row.(metadata := u.metadata, metadataKeyVersion := u.keyVersion,
                  metadataScope := StoredScope(scope, n.owner));
    }
    db.tables := db.tables.(nodes := db.tables.nodes[u.node := row]);
    RecordProcessed(db, u.operation, u.actor, u.device, NodeUpdate, u.node, now);
    r := Get(db.tables, u.actor, u.node);
  }

  // ---------------------------------------------------------------- delete and restore

  datatype NodeRequest = NodeRequest(actor: Id, device: Id, node: Id, operation: Id)

  function DeleteTx(t: Tables, q: NodeRequest, expected: nat, now: Time): Tx<Id> {
    match ReplayOf(t.processed, q.operation, q.actor, NodeDelete)
    case Reused => Err(OperationReused)
    case Applied(x) => Ok(Committed(t, x))
    case Fresh =>
      :- Need(ActiveDevice(t.devices, q.actor, q.device), Forbidden);
      :- Need(q.node in t.nodes, NotFound);
      var n := t.nodes[q.node];
      var _ :- AuthorizeWrite(t, q.actor, q.node);
      :- Need(n.revision == expected, RevisionConflict);
      var t1 := Logged(t, n.owner, q.node, Deleted, now);
      var t2 := WithNode(t1, q.node, n.(deletedAt := Some(now), revision := |t1.log|, updatedAt := now));
      Ok(Committed(Recorded(t2, q.operation, q.actor, q.device, NodeDelete, q.node, now), q.node))
  }

  method Delete(db: Database, q: NodeRequest, expected: nat, now: Time) returns (r: Result<Id>)
    modifies db
    ensures db.tables == After(old(db.tables), DeleteTx(old(db.tables), q, expected, now))
    ensures r == Answer(DeleteTx(old(db.tables), q, expected, now))
  {
    var start := db.tables;
    match ReplayOf(start.processed, q.operation, q.actor, NodeDelete) {
      case Reused => return Err(OperationReused);
      case Applied(x) => return Ok(x);
      case Fresh =>
    }
    :- Need(ActiveDevice(start.devices, q.actor, q.device), Forbidden);
    :- Need(q.node in start.nodes, NotFound);
    var n := start.nodes[q.node];
    var _ :- AuthorizeWrite(start, q.actor, q.node);
    :- Need(n.revision == expected, RevisionConflict);
    var revision := RecordChange(db, n.owner, q.node, Deleted, now);
    db.tables := db.tables.(
      nodes := db.tables.nodes[q.node := n.(deletedAt := Some(now), revision := revision, updatedAt := now)]);
    RecordProcessed(db, q.operation, q.actor, q.device, NodeDelete, q.node, now);
    r := Ok(q.node);
  }

  /** A child placed under x would be hidden: x is gone, or x or a folder above it is in Trash. */
  predicate HasDeletedAncestor(ns: map<Id, Node>, x: Id) {
    x !in ns || exists y | y in Chain(ns, x) :: ns[y].deletedAt.Some?
  }

  /** The recursive query for the same: no row for x itself, or a trashed row at some depth. */
  ghost predicate HiddenQuery(ns: map<Id, Node>, x: Id) {
    (forall d: nat :: x !in Level(ns, x, d))
      || exists d: nat, y :: y in Level(ns, x, d) && y in ns && ns[y].deletedAt.Some?
  }

  lemma HiddenMatchesQuery(ns: map<Id, Node>, x: Id)
    requires Rooted(ns)
    ensures HiddenQuery(ns, x) <==> HasDeletedAncestor(ns, x)
  {
    var c := Chain(ns, x);
    forall d: nat ensures Level(ns, x, d) == if d < |c| then {c[d]} else {} { LevelIsChain(ns, x, d); }
    if x in ns {
      assert x in Level(ns, x, 0);
      if y :| y in c && ns[y].deletedAt.Some? {
        var d :| 0 <= d < |c| && c[d] == y;
        assert y in Level(ns, x, d);
      }
    }
  }

  function RestoredNode(ns: map<Id, Node>, n: Node, revision: nat, now: Time): Node {
    var toRoot := n.parent.Some? && HasDeletedAncestor(ns, n.parent.value);
    n.(deletedAt := None, parent := if toRoot then None else n.parent, revision := revision, updatedAt := now)
  }

  function RestoreTx(t: Tables, q: NodeRequest, now: Time): Tx<Id> {
    match ReplayOf(t.processed, q.operation, q.actor, NodeRestore)
    case Reused => Err(OperationReused)
    case Applied(x) => Ok(Committed(t, x))
    case Fresh =>
      :- Need(ActiveDevice(t.devices, q.actor, q.device), Forbidden);
      :- Need(q.node in t.nodes, NotFound);
      var n := t.nodes[q.node];
      :- Need(n.owner == q.actor, Forbidden);
      :- Need(n.deletedAt.Some?, NotInTrash);
      var t1 := Logged(t, q.actor, q.node, Restored, now);
      var t2 := WithNode(t1, q.node, RestoredNode(t.nodes, n, |t1.log|, now));
      Ok(Committed(Recorded(t2, q.operation, q.actor, q.device, NodeRestore, q.node, now), q.node))
  }

  method Restore(db: Database, q: NodeRequest, now: Time) returns (r: Result<Node>)
    modifies db
    ensures db.tables == After(old(db.tables), RestoreTx(old(db.tables), q, now))
    ensures r == Reply(db.tables, q.actor, Answer(RestoreTx(old(db.tables), q, now)))
  {
    var start := db.tables;
    match ReplayOf(start.processed, q.operation, q.actor, NodeRestore) {
      case Reused => return Err(OperationReused);
      case Applied(x) => return Get(start, q.actor, x);
      case Fresh =>
    }
    :- Need(ActiveDevice(start.devices, q.actor, q.device), Forbidden);
    :- Need(q.node in start.nodes, NotFound);
    var n := start.nodes[q.node];
    :- Need(n.owner == q.actor, Forbidden);
    :- Need(n.deletedAt.Some?, NotInTrash);
    var toRoot := n.parent.Some? && HasDeletedAncestor(start.nodes, n.parent.value);
    var revision := RecordChange(db, q.actor, q.node, Restored, now);
    var row := n.(deletedAt := None, revision := revision, updatedAt := now);
    if toRoot {
      row := row.(parent := None);
    }
    db.tables := db.tables.(nodes := db.tables.nodes[q.node := row]);
    RecordProcessed(db, q.operation, q.actor, q.device, NodeRestore, q.node, now);
    r := Get(db.tables, q.actor, q.node);
  }

  // ---------------------------------------------------------------- rekey

  datatype RekeyVersion = RekeyVersion(id: Id, wrappedKey: Bytes, scope: Id, version: int)

  datatype RekeyItem = RekeyItem(node: Id, expected: nat, metadata: Bytes, keyVersion: int, scope: Id,
        versions: seq<RekeyVersion>)

  datatype RekeyInput = RekeyInput(actor: Id, device: Id, items: seq<RekeyItem>)

  predicate WellFormedItem(i: RekeyItem) {
    && 0 < |i.metadata| <= MAX_REKEY_METADATA
    && |i.versions| <= MAX_REKEY_VERSIONS
    && forall v | v in i.versions :: 0 < |v.wrappedKey| <= MAX_WRAPPED_KEY
  }

  predicate WellFormedBatch(items: seq<RekeyItem>) {
    && 0 < |items| <= MAX_REKEY_ITEMS
    && (forall i | i in items :: WellFormedItem(i))
    && (forall i, j | 0 <= i < j < |items| :: items[i].node != items[j].node)
  }

  /** Rewrap the listed versions of one node, first to last. */
  function Rewrapped(t: Tables, actor: Id, owner: Id, node: Id, vs: seq<RekeyVersion>): Result<Tables>
    decreases |vs|
  {
    if vs == [] then Ok(t)
    else
      var v := vs[0];
      :- ValidateKeyScope(t.folderKeys, owner, actor, None, v.scope, v.version);
      :- Need(v.id in t.versions && t.versions[v.id].node == node, BadInput);
      var row := t.versions[v.id].(wrappedKey := v.wrappedKey, scope := v.scope, keyVersion := v.version);
      Rewrapped(t.(versions := t.versions[v.id := row]), actor, owner, node, vs[1..])
  }

  function RekeyedNode(n: Node, i: RekeyItem, revision: nat, now: Time): Node {
    n.(metadata := i.metadata, metadataKeyVersion := i.keyVersion, metadataScope := StoredScope(i.scope, n.owner),
       revision := revision, updatedAt := now)
  }

  function RekeyOne(t: Tables, actor: Id, i: RekeyItem, now: Time): Result<Tables> {
    if i.node !in t.nodes then Err(NotFound) else
    var n := t.nodes[i.node];
    :- Need(n.owner == actor, Forbidden);
    :- Need(n.revision == i.expected, RevisionConflict);
    :- ValidateKeyScope(t.folderKeys, n.owner, actor, None, i.scope, i.keyVersion);
    var t1 :- Rewrapped(t, actor, n.owner, i.node, i.versions);
    var t2 := Logged(t1, n.owner, i.node, Updated, now);
    Ok(WithNode(t2, i.node, RekeyedNode(n, i, |t2.log|, now)))
  }

  function RekeyAll(t: Tables, actor: Id, items: seq<RekeyItem>, now: Time): Result<Tables>
    decreases |items|
  {
    if items == [] then Ok(t)
    else
      var t1 :- RekeyOne(t, actor, items[0], now);
      RekeyAll(t1, actor, items[1..], now)
  }

  function RekeyTx(t: Tables, k: RekeyInput, now: Time): Tx<()> {
    if !WellFormedBatch(k.items) then Err(BadInput) else
    :- Need(ActiveDevice(t.devices, k.actor, k.device), Forbidden);
    var t' :- RekeyAll(t, k.actor, k.items, now);
    Ok(Committed(t', ()))
  }

  /** The size and uniqueness checks on a batch, with the set of nodes already seen. */
  method CheckBatch(items: seq<RekeyItem>) returns (ok: bool)
    ensures ok == WellFormedBatch(items)
  {
    if |items| == 0 || |items| > MAX_REKEY_ITEMS {
      return false;
    }
    var seen := {};
    for i := 0 to |items|
      invariant forall x :: x in seen <==> exists j :: 0 <= j < i && items[j].node == x
      invariant forall j :: 0 <= j < i ==> WellFormedItem(items[j])
      invariant forall j, k :: 0 <= j < k < i ==> items[j].node != items[k].node
    {
      if items[i].node in seen || !WellFormedItem(items[i]) {
        return false;
      }
      seen := seen + {items[i].node};
    }
    ok := true;
  }

  method RewrapVersions(db: Database, actor: Id, owner: Id, node: Id, vs: seq<RekeyVersion>) returns (r: Result<()>)
    modifies db
    ensures r.Err? ==> Rewrapped(old(db.tables), actor, owner, node, vs) == Err(r.error)
    ensures r.Ok? ==> Rewrapped(old(db.tables), actor, owner, node, vs) == Ok(db.tables)
  {
    for i := 0 to |vs|
      invariant Rewrapped(old(db.tables), actor, owner, node, vs) == Rewrapped(db.tables, actor, owner, node, vs[i..])
    {
      var v := vs[i];
      assert vs[i..][1..] == vs[i + 1..];
      :- ValidateKeyScope(db.tables.folderKeys, owner, actor, None, v.scope, v.version);
      if v.id !in db.tables.versions || db.tables.versions[v.id].node != node {
        return Err(BadInput);
      }
      var row := db.tables.versions[v.id].(wrappedKey := v.wrappedKey, scope := v.scope, keyVersion := v.version);
      db.tables := db.tables.(versions := db.tables.versions[v.id := row]);
    }
    r := Ok(());
  }

  method RekeyNode(db: Database, actor: Id, item: RekeyItem, now: Time) returns (r: Result<()>)
    modifies db
    ensures r.Err? ==> RekeyOne(old(db.tables), actor, item, now) == Err(r.error)
    ensures r.Ok? ==> RekeyOne(old(db.tables), actor, item, now) == Ok(db.tables)
  {
    if item.node !in db.tables.nodes {
      return Err(NotFound);
    }
    var n := db.tables.nodes[item.node];
    :- Need(n.owner == actor, Forbidden);
    :- Need(n.revision == item.expected, RevisionConflict);
    :- ValidateKeyScope(db.tables.folderKeys, n.owner, actor, None, item.scope, item.keyVersion);
    var _ :- RewrapVersions(db, actor, n.owner, item.node, item.versions);
    var revision := RecordChange(db, n.owner, item.node, Updated, now);
    db.tables := db.tables.(nodes := db.tables.nodes[item.node := RekeyedNode(n, item, revision, now)]);
    r := Ok(());
  }

  /** The nodes of a batch, read again one after the other. */
  function RekeyReply(t: Tables, user: Id, items: seq<RekeyItem>): Result<seq<Node>> {
    if items == [] then Ok([])
    else
      var n :- Get(t, user, items[0].node);
      var rest :- RekeyReply(t, user, items[1..]);
      Ok([n] + rest)
  }

  function Prepended(nodes: seq<Node>, r: Result<seq<Node>>): Result<seq<Node>> {
    var rest :- r;
    Ok(nodes + rest)
  }

  lemma ReplyStep(t: Tables, user: Id, items: seq<RekeyItem>, nodes: seq<Node>)
    requires items != []
    ensures Prepended(nodes, RekeyReply(t, user, items))
         == match Get(t, user, items[0].node)
            case Ok(n) => Prepended(nodes + [n], RekeyReply(t, user, items[1..]))
            case Err(e) => Err(e)
  {
    var first, rest := Get(t, user, items[0].node), RekeyReply(t, user, items[1..]);
    if first.Ok? && rest.Ok? { assert nodes + ([first.value] + rest.value) == nodes + [first.value] + rest.value; }
  }

  method ReadBack(db: Database, user: Id, items: seq<RekeyItem>) returns (r: Result<seq<Node>>)
    ensures r == RekeyReply(db.tables, user, items)
  {
    var nodes: seq<Node> := [];
    ghost var all := RekeyReply(db.tables, user, items);
    assert items[0..] == items && (all.Ok? ==> [] + all.value == all.value);
    for i := 0 to |items|
      invariant all == Prepended(nodes, RekeyReply(db.tables, user, items[i..]))
    {
      ReplyStep(db.tables, user, items[i..], nodes);
      assert items[i..][1..] == items[i + 1..];
      var read := Get(db.tables, user, items[i].node);
      if read.Err? {
        return Err(read.error);
      }
      nodes := nodes + [read.value];
    }
    assert items[|items|..] == [] && RekeyReply(db.tables, user, []) == Ok([]) && nodes + [] == nodes;
    r := Ok(nodes);
  }

  method Rekey(db: Database, k: RekeyInput, now: Time) returns (r: Result<seq<Node>>)
    modifies db
    ensures db.tables == After(old(db.tables), RekeyTx(old(db.tables), k, now))
    ensures r == match RekeyTx(old(db.tables), k, now)
                 case Ok(_) => RekeyReply(db.tables, k.actor, k.items)
                 case Err(e) => Err(e)
  {
    var start := db.tables;
    var wellFormed := CheckBatch(k.items);
    :- Need(wellFormed, BadInput);
    :- Need(ActiveDevice(start.devices, k.actor, k.device), Forbidden);
    for i := 0 to |k.items|
      invariant RekeyAll(start, k.actor, k.items, now) == RekeyAll(db.tables, k.actor, k.items[i..], now)
    {
      assert k.items[i..][1..] == k.items[i + 1..];
      var applied := RekeyNode(db, k.actor, k.items[i], now);
      if applied.Err? {
        db.tables := start;
        return Err(applied.error);
      }
    }
    r := ReadBack(db, k.actor, k.items);
  }
}
