/** Authorization and key-scope rules shared by the node, upload and sharing services. */
module Access {
  import opened Common
  import opened Schema
  import opened Forest

  datatype Grant = Grant(root: Id, permission: Permission)

  // ---------------------------------------------------------------- the active share of a node

  predicate ActiveFor(shares: map<Id, Share>, sid: Id, user: Id, node: Id) {
    sid in shares && shares[sid].node == node && shares[sid].target == user && shares[sid].revokedAt.None?
  }

  /** An active share of `node` to `user`, if there is one. */
  function ShareOn(shares: map<Id, Share>, user: Id, node: Id): (r: Option<Id>)
    ensures r.Some? ==> ActiveFor(shares, r.value, user, node)
    ensures r.None? ==> forall sid :: !ActiveFor(shares, sid, user, node)
  {
    var found := set sid | sid in shares && ActiveFor(shares, sid, user, node);
    if found == {} then
      assert forall sid :: ActiveFor(shares, sid, user, node) ==> sid in found;
      None
    else Some(MaxOf(found))
  }

  /** Walk up until a share of `user` is met; a trashed node on the way hides it. */
  function GrantAlong(ns: map<Id, Node>, shares: map<Id, Share>, user: Id, c: seq<Id>): Option<Grant>
    requires forall y :: y in c ==> y in ns
  {
    if c == [] || ns[c[0]].deletedAt.Some? then None
    else match ShareOn(shares, user, c[0])
      case Some(sid) => Some(Grant(c[0], shares[sid].permission))
      case None => GrantAlong(ns, shares, user, c[1..])
  }

  /** The nearest active share of x or an ancestor whose recipient is `user`. */
  function ShareGrant(ns: map<Id, Node>, shares: map<Id, Share>, user: Id, x: Id): Option<Grant> {
    GrantAlong(ns, shares, user, Chain(ns, x))
  }

  /** The k-th node of a walk carries the nearest share and nothing up to it is in Trash. */
  ghost predicate GrantedAt(ns: map<Id, Node>, shares: map<Id, Share>, user: Id, c: seq<Id>, k: nat)
    requires forall y :: y in c ==> y in ns
  {
    && k < |c|
    && ShareOn(shares, user, c[k]).Some?
    && (forall i :: 0 <= i < k ==> ShareOn(shares, user, c[i]).None?)
    && (forall i :: 0 <= i <= k ==> ns[c[i]].deletedAt.None?)
  }

  lemma {:induction false} GrantPosition(ns: map<Id, Node>, shares: map<Id, Share>, user: Id,
        c: seq<Id>) returns (k: nat)
    requires forall y :: y in c ==> y in ns
    requires GrantAlong(ns, shares, user, c).Some?
    ensures GrantedAt(ns, shares, user, c, k) && GrantAlong(ns, shares, user, c).value.root == c[k]
  {
    if ShareOn(shares, user, c[0]).Some? {
      k := 0;
    } else {
      var j := GrantPosition(ns, shares, user, c[1..]);
      k := j + 1;
      forall i | 0 <= i <= k ensures ns[c[i]].deletedAt.None? && (i < k ==> ShareOn(shares, user, c[i]).None?) {
        if i > 0 { assert c[i] == c[1..][i - 1]; }
      }
    }
  }

  lemma {:induction false} GrantFound(ns: map<Id, Node>, shares: map<Id, Share>, user: Id, c: seq<Id>, k: nat)
    requires forall y :: y in c ==> y in ns
    requires GrantedAt(ns, shares, user, c, k)
    ensures GrantAlong(ns, shares, user, c) == Some(Grant(c[k], shares[ShareOn(shares, user, c[k]).value].permission))
  {
    assert ns[c[0]].deletedAt.None?;
    if k > 0 {
      assert c[1..][k - 1] == c[k];
      forall i | 0 <= i <= k - 1
        ensures ns[c[1..][i]].deletedAt.None? && (i < k - 1 ==> ShareOn(shares, user, c[1..][i]).None?)
      {
        assert c[1..][i] == c[i + 1];
      }
      GrantFound(ns, shares, user, c[1..], k - 1);
    }
  }

  /** Only Trash and shares along the walk matter. */
  lemma {:induction false} GrantFrame(ns: map<Id, Node>, ns': map<Id, Node>, shares: map<Id, Share>, user: Id,
        c: seq<Id>)
    requires forall y :: y in c ==> y in ns && y in ns' && ns'[y].deletedAt == ns[y].deletedAt
    ensures GrantAlong(ns', shares, user, c) == GrantAlong(ns, shares, user, c)
  {
    if c != [] { GrantFrame(ns, ns', shares, user, c[1..]); }
  }

  // ---------------------------------------------------------------- the recursive queries

  /** Rows that the UNION ALL ancestor query produces at one recursion depth. */
  ghost function Level(ns: map<Id, Node>, x: Id, depth: nat): set<Id> {
    if depth == 0 then (if x in ns then {x} else {})
    else set y | y in ns && exists a :: a in Level(ns, x, depth - 1) && a in ns && ns[a].parent == Some(y)
  }

  /** On a forest the query has one row per depth, the walk of the parents, and stops after it. */
  lemma {:induction false} LevelIsChain(ns: map<Id, Node>, x: Id, depth: nat)
    requires Rooted(ns)
    ensures Level(ns, x, depth) == if depth < |Chain(ns, x)| then {Chain(ns, x)[depth]} else {}
  {
    if depth > 0 {
      LevelIsChain(ns, x, depth - 1);
      var c, last := Chain(ns, x), depth - 1;
      if last < |c| {
        assert IsPath(ns, c) && Link(ns, c, last);
        if depth < |c| { assert Link(ns, c, depth); }
        LevelStep(ns, x, c[last], depth);
      } else {
        assert Level(ns, x, depth) == {};
      }
    }
  }

  lemma LevelStep(ns: map<Id, Node>, x: Id, a: Id, depth: nat)
    requires depth > 0 && a in ns && Level(ns, x, depth - 1) == {a}
    ensures Level(ns, x, depth) == if ns[a].parent.Some? && ns[a].parent.value in ns then {ns[a].parent.value} else {}
  {
  }

  /** A row the grant query may select: an active share at the least depth that has one, with no
      trashed row at that depth or below. */
  ghost predicate QuerySelects(ns: map<Id, Node>, shares: map<Id, Share>, user: Id, x: Id, root: Id, sid: Id) {
    exists d: nat :: QuerySelectsAt(ns, shares, user, x, root, sid, d)
  }

  ghost predicate QuerySelectsAt(ns: map<Id, Node>, shares: map<Id, Share>, user: Id, x: Id, root: Id, sid: Id, d: nat)
  {
    && root in Level(ns, x, d) && ActiveFor(shares, sid, user, root)
    && (forall e: nat, y, other :: e < d && y in Level(ns, x, e) ==> !ActiveFor(shares, other, user, y))
    && (forall e: nat, y :: e <= d && y in Level(ns, x, e) ==> y in ns && ns[y].deletedAt.None?)
  }

  /** The recursive query and the walk find the same share root, or neither finds one; the walk's
      permission is that of a row the query may select, and of the only one if it is the only
      active share of the root to this user. */
  lemma GrantMatchesQuery(ns: map<Id, Node>, shares: map<Id, Share>, user: Id, x: Id, root: Id)
    requires Rooted(ns)
    ensures (exists sid :: QuerySelects(ns, shares, user, x, root, sid)) <==>
            ShareGrant(ns, shares, user, x).Some? && ShareGrant(ns, shares, user, x).value.root == root
    ensures ShareGrant(ns, shares, user, x).Some? && ShareGrant(ns, shares, user, x).value.root == root ==>
              exists sid :: QuerySelects(ns, shares, user, x, root, sid)
                && shares[sid].permission == ShareGrant(ns, shares, user, x).value.permission
    ensures forall sid ::
              QuerySelects(ns, shares, user, x, root, sid)
              && (forall other :: ActiveFor(shares, other, user, root) ==> other == sid) ==>
                ShareGrant(ns, shares, user, x) == Some(Grant(root, shares[sid].permission))
  {
    forall sid | QuerySelects(ns, shares, user, x, root, sid)
      ensures ShareOn(shares, user, root).Some?
      ensures ShareGrant(ns, shares, user, x) == Some(Grant(root, shares[ShareOn(shares, user, root).value].permission))
    {
      SelectedIsGrant(ns, shares, user, x, root, sid);
    }
    if ShareGrant(ns, shares, user, x).Some? && ShareGrant(ns, shares, user, x).value.root == root {
      GrantIsSelected(ns, shares, user, x);
    }
  }

  lemma SelectedIsGrant(ns: map<Id, Node>, shares: map<Id, Share>, user: Id, x: Id, root: Id, sid: Id)
    requires Rooted(ns) && QuerySelects(ns, shares, user, x, root, sid)
    ensures ShareOn(shares, user, root).Some?
    ensures ShareGrant(ns, shares, user, x) == Some(Grant(root, shares[ShareOn(shares, user, root).value].permission))
  {
    var c := Chain(ns, x);
    var d: nat :| QuerySelectsAt(ns, shares, user, x, root, sid, d);
    LevelIsChain(ns, x, d);
    forall i: nat | i <= d ensures ns[c[i]].deletedAt.None? && (i < d ==> ShareOn(shares, user, c[i]).None?) {
      LevelIsChain(ns, x, i);
      assert c[i] in Level(ns, x, i);
    }
    GrantFound(ns, shares, user, c, d);
  }

  lemma GrantIsSelected(ns: map<Id, Node>, shares: map<Id, Share>, user: Id, x: Id)
    requires Rooted(ns) && ShareGrant(ns, shares, user, x).Some?
    ensures var g := ShareGrant(ns, shares, user, x).value;
            && ShareOn(shares, user, g.root).Some?
            && g.permission == shares[ShareOn(shares, user, g.root).value].permission
            && QuerySelects(ns, shares, user, x, g.root, ShareOn(shares, user, g.root).value)
  {
    var c := Chain(ns, x);
    var d := GrantPosition(ns, shares, user, c);
    GrantFound(ns, shares, user, c, d);
    forall e: nat ensures Level(ns, x, e) == if e < |c| then {c[e]} else {} { LevelIsChain(ns, x, e); }
    assert QuerySelectsAt(ns, shares, user, x, c[d], ShareOn(shares, user, c[d]).value, d);
  }

  /** Rows of the descendants query, added round by round until a round adds none. */
  function SubtreeQuery(ns: map<Id, Node>, rows: set<Id>): (r: set<Id>)
    requires rows <= ns.Keys
    ensures rows <= r <= ns.Keys
    ensures forall y :: y in ns && ns[y].parent.Some? && ns[y].parent.value in r ==> y in r
    decreases ns.Keys - rows
  {
    var next := rows + set y | y in ns && ns[y].parent.Some? && ns[y].parent.value in rows;
    if next == rows then
      assert forall y :: y in ns && ns[y].parent.Some? && ns[y].parent.value in rows ==> y in next;
      rows
    else SubtreeQuery(ns, next)
  }

  lemma {:induction false} SubtreeQuerySound(ns: map<Id, Node>, rows: set<Id>, x: Id)
    requires Rooted(ns) && rows <= ns.Keys && forall y :: y in rows ==> Below(ns, y, x)
    ensures forall y :: y in SubtreeQuery(ns, rows) ==> Below(ns, y, x)
    decreases ns.Keys - rows
  {
    var next := rows + set y | y in ns && ns[y].parent.Some? && ns[y].parent.value in rows;
    forall y | y in next ensures Below(ns, y, x) {
      if y !in rows { ChainStep(ns, y, ns[y].parent.value); }
    }
    if next != rows { SubtreeQuerySound(ns, next, x); }
  }

  /** A set closed under taking children contains everything below its members. */
  lemma {:induction false} ClosedDownward(ns: map<Id, Node>, r: set<Id>, y: Id, x: Id)
    requires Rooted(ns) && x in r && Below(ns, y, x)
    requires forall z :: z in ns && ns[z].parent.Some? && ns[z].parent.value in r ==> z in r
    ensures y in r
    decreases |Chain(ns, y)|
  {
    assert y in ns;
    if y != x {
      assert IsPath(ns, Chain(ns, y)) && Link(ns, Chain(ns, y), 0);
      var p := ns[y].parent.value;
      ChainStep(ns, y, p);
      ClosedDownward(ns, r, p, x);
    }
  }

  /** The descendants query returns exactly the nodes whose walk meets x. */
  lemma SubtreeIsDescendants(ns: map<Id, Node>, x: Id)
    requires Rooted(ns) && x in ns
    ensures forall y :: y in SubtreeQuery(ns, {x}) <==> y in ns && Below(ns, y, x)
  {
    SubtreeQuerySound(ns, {x}, x);
    forall y | y in ns && Below(ns, y, x) ensures y in SubtreeQuery(ns, {x}) {
      ClosedDownward(ns, SubtreeQuery(ns, {x}), y, x);
    }
  }

  // ---------------------------------------------------------------- keyed folders

  predicate Keyed(keys: map<(Id, int), FolderKey>, folder: Id) {
    exists k | k in keys.Keys :: k.0 == folder
  }

  function KeyedAlong(keys: map<(Id, int), FolderKey>, c: seq<Id>): (r: Option<Id>)
    ensures r.Some? ==> r.value in c && Keyed(keys, r.value)
    ensures r.None? ==> forall y :: y in c ==> !Keyed(keys, y)
  {
    if c == [] then None
    else if Keyed(keys, c[0]) then Some(c[0])
    else KeyedAlong(keys, c[1..])
  }

  function NearestKeyedFolder(ns: map<Id, Node>, keys: map<(Id, int), FolderKey>, x: Id): (r: Option<Id>)
    ensures r.Some? ==> Below(ns, x, r.value) && Keyed(keys, r.value)
    ensures r.None? ==> forall y :: Below(ns, x, y) ==> !Keyed(keys, y)
  {
    KeyedAlong(keys, Chain(ns, x))
  }

  /** The row the keyed-folder query selects: the ancestor of least depth that has a key. */
  ghost predicate KeyedQuerySelects(ns: map<Id, Node>, keys: map<(Id, int), FolderKey>, x: Id, folder: Id) {
    exists d: nat :: KeyedQuerySelectsAt(ns, keys, x, folder, d)
  }

  ghost predicate KeyedQuerySelectsAt(ns: map<Id, Node>, keys: map<(Id, int), FolderKey>, x: Id, folder: Id, d: nat) {
    folder in Level(ns, x, d) && Keyed(keys, folder)
      && forall e: nat, y :: e < d && y in Level(ns, x, e) ==> !Keyed(keys, y)
  }

  lemma {:induction false} KeyedPosition(keys: map<(Id, int), FolderKey>, c: seq<Id>) returns (k: nat)
    requires KeyedAlong(keys, c).Some?
    ensures k < |c| && KeyedAlong(keys, c) == Some(c[k]) && Keyed(keys, c[k])
            && forall i :: 0 <= i < k ==> !Keyed(keys, c[i])
  {
    if Keyed(keys, c[0]) { k := 0; } else {
      var j := KeyedPosition(keys, c[1..]);
      k := j + 1;
      forall i | 0 <= i < k ensures !Keyed(keys, c[i]) { if i > 0 { assert c[i] == c[1..][i - 1]; } }
    }
  }

  lemma {:induction false} KeyedFound(keys: map<(Id, int), FolderKey>, c: seq<Id>, k: nat)
    requires k < |c| && Keyed(keys, c[k]) && forall i :: 0 <= i < k ==> !Keyed(keys, c[i])
    ensures KeyedAlong(keys, c) == Some(c[k])
  {
    if k > 0 {
      forall i | 0 <= i < k - 1 ensures !Keyed(keys, c[1..][i]) { assert c[1..][i] == c[i + 1]; }
      KeyedFound(keys, c[1..], k - 1);
    }
  }

  /** The recursive query and the walk find the same keyed folder, or neither finds one. */
  lemma NearestMatchesQuery(ns: map<Id, Node>, keys: map<(Id, int), FolderKey>, x: Id, folder: Id)
    requires Rooted(ns)
    ensures KeyedQuerySelects(ns, keys, x, folder) <==> NearestKeyedFolder(ns, keys, x) == Some(folder)
  {
    if KeyedQuerySelects(ns, keys, x, folder) { SelectedIsNearest(ns, keys, x, folder); }
    if NearestKeyedFolder(ns, keys, x) == Some(folder) { NearestIsSelected(ns, keys, x); }
  }

  lemma SelectedIsNearest(ns: map<Id, Node>, keys: map<(Id, int), FolderKey>, x: Id, folder: Id)
    requires Rooted(ns) && KeyedQuerySelects(ns, keys, x, folder)
    ensures NearestKeyedFolder(ns, keys, x) == Some(folder)
  {
    var c := Chain(ns, x);
    var d: nat :| KeyedQuerySelectsAt(ns, keys, x, folder, d);
    LevelIsChain(ns, x, d);
    forall i: nat | i < d ensures !Keyed(keys, c[i]) {
      LevelIsChain(ns, x, i);
      assert c[i] in Level(ns, x, i);
    }
    KeyedFound(keys, c, d);
  }

  lemma NearestIsSelected(ns: map<Id, Node>, keys: map<(Id, int), FolderKey>, x: Id)
    requires Rooted(ns) && NearestKeyedFolder(ns, keys, x).Some?
    ensures KeyedQuerySelects(ns, keys, x, NearestKeyedFolder(ns, keys, x).value)
  {
    var c := Chain(ns, x);
    var d := KeyedPosition(keys, c);
    forall e: nat, y | e < d && y in Level(ns, x, e) ensures !Keyed(keys, y) { LevelIsChain(ns, x, e); }
    LevelIsChain(ns, x, d);
    assert KeyedQuerySelectsAt(ns, keys, x, c[d], d);
  }

  predicate SubtreeHasKeyedFolder(ns: map<Id, Node>, keys: map<(Id, int), FolderKey>, x: Id) {
    x in ns && exists y | y in SubtreeQuery(ns, {x}) :: Keyed(keys, y)
  }

  /** MAX(key_version) over a folder's keys under one owner, 0 when there is none. */
  function LatestVersion(keys: map<(Id, int), FolderKey>, folder: Id, owner: Id): (v: int)
    ensures forall k :: k in keys && k.0 == folder && keys[k].owner == owner ==> k.1 <= v
    ensures (exists k :: k in keys && k.0 == folder && keys[k].owner == owner)
            ==> (folder, v) in keys && keys[(folder, v)].owner == owner
  {
    var versions: set<int> := set k | k in keys && k.0 == folder && keys[k].owner == owner :: k.1;
    assert forall k :: k in keys && k.0 == folder && keys[k].owner == owner ==> k.1 in versions;
    if versions == {} then 0 else MaxOf(versions)
  }

  /** Checks the key that `actor` declared for content stored under `owner`. */
  function ValidateKeyScope(keys: map<(Id, int), FolderKey>, owner: Id, actor: Id, writeRoot: Option<Id>, scope: Id,
        version: int): Check
  {
    if version < 1 then Fail(BadInput)
    else if scope == owner then Need(actor == owner, WrongKeyScope)
    else if actor != owner && writeRoot != Some(scope) then Fail(WrongKeyScope)
    else if (scope, version) !in keys || keys[(scope, version)].owner != owner then Fail(UnknownFolderKey)
    else Need(actor == owner || version == LatestVersion(keys, scope, owner), StaleFolderKey)
  }

  function StoredScope(scope: Id, owner: Id): Option<Id> {
    if scope == owner then None else Some(scope)
  }

  /** The stored scope of a row names an existing key of the row's owner. */
  ghost predicate KeyHeld(keys: map<(Id, int), FolderKey>, owner: Id, scope: Id, version: int) {
    scope != owner ==> (scope, version) in keys && keys[(scope, version)].owner == owner
  }

  /** A member's content always carries the newest key of the share it writes through. */
  lemma AcceptedScope(keys: map<(Id, int), FolderKey>, owner: Id, actor: Id, writeRoot: Option<Id>, scope: Id,
        version: int)
    requires ValidateKeyScope(keys, owner, actor, writeRoot, scope, version).Pass?
    ensures KeyHeld(keys, owner, scope, version)
    ensures actor != owner ==> StoredScope(scope, owner) == writeRoot && writeRoot == Some(scope)
    ensures actor != owner ==>
              (scope, version) in keys
              && forall v :: (scope, v) in keys && keys[(scope, v)].owner == owner ==> v <= version
  {
    if actor != owner {
      assert forall v ::
               (scope, v) in keys && keys[(scope, v)].owner == owner ==>
                 (scope, v).1 <= LatestVersion(keys, scope, owner);
    }
  }
}
