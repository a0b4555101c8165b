/** The parent pointers of the nodes table seen as a forest. `Chain` walks the parents of a
    node; every other notion of ancestry is a statement about it. */
module Forest {
  import opened Common
  import opened Schema

  /** x, its parent, its grandparent, and so on. A node is visited at most once, so the walk
      ends on any table; `Rooted` says that it ends at a root. */
  function Chain(ns: map<Id, Node>, x: Id): (c: seq<Id>)
    ensures x in ns ==> |c| > 0 && c[0] == x
    ensures forall y :: y in c ==> y in ns
    decreases |ns|
  {
    if x !in ns then []
    else match ns[x].parent
      case None => [x]
      case Some(p) => [x] + Chain(ns - {x}, p)
  }

  /** y is x or lies below x. */
  predicate Below(ns: map<Id, Node>, y: Id, x: Id) {
    x in Chain(ns, y)
  }

  /** The i-th step of s is the step from a node to its parent, and the last node is a root. */
  ghost predicate Link(ns: map<Id, Node>, s: seq<Id>, i: nat)
    requires i < |s|
  {
    s[i] in ns && ns[s[i]].parent == if i + 1 < |s| then Some(s[i + 1]) else None
  }

  ghost predicate IsPath(ns: map<Id, Node>, s: seq<Id>) {
    |s| > 0 && forall i: nat {:trigger Link(ns, s, i)} :: i < |s| ==> Link(ns, s, i)
  }

  ghost predicate Rooted(ns: map<Id, Node>) {
    forall x {:trigger Chain(ns, x)} :: x in ns ==> IsPath(ns, Chain(ns, x))
  }

  /** The parent row, if it exists, is a directory of the same owner. */
  ghost predicate FollowsParent(ns: map<Id, Node>, x: Id)
    requires x in ns
  {
    forall p :: ns[x].parent == Some(p) && p in ns ==> ns[p].kind == Directory && ns[p].owner == ns[x].owner
  }

  ghost predicate ChildrenFollow(ns: map<Id, Node>) {
    forall x {:trigger FollowsParent(ns, x)} :: x in ns ==> FollowsParent(ns, x)
  }

  /** Every walk reaches a root, every parent is a directory, every tree has one owner. */
  ghost predicate IsForest(ns: map<Id, Node>) {
    Rooted(ns) && ChildrenFollow(ns)
  }

  lemma {:induction false} PathRepeats(ns: map<Id, Node>, s: seq<Id>, i: nat, j: nat, k: nat)
    requires IsPath(ns, s) && i < j && j + k < |s| && s[i] == s[j]
    ensures s[i + k] == s[j + k]
  {
    if k > 0 {
      PathRepeats(ns, s, i, j, k - 1);
      assert Link(ns, s, i + k - 1) && Link(ns, s, j + k - 1);
    }
  }

  /** A path to a root never repeats a node. */
  lemma PathDistinct(ns: map<Id, Node>, s: seq<Id>)
    requires IsPath(ns, s)
    ensures forall i, j :: 0 <= i < j < |s| ==> s[i] != s[j]
  {
    forall i, j | 0 <= i < j < |s| ensures s[i] != s[j] {
      var k := |s| - 1 - j;
      assert Link(ns, s, i + k) && Link(ns, s, j + k);
      if s[i] == s[j] { PathRepeats(ns, s, i, j, k); }
    }
  }

  /** The walk finds every path to a root: parents determine it. */
  lemma {:induction false} PathIsChain(ns: map<Id, Node>, s: seq<Id>)
    requires IsPath(ns, s)
    ensures Chain(ns, s[0]) == s
    decreases |s|
  {
    assert Link(ns, s, 0);
    if |s| > 1 {
      PathDistinct(ns, s);
      var rest, ns' := s[1..], ns - {s[0]};
      assert IsPath(ns', rest) by {
        forall i: nat | i < |rest| ensures Link(ns', rest, i) { assert Link(ns, s, i + 1) && s[0] != s[i + 1]; }
      }
      PathIsChain(ns', rest);
    }
  }

  /** Along a chain, the walk from the i-th node is the rest of the chain. */
  lemma ChainSuffix(ns: map<Id, Node>, x: Id, i: nat)
    requires Rooted(ns) && x in ns && i < |Chain(ns, x)|
    ensures Chain(ns, Chain(ns, x)[i]) == Chain(ns, x)[i..]
  {
    var c := Chain(ns, x);
    assert IsPath(ns, c);
    var s := c[i..];
    assert IsPath(ns, s) by {
      forall k: nat | k < |s| ensures Link(ns, s, k) { assert Link(ns, c, i + k); }
    }
    PathIsChain(ns, s);
  }

  lemma ChainStep(ns: map<Id, Node>, x: Id, p: Id)
    requires Rooted(ns) && x in ns && ns[x].parent == Some(p)
    ensures p in ns && Chain(ns, x) == [x] + Chain(ns, p) && x !in Chain(ns, p)
  {
    var c := Chain(ns, x);
    assert IsPath(ns, c);
    assert Link(ns, c, 0);
    ChainSuffix(ns, x, 1);
    PathDistinct(ns, c);
    assert x !in c[1..];
  }

  lemma BelowTransitive(ns: map<Id, Node>, z: Id, y: Id, x: Id)
    requires Rooted(ns) && Below(ns, z, y) && Below(ns, y, x)
    ensures Below(ns, z, x)
  {
    assert z in ns;
    var i :| 0 <= i < |Chain(ns, z)| && Chain(ns, z)[i] == y;
    ChainSuffix(ns, z, i);
  }

  lemma ChainPosition(ns: map<Id, Node>, y: Id, x: Id) returns (i: nat)
    requires Below(ns, y, x)
    ensures i < |Chain(ns, y)| && Chain(ns, y)[i] == x
  {
    i :| 0 <= i < |Chain(ns, y)| && Chain(ns, y)[i] == x;
  }

  lemma BelowAntisymmetric(ns: map<Id, Node>, y: Id, x: Id)
    requires Rooted(ns) && Below(ns, y, x) && Below(ns, x, y)
    ensures x == y
  {
    assert x in ns && y in ns;
    var c := Chain(ns, y);
    assert IsPath(ns, c);
    PathDistinct(ns, c);
    var i := ChainPosition(ns, y, x);
    var j := ChainPosition(ns, x, y);
    ChainSuffix(ns, y, i);
    assert c[i + j] == c[i..][j] == c[0];
  }

  /** Two ancestors of one node lie on one line. */
  lemma AncestorsComparable(ns: map<Id, Node>, y: Id, a: Id, b: Id)
    requires Rooted(ns) && Below(ns, y, a) && Below(ns, y, b)
    ensures Below(ns, a, b) || Below(ns, b, a)
  {
    var c := Chain(ns, y);
    assert y in ns;
    var i :| 0 <= i < |c| && c[i] == a;
    var j :| 0 <= j < |c| && c[j] == b;
    ChainSuffix(ns, y, i);
    ChainSuffix(ns, y, j);
    if i <= j { assert c[i..][j - i] == b; } else { assert c[j..][i - j] == a; }
  }

  lemma {:induction false} ChainOwner(ns: map<Id, Node>, x: Id, i: nat)
    requires IsForest(ns) && x in ns && i < |Chain(ns, x)|
    ensures ns[Chain(ns, x)[i]].owner == ns[x].owner
    ensures i > 0 ==> ns[Chain(ns, x)[i]].kind == Directory
  {
    assert IsPath(ns, Chain(ns, x));
    if i > 0 {
      ChainOwner(ns, x, i - 1);
      assert Link(ns, Chain(ns, x), i - 1) && FollowsParent(ns, Chain(ns, x)[i - 1]);
    }
  }

  /** One owner per tree. */
  lemma BelowOwner(ns: map<Id, Node>, y: Id, x: Id)
    requires IsForest(ns) && Below(ns, y, x)
    ensures y in ns && x in ns && ns[y].owner == ns[x].owner && (x != y ==> ns[x].kind == Directory)
  {
    assert y in ns;
    var i :| 0 <= i < |Chain(ns, y)| && Chain(ns, y)[i] == x;
    ChainOwner(ns, y, i);
  }

  // ---------------------------------------------------------------- how updates move the walk

  /** A walk all of whose steps survive an update is the same walk afterwards. */
  lemma ChainFrame(ns: map<Id, Node>, ns': map<Id, Node>, x: Id)
    requires x in ns && IsPath(ns, Chain(ns, x))
    requires forall y :: y in Chain(ns, x) ==> y in ns' && ns'[y].parent == ns[y].parent
    ensures Chain(ns', x) == Chain(ns, x) && IsPath(ns', Chain(ns', x))
  {
    var c := Chain(ns, x);
    assert IsPath(ns', c) by {
      forall i: nat | i < |c| ensures Link(ns', c, i) { assert Link(ns, c, i) && c[i] in c; }
    }
    PathIsChain(ns', c);
  }

  ghost predicate SameShape(ns: map<Id, Node>, ns': map<Id, Node>) {
    ns'.Keys == ns.Keys
    && forall x ::
         x in ns ==>
           ns'[x].parent == ns[x].parent && ns'[x].kind == ns[x].kind && ns'[x].owner == ns[x].owner
  }

  /** Rewriting contents moves nothing. */
  lemma SameShapeForest(ns: map<Id, Node>, ns': map<Id, Node>)
    requires IsForest(ns) && SameShape(ns, ns')
    ensures IsForest(ns') && forall x :: Chain(ns', x) == Chain(ns, x)
  {
    forall x ensures Chain(ns', x) == Chain(ns, x) && (x in ns' ==> IsPath(ns', Chain(ns', x))) {
      if x in ns { ChainFrame(ns, ns', x); }
    }
    forall x | x in ns' ensures FollowsParent(ns', x) { assert FollowsParent(ns, x); }
  }

  /** A new leaf hangs below its parent and moves nobody else. */
  lemma LeafForest(ns: map<Id, Node>, id: Id, n: Node)
    requires IsForest(ns) && id !in ns
    requires n.parent.Some?
             ==> n.parent.value in ns && ns[n.parent.value].kind == Directory && ns[n.parent.value].owner == n.owner
    ensures IsForest(ns[id := n])
    ensures forall x :: x in ns ==> Chain(ns[id := n], x) == Chain(ns, x)
    ensures Chain(ns[id := n], id) == [id] + (if n.parent.Some? then Chain(ns, n.parent.value) else [])
  {
    var ns' := ns[id := n];
    forall x | x in ns ensures Chain(ns', x) == Chain(ns, x) && IsPath(ns', Chain(ns', x)) {
      ChainFrame(ns, ns', x);
    }
    var tail := if n.parent.Some? then Chain(ns, n.parent.value) else [];
    Prepend(ns', id, tail);
    assert ChildrenFollow(ns') by {
      forall x | x in ns' ensures FollowsParent(ns', x) {
        if x != id {
          assert FollowsParent(ns, x);
          if ns[x].parent.Some? { ChainStep(ns, x, ns[x].parent.value); }
        }
      }
    }
  }

  /** A node in front of the path that starts at its parent. */
  lemma Prepend(ns: map<Id, Node>, x: Id, tail: seq<Id>)
    requires x in ns
    requires ns[x].parent == None ==> tail == []
    requires ns[x].parent.Some? ==> IsPath(ns, tail) && tail[0] == ns[x].parent.value
    ensures IsPath(ns, [x] + tail) && Chain(ns, x) == [x] + tail
  {
    var s := [x] + tail;
    assert IsPath(ns, s) by {
      forall i: nat | i < |s| ensures Link(ns, s, i) {
        if i > 0 { assert Link(ns, tail, i - 1); }
      }
    }
    PathIsChain(ns, s);
  }

  ghost function TailAt(ns: map<Id, Node>, q: Option<Id>): seq<Id> {
    if q.Some? then Chain(ns, q.value) else []
  }

  ghost predicate MoveAllowed(ns: map<Id, Node>, n: Id, q: Option<Id>) {
    && n in ns
    && (q.Some? ==>
          q.value in ns && !Below(ns, q.value, n) && ns[q.value].kind == Directory && ns[q.value].owner == ns[n].owner)
  }

  /** The nodes above y after n has moved below q: those up to n, and those above q. */
  ghost predicate MovedAncestors(ns: map<Id, Node>, ns': map<Id, Node>, n: Id, q: Option<Id>, y: Id) {
    forall a :: Below(ns', y, a) <==> (Below(ns, y, a) && Below(ns, a, n)) || (q.Some? && Below(ns, q.value, a))
  }

  /** Moving n below q outside its own subtree: walks that avoid n are unchanged, walks
      through n continue above q. */
  lemma MoveForest(ns: map<Id, Node>, ns': map<Id, Node>, n: Id, q: Option<Id>)
    requires IsForest(ns) && MoveAllowed(ns, n, q)
    requires ns'.Keys == ns.Keys && ns'[n].parent == q && ns'[n].kind == ns[n].kind && ns'[n].owner == ns[n].owner
    requires forall y ::
               y in ns && y != n ==>
                 ns'[y].parent == ns[y].parent && ns'[y].kind == ns[y].kind && ns'[y].owner == ns[y].owner
    ensures IsForest(ns')
    ensures Chain(ns', n) == [n] + TailAt(ns, q)
    ensures forall y :: y in ns && !Below(ns, y, n) ==> Chain(ns', y) == Chain(ns, y)
    ensures forall y {:trigger MovedAncestors(ns, ns', n, q, y)} {:trigger Chain(ns', y)} ::
              y in ns && Below(ns, y, n) ==> MovedAncestors(ns, ns', n, q, y)
  {
    forall y | y in ns && !Below(ns, y, n) ensures Chain(ns', y) == Chain(ns, y) && IsPath(ns', Chain(ns', y)) {
      ChainFrame(ns, ns', y);
    }
    Prepend(ns', n, TailAt(ns, q));
    forall y | y in ns && Below(ns, y, n) ensures IsPath(ns', Chain(ns', y)) && MovedAncestors(ns, ns', n, q, y) {
      MovedWalk(ns, ns', n, q, y);
    }
    MoveFollows(ns, ns', n, q);
  }

  lemma MoveFollows(ns: map<Id, Node>, ns': map<Id, Node>, n: Id, q: Option<Id>)
    requires ChildrenFollow(ns) && MoveAllowed(ns, n, q)
    requires ns'.Keys == ns.Keys && ns'[n].parent == q && ns'[n].kind == ns[n].kind && ns'[n].owner == ns[n].owner
    requires forall y ::
               y in ns && y != n ==>
                 ns'[y].parent == ns[y].parent && ns'[y].kind == ns[y].kind && ns'[y].owner == ns[y].owner
    ensures ChildrenFollow(ns')
  {
    forall x | x in ns' ensures FollowsParent(ns', x) { assert FollowsParent(ns, x); }
  }

  lemma {:induction false} MovedWalk(ns: map<Id, Node>, ns': map<Id, Node>, n: Id, q: Option<Id>, y: Id)
    requires IsForest(ns) && MoveAllowed(ns, n, q) && y in ns && Below(ns, y, n)
    requires ns'.Keys == ns.Keys && ns'[n].parent == q
    requires forall z :: z in ns && z != n ==> ns'[z].parent == ns[z].parent
    requires IsPath(ns', [n] + TailAt(ns, q)) && Chain(ns', n) == [n] + TailAt(ns, q)
    ensures IsPath(ns', Chain(ns', y)) && MovedAncestors(ns, ns', n, q, y)
    decreases |Chain(ns, y)|
  {
    if y == n {
      forall a
        ensures Below(ns', n, a) <==> (Below(ns, n, a) && Below(ns, a, n)) || (q.Some? && Below(ns, q.value, a))
      {
        if Below(ns, n, a) && Below(ns, a, n) { BelowAntisymmetric(ns, n, a); }
      }
    } else {
      assert IsPath(ns, Chain(ns, y)) && Link(ns, Chain(ns, y), 0);
      assert ns[y].parent.Some?;
      var p := ns[y].parent.value;
      ChainStep(ns, y, p);
      MovedWalk(ns, ns', n, q, p);
      Prepend(ns', y, Chain(ns', p));
      MovedStep(ns, ns', n, q, y, p);
    }
  }

  lemma MovedStep(ns: map<Id, Node>, ns': map<Id, Node>, n: Id, q: Option<Id>, y: Id, p: Id)
    requires Rooted(ns) && Below(ns, y, n) && MovedAncestors(ns, ns', n, q, p)
    requires Chain(ns, y) == [y] + Chain(ns, p) && Chain(ns', y) == [y] + Chain(ns', p)
    ensures MovedAncestors(ns, ns', n, q, y)
  {
    forall a ensures Below(ns', y, a) <==> (Below(ns, y, a) && Below(ns, a, n)) || (q.Some? && Below(ns, q.value, a)) {
      assert Below(ns', y, a) <==> a == y || Below(ns', p, a);
      assert Below(ns, y, a) <==> a == y || Below(ns, p, a);
    }
  }

  /** Removing a set that contains everything below its members leaves the other walks alone. */
  lemma RemoveForest(ns: map<Id, Node>, gone: set<Id>)
    requires IsForest(ns)
    requires forall y, x :: y in ns && x in gone && Below(ns, y, x) ==> y in gone
    ensures IsForest(ns - gone)
    ensures forall y :: y in ns - gone ==> Chain(ns - gone, y) == Chain(ns, y)
  {
    var ns' := ns - gone;
    forall y | y in ns' ensures Chain(ns', y) == Chain(ns, y) && IsPath(ns', Chain(ns', y)) {
      forall x | x in Chain(ns, y) ensures x in ns' && ns'[x].parent == ns[x].parent {
        assert Below(ns, y, x);
      }
      ChainFrame(ns, ns', y);
    }
    forall x | x in ns' ensures FollowsParent(ns', x) { assert FollowsParent(ns, x); }
  }
}
