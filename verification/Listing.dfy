/** Directory listings in keyset pages: rows are ordered by creation time and then ID, and each
    page continues strictly after the last row of the page before. */
module Listing {
  import opened Common
  import opened Schema
  import opened Access
  import opened Nodes
  import KeyScopes

  const MAX_PAGE_SIZE: nat := 1000

  /** What a row is ordered by, which is also what the cursor of a page carries. */
  datatype Key = Key(createdAt: Time, id: Id)

  predicate Before(a: Key, b: Key) {
    a.createdAt < b.createdAt || (a.createdAt == b.createdAt && a.id < b.id)
  }

  predicate Sorted(all: seq<Key>) {
    forall i, j :: 0 <= i < j < |all| ==> !Before(all[j], all[i])
  }

  predicate StrictlySorted(all: seq<Key>) {
    forall i, j :: 0 <= i < j < |all| ==> Before(all[i], all[j])
  }

  // ---------------------------------------------------------------- one page

  /** The rows strictly above the cursor, in order. */
  function Above(all: seq<Key>, after: Option<Key>): (r: seq<Key>)
    ensures |r| <= |all|
    decreases |all|
  {
    if all == [] then []
    else
      var n := |all| - 1;
      Above(all[..n], after) + if after.None? || Before(after.value, all[n]) then [all[n]] else []
  }

  /** A page and the cursor of the next one, which is None once the listing is exhausted. */
  datatype Page = Page(rows: seq<Key>, next: Option<Key>)

  /** A limit of 0 asks for everything that remains. */
  function PageOf(all: seq<Key>, after: Option<Key>, limit: nat): Page {
    var rest := Above(all, after);
    if limit == 0 || |rest| <= limit then Page(rest, None) else Page(rest[..limit], Some(rest[limit - 1]))
  }

  /** Reads the ordered rows of a listing, one more than fits to see whether another page exists. */
  method ListPage(all: seq<Key>, limit: int, after: Option<Key>) returns (r: Result<Page>)
    ensures !(0 <= limit <= MAX_PAGE_SIZE) ==> r == Err(BadInput)
    ensures 0 <= limit <= MAX_PAGE_SIZE ==> r == Ok(PageOf(all, after, limit))
  {
    if limit < 0 || limit > MAX_PAGE_SIZE {
      return Err(BadInput);
    }
    var rows: seq<Key> := [];
    var i := 0;
    while i < |all| && (limit == 0 || |rows| <= limit)
      invariant 0 <= i <= |all| && (limit > 0 ==> |rows| <= limit + 1)
      invariant rows == Above(all[..i], after)
    {
      assert all[..i + 1][..i] == all[..i];
      if after.None? || Before(after.value, all[i]) {
        rows := rows + [all[i]];
      } else {
        assert rows + [] == rows;
      }
      i := i + 1;
    }
    AbovePrefix(all, after, i);
    if limit == 0 || |rows| <= limit {
      assert all[..i] == all;
      return Ok(Page(rows, None));
    }
    assert rows[..limit] == Above(all, after)[..limit];
    r := Ok(Page(rows[..limit], Some(rows[limit - 1])));
  }

  lemma {:induction false} AbovePrefix(all: seq<Key>, after: Option<Key>, i: nat)
    requires i <= |all|
    ensures Above(all[..i], after) <= Above(all, after)
    decreases |all|
  {
    if i == |all| {
      assert all[..i] == all;
    } else {
      AbovePrefix(all[..|all| - 1], after, i);
      assert all[..|all| - 1][..i] == all[..i];
    }
  }

  // ---------------------------------------------------------------- a walk through the pages

  lemma {:induction false} AboveMembers(all: seq<Key>, after: Option<Key>, k: Key)
    ensures k in Above(all, after) <==> k in all && (after.None? || Before(after.value, k))
    decreases |all|
  {
    if all != [] {
      AboveMembers(all[..|all| - 1], after, k);
      assert all == all[..|all| - 1] + [all[|all| - 1]];
    }
  }

  /** A later cursor leaves fewer rows. */
  lemma {:induction false} AboveShrinks(all: seq<Key>, after: Option<Key>, cursor: Key)
    requires after.None? || Before(after.value, cursor)
    ensures |Above(all, Some(cursor))| <= |Above(all, after)|
    ensures cursor in all ==> |Above(all, Some(cursor))| < |Above(all, after)|
    decreases |all|
  {
    if all != [] {
      AboveShrinks(all[..|all| - 1], after, cursor);
      assert all == all[..|all| - 1] + [all[|all| - 1]];
    }
  }

  lemma NextIsLater(all: seq<Key>, after: Option<Key>, limit: nat)
    requires PageOf(all, after, limit).next.Some?
    ensures var cursor := PageOf(all, after, limit).next.value;
            cursor in all && (after.None? || Before(after.value, cursor))
              && |Above(all, Some(cursor))| < |Above(all, after)|
  {
    var cursor := PageOf(all, after, limit).next.value;
    AboveMembers(all, after, cursor);
    AboveShrinks(all, after, cursor);
  }

  /** All pages of a fixed listing, from a cursor to the end. */
  function Walk(all: seq<Key>, after: Option<Key>, limit: nat): seq<Key>
    decreases |Above(all, after)|
  {
    var page := PageOf(all, after, limit);
    match page.next
    case None => page.rows
    case Some(cursor) =>
      NextIsLater(all, after, limit);
      page.rows + Walk(all, Some(cursor), limit)
  }

  /** In a listing without repeated keys, what lies above a row is the rest of the listing. */
  lemma {:induction false} AboveRow(all: seq<Key>, k: nat)
    requires StrictlySorted(all) && k < |all|
    ensures Above(all, Some(all[k])) == all[k + 1..]
    decreases |all|
  {
    var n := |all| - 1;
    if k < n {
      AboveRow(all[..n], k);
      assert all[k + 1..] == all[..n][k + 1..] + [all[n]];
    } else {
      NothingAbove(all, all[n]);
    }
  }

  lemma {:induction false} NothingAbove(all: seq<Key>, k: Key)
    requires forall i :: 0 <= i < |all| ==> !Before(k, all[i])
    ensures Above(all, Some(k)) == []
    decreases |all|
  {
    if all != [] { NothingAbove(all[..|all| - 1], k); }
  }

  lemma {:induction false} AboveNone(all: seq<Key>)
    ensures Above(all, None) == all
    decreases |all|
  {
    if all != [] { AboveNone(all[..|all| - 1]); }
  }

  lemma PageFromRow(all: seq<Key>, after: Option<Key>, k: nat, limit: nat)
    requires StrictlySorted(all) && k <= |all| && Above(all, after) == all[k..] && PageOf(all, after, limit).next.Some?
    ensures 0 < limit && k + limit <= |all| && PageOf(all, after, limit).rows == all[k..][..limit]
    ensures Above(all, PageOf(all, after, limit).next) == all[k + limit..]
  {
    FullPage(all, after, limit, all[k..]);
    SliceAt(all, k, limit - 1);
    AboveRow(all, k + limit - 1);
  }

  lemma FullPage(all: seq<Key>, after: Option<Key>, limit: nat, rest: seq<Key>)
    requires Above(all, after) == rest && PageOf(all, after, limit).next.Some?
    ensures 0 < limit < |rest| && PageOf(all, after, limit) == Page(rest[..limit], Some(rest[limit - 1]))
  {
  }

  lemma SliceAt(all: seq<Key>, k: nat, i: nat)
    requires k + i < |all|
    ensures all[k..][i] == all[k + i]
  {
  }

  lemma Rejoin(all: seq<Key>, k: nat, limit: nat)
    requires k + limit <= |all|
    ensures all[k..][..limit] + all[k + limit..] == all[k..]
  {
  }

  lemma {:induction false} WalkFromRow(all: seq<Key>, after: Option<Key>, k: nat, limit: nat)
    requires StrictlySorted(all) && k <= |all| && Above(all, after) == all[k..]
    ensures Walk(all, after, limit) == all[k..]
    decreases |all| - k
  {
    if PageOf(all, after, limit).next.Some? {
      PageFromRow(all, after, k, limit);
      NextIsLater(all, after, limit);
      WalkFromRow(all, PageOf(all, after, limit).next, k + limit, limit);
      Rejoin(all, k, limit);
    }
  }

  lemma Prefixed(k: Key, rest: seq<Key>)
    requires StrictlySorted(rest) && forall r :: r in rest ==> Before(k, r)
    ensures StrictlySorted([k] + rest)
  {
  }

  /** One row a page: everything collected lies above the start, in strict order. */
  lemma {:induction false} SmallPagesIncrease(all: seq<Key>, after: Option<Key>)
    ensures StrictlySorted(Walk(all, after, 1))
    ensures forall k :: k in Walk(all, after, 1) ==> after.None? || Before(after.value, k)
    decreases |Above(all, after)|
  {
    var page := PageOf(all, after, 1);
    if page.next.Some? {
      NextIsLater(all, after, 1);
      SmallPagesIncrease(all, page.next);
      Prefixed(page.next.value, Walk(all, page.next, 1));
    } else if page.rows != [] {
      AboveMembers(all, after, page.rows[0]);
    }
  }

  /** The pages of a fixed listing join to the whole listing, for every page size, exactly when no
      two of its rows have the same key. */
  lemma PagesJoinExactly(all: seq<Key>)
    requires Sorted(all)
    ensures StrictlySorted(all) <==> forall limit: nat :: Walk(all, None, limit) == all
  {
    AboveNone(all);
    if StrictlySorted(all) {
      forall limit: nat ensures Walk(all, None, limit) == all {
        assert all[0..] == all;
        WalkFromRow(all, None, 0, limit);
      }
    } else {
      SmallPagesIncrease(all, None);
      assert Walk(all, None, 1) != all;
    }
  }

  // ---------------------------------------------------------------- the root listing

  /** The root listing has a row for each of the user's live root nodes and one for each active
      share of a live node to the user. */
  datatype Row = Own(node: Id) | Via(share: Id)

  function RowNode(t: Tables, r: Row): Id
    requires r.Via? ==> r.share in t.shares
  {
    if r.Own? then r.node else t.shares[r.share].node
  }

  predicate RootRow(t: Tables, user: Id, r: Row) {
    match r
    case Own(x) => x in t.nodes && t.nodes[x].owner == user && t.nodes[x].parent.None? && t.nodes[x].deletedAt.None?
    case Via(sid) =>
      && sid in t.shares && t.shares[sid].target == user && t.shares[sid].revokedAt.None?
      && t.shares[sid].node in t.nodes && t.nodes[t.shares[sid].node].deletedAt.None?
  }

  function KeyOf(t: Tables, x: Id): Key
    requires x in t.nodes
  {
    Key(t.nodes[x].createdAt, x)
  }

  /** The rows of the root listing in order, each once. */
  ghost predicate OrderedRoots(t: Tables, user: Id, rows: seq<Row>) {
    && (forall r :: r in rows <==> RootRow(t, user, r))
    && (forall i, j :: 0 <= i < j < |rows| ==> rows[i] != rows[j])
    && Sorted(Keys(t, user, rows))
  }

  ghost function Keys(t: Tables, user: Id, rows: seq<Row>): seq<Key> {
    seq(|rows|, i requires 0 <= i < |rows| =>
      if RootRow(t, user, rows[i]) then KeyOf(t, RowNode(t, rows[i])) else Key(0, 0))
  }

  /** Under the sharing invariants no node has two rows: a recipient never owns what is shared
      with it and has one active share of a folder at most. */
  lemma RootRowsDistinct(t: Tables, user: Id, a: Row, b: Row)
    requires KeyScopes.KeyScopesOk(t) && RootRow(t, user, a) && RootRow(t, user, b) && RowNode(t, a) == RowNode(t, b)
    ensures a == b
  {
    if a.Via? { assert KeyScopes.SharePlaced(t.nodes, t.folderKeys, t.shares[a.share]); }
    if b.Via? { assert KeyScopes.SharePlaced(t.nodes, t.folderKeys, t.shares[b.share]); }
    if a.Via? && b.Via? {
      assert ActiveFor(t.shares, a.share, user, RowNode(t, a)) && ActiveFor(t.shares, b.share, user, RowNode(t, b));
    }
  }

  /** A node has two rows exactly when it is shared twice with the user, or is a live root of the
      user's own that is also shared with it. */
  lemma RepeatsExactly(t: Tables, user: Id, x: Id)
    ensures (exists a, b ::
               a != b && RootRow(t, user, a) && RootRow(t, user, b) && RowNode(t, a) == x && RowNode(t, b) == x)
        <==> x in t.nodes && t.nodes[x].deletedAt.None?
             && ((exists p, q :: p != q && ActiveFor(t.shares, p, user, x) && ActiveFor(t.shares, q, user, x))
                 || (t.nodes[x].owner == user && t.nodes[x].parent.None?
                     && exists p :: ActiveFor(t.shares, p, user, x)))
  {
    if p, q :|
      p != q && ActiveFor(t.shares, p, user, x) && ActiveFor(t.shares, q, user, x)
      && x in t.nodes && t.nodes[x].deletedAt.None?
    {
      assert RootRow(t, user, Via(p)) && RootRow(t, user, Via(q)) && Via(p) != Via(q);
    }
    if p :|
      ActiveFor(t.shares, p, user, x)
      && x in t.nodes && t.nodes[x].deletedAt.None? && t.nodes[x].owner == user && t.nodes[x].parent.None?
    {
      assert RootRow(t, user, Own(x)) && RootRow(t, user, Via(p));
    }
    if a, b :| a != b && RootRow(t, user, a) && RootRow(t, user, b) && RowNode(t, a) == x && RowNode(t, b) == x {
      assert a.Via? ==> ActiveFor(t.shares, a.share, user, x);
      assert b.Via? ==> ActiveFor(t.shares, b.share, user, x);
      assert a.Via? && b.Via? ==> a.share != b.share;
    }
  }

  /** In every reachable state the pages of a fixed root listing join to the sorted listing: every
      readable root node once, none twice, for every page size. */
  lemma RootListingPages(t: Tables, user: Id, rows: seq<Row>, limit: nat)
    requires KeyScopes.KeyScopesOk(t) && OrderedRoots(t, user, rows)
    ensures Walk(Keys(t, user, rows), None, limit) == Keys(t, user, rows)
    ensures forall x :: x in t.nodes ==> (InRootListing(t, user, x) <==> KeyOf(t, x) in Keys(t, user, rows))
  {
    var all := Keys(t, user, rows);
    assert StrictlySorted(all) by {
      forall i, j | 0 <= i < j < |all| ensures Before(all[i], all[j]) {
        assert rows[i] in rows && rows[j] in rows;
        if all[i].id == all[j].id { RootRowsDistinct(t, user, rows[i], rows[j]); }
        assert !Before(all[j], all[i]);
      }
    }
    PagesJoinExactly(all);
    forall x | x in t.nodes ensures InRootListing(t, user, x) <==> KeyOf(t, x) in all {
      ListedByRow(t, user, x);
      if r :| RootRow(t, user, r) && RowNode(t, r) == x {
        assert r in rows;
        var i :| 0 <= i < |rows| && rows[i] == r;
        assert all[i] == KeyOf(t, x);
      }
      if KeyOf(t, x) in all {
        var i :| 0 <= i < |all| && all[i] == KeyOf(t, x);
        assert rows[i] in rows;
      }
    }
  }

  lemma ListedByRow(t: Tables, user: Id, x: Id)
    requires x in t.nodes
    ensures InRootListing(t, user, x) <==> exists r :: RootRow(t, user, r) && RowNode(t, r) == x
  {
    if InRootListing(t, user, x) {
      if t.nodes[x].owner == user && t.nodes[x].parent.None? {
        assert RootRow(t, user, Own(x));
      } else {
        assert RootRow(t, user, Via(ShareOn(t.shares, user, x).value));
      }
    }
    if r :| RootRow(t, user, r) && RowNode(t, r) == x {
      if r.Via? { assert ActiveFor(t.shares, r.share, user, x); }
    }
  }
}
