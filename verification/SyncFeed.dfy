/** The paged change feed: pages of one user's log entries, walked while the log keeps growing. */
module SyncFeed {
  import opened Common
  import opened Schema
  import S = Server
  import ChangeLog

  /** A log entry with its revision. */
  datatype FeedRow = FeedRow(revision: nat, change: Change)

  datatype Page = Page(changes: seq<FeedRow>, nextAfter: nat, hasMore: bool)

  /** All of a user's entries with a revision above `after`, in order: the feed that paging has to
      reproduce. The entry at index i carries revision i + 1. */
  function Feed(log: seq<Change>, user: Id, after: nat): seq<FeedRow>
    decreases |log|
  {
    if |log| <= after then []
    else
      var n := |log| - 1;
      Feed(log[..n], user, after) + if log[n].user == user then [FeedRow(n + 1, log[n])] else []
  }

  function PageOf(log: seq<Change>, user: Id, after: nat, size: nat): Page {
    var all := Feed(log, user, after);
    var shown := if |all| > size then all[..size] else all;
    Page(shown, if shown == [] then after else shown[|shown| - 1].revision, |all| > size)
  }

  lemma {:induction false} FeedSorted(log: seq<Change>, user: Id, after: nat)
    ensures forall i :: 0 <= i < |Feed(log, user, after)| ==> after < Feed(log, user, after)[i].revision <= |log|
    ensures forall i, j ::
              0 <= i < j < |Feed(log, user, after)| ==>
                Feed(log, user, after)[i].revision < Feed(log, user, after)[j].revision
    decreases |log|
  {
    if |log| > after { FeedSorted(log[..|log| - 1], user, after); }
  }

  /** The feed above `after` splits at any later revision. */
  lemma {:induction false} FeedSplit(log: seq<Change>, user: Id, after: nat, middle: nat)
    requires after <= middle <= |log|
    ensures Feed(log, user, after) == Feed(log[..middle], user, after) + Feed(log, user, middle)
    decreases |log|
  {
    if |log| == middle {
      assert log[..middle] == log;
    } else {
      var n := |log| - 1;
      FeedSplit(log[..n], user, after, middle);
      assert log[..n][..middle] == log[..middle];
    }
  }

  /** The rows up to the k-th are the feed of the log as it stood at the k-th revision. */
  lemma {:induction false} FeedPrefix(log: seq<Change>, user: Id, after: nat, k: nat)
    requires 0 < k <= |Feed(log, user, after)|
    ensures var r := Feed(log, user, after)[k - 1].revision;
            after < r <= |log| && Feed(log, user, after)[..k] == Feed(log[..r], user, after)
    decreases |log|
  {
    var n := |log| - 1;
    var all, before := Feed(log, user, after), Feed(log[..n], user, after);
    FeedSorted(log, user, after);
    if k <= |before| {
      FeedPrefix(log[..n], user, after, k);
      var r := before[k - 1].revision;
      assert all[..k] == before[..k];
      assert log[..n][..r] == log[..r];
    } else {
      assert all[..k] == all && all[k - 1].revision == n + 1;
      assert log[..n + 1] == log;
    }
  }

  class SyncService {
    const defaultSize: nat
    const maxSize: nat

    /** The configuration is checked when it is loaded. */
    constructor (defaultSize: nat, maxSize: nat)
      requires 1 <= defaultSize <= maxSize
      ensures this.defaultSize == defaultSize && this.maxSize == maxSize
    {
      this.defaultSize, this.maxSize := defaultSize, maxSize;
    }

    /** What was asked for if it is in range, the default if nothing was, and never more than allowed. */
    function PageSize(requested: int): (size: int)
      ensures 1 <= requested <= maxSize ==> size == requested
      ensures requested <= 0 && defaultSize <= maxSize ==> size == defaultSize
      ensures requested > maxSize && requested >= 1 ==> size == maxSize
    {
      var size := if requested <= 0 then defaultSize else requested;
      if size > maxSize then maxSize else size
    }

    /** Up to `pageSize` entries after `afterRevision`; one more row is read to see whether the
        caller should ask again. */
    method Changes(log: seq<Change>, user: Id, afterRevision: int, pageSize: int) returns (r: Result<Page>)
      requires 1 <= defaultSize <= maxSize
      ensures afterRevision < 0 ==> r == Err(InvalidCursor)
      ensures afterRevision >= 0 ==> r == Ok(PageOf(log, user, afterRevision, PageSize(pageSize)))
    {
      if afterRevision < 0 {
        return Err(InvalidCursor);
      }
      var size := pageSize;
      if size <= 0 {
        size := defaultSize;
      }
      if size > maxSize {
        size := maxSize;
      }
      var changes: seq<FeedRow> := [];
      var i: nat := if afterRevision < |log| then afterRevision else |log|;
      assert Feed(log[..i], user, afterRevision) == [];
      while i < |log| && |changes| <= size
        invariant i <= |log| && |changes| <= size + 1
        invariant changes == Feed(log[..i], user, afterRevision)
      {
        assert log[..i + 1][..i] == log[..i];
        if log[i].user == user {
          changes := changes + [FeedRow(i + 1, log[i])];
        } else {
          assert changes + [] == changes;
        }
        i := i + 1;
      }
      ReadEnough(log, user, afterRevision, i, size);
      var page := Page(changes, afterRevision, false);
      if |changes| > size {
        page := page.(changes := changes[..size], hasMore := true);
      }
      if |page.changes| > 0 {
        page := page.(nextAfter := page.changes[|page.changes| - 1].revision);
      }
      r := Ok(page);
    }
  }

  /** Once more rows than fit the page are read, the rest of the log cannot change the page. */
  lemma ReadEnough(log: seq<Change>, user: Id, after: nat, i: nat, size: nat)
    requires i <= |log| && (i < |log| ==> |Feed(log[..i], user, after)| > size)
    ensures var read, all := Feed(log[..i], user, after), Feed(log, user, after);
            (|read| > size <==> |all| > size) && (if |read| > size then all[..size] == read[..size] else all == read)
  {
    if i < |log| {
      if after <= i { FeedSplit(log, user, after, i); }
    } else {
      assert log[..i] == log;
    }
  }

  // ---------------------------------------------------------------- walking the feed

  /** Each page was read from a log that contains the log of the page before. */
  ghost predicate Growing(logs: seq<seq<Change>>) {
    forall i {:trigger logs[i]} :: 0 < i < |logs| ==> logs[i - 1] <= logs[i]
  }

  /** What a client has collected after following nextAfter through all these pages, and the
      cursor it would use next. */
  ghost function Collected(logs: seq<seq<Change>>, user: Id, after: nat, size: nat): (r: (seq<FeedRow>, nat))
    decreases |logs|
  {
    if logs == [] then ([], after)
    else
      var n := |logs| - 1;
      var before := Collected(logs[..n], user, after, size);
      var page := PageOf(logs[n], user, before.1, size);
      (before.0 + page.changes, page.nextAfter)
  }

  /** A page continues the feed from its cursor without a gap or a repeat. */
  lemma PageContinues(log: seq<Change>, user: Id, after: nat, size: nat)
    requires size >= 1 && after <= |log|
    ensures var p := PageOf(log, user, after, size);
            && after <= p.nextAfter <= |log| && p.changes == Feed(log[..p.nextAfter], user, after)
            && (p.hasMore ==> after < p.nextAfter)
            && (!p.hasMore ==> p.changes == Feed(log, user, after))
  {
    var all, p := Feed(log, user, after), PageOf(log, user, after, size);
    if all == [] {
      assert Feed(log[..after], user, after) == [];
    } else {
      var k := |p.changes|;
      FeedPrefix(log, user, after, k);
      assert all[..k] == p.changes;
    }
  }

  /** One more page extends the feed collected up to its cursor. */
  lemma PageExtends(log: seq<Change>, user: Id, after: nat, cursor: nat, size: nat)
    requires size >= 1 && after <= cursor <= |log|
    ensures var p, collected := PageOf(log, user, cursor, size), Feed(log[..cursor], user, after);
            && cursor <= p.nextAfter <= |log| && collected + p.changes == Feed(log[..p.nextAfter], user, after)
            && (!p.hasMore ==> collected + p.changes == Feed(log, user, after))
  {
    var p := PageOf(log, user, cursor, size);
    PageContinues(log, user, cursor, size);
    FeedSplit(log[..p.nextAfter], user, after, cursor);
    assert log[..p.nextAfter][..cursor] == log[..cursor];
    FeedSplit(log, user, after, cursor);
  }

  /** At every point of the walk the client holds exactly the feed up to its cursor, each entry
      once and in order, however much was appended between the pages. */
  lemma {:induction false} WalkIsPrefix(logs: seq<seq<Change>>, user: Id, after: nat, size: nat)
    requires size >= 1 && Growing(logs) && logs != [] && after <= |logs[0]|
    ensures var c, log := Collected(logs, user, after, size), logs[|logs| - 1];
            after <= c.1 <= |log| && c.0 == Feed(log[..c.1], user, after)
    decreases |logs|
  {
    var n := |logs| - 1;
    BeforeLastPage(logs, user, after, size);
    PageExtends(logs[n], user, after, Collected(logs[..n], user, after, size).1, size);
  }

  /** What the client holds when it asks for the last page, in terms of the log of that page. */
  lemma {:induction false} BeforeLastPage(logs: seq<seq<Change>>, user: Id, after: nat, size: nat)
    requires size >= 1 && Growing(logs) && logs != [] && after <= |logs[0]|
    ensures var c, log := Collected(logs[..|logs| - 1], user, after, size), logs[|logs| - 1];
            after <= c.1 <= |log| && c.0 == Feed(log[..c.1], user, after)
    decreases |logs|, 0
  {
    var n := |logs| - 1;
    if n > 0 {
      WalkIsPrefix(logs[..n], user, after, size);
      assert logs[n - 1] <= logs[n];
      PrefixOfPrefix(logs[n - 1], logs[n], Collected(logs[..n], user, after, size).1);
    } else {
      assert Feed(logs[0][..after], user, after) == [];
    }
  }

  lemma PrefixOfPrefix(a: seq<Change>, b: seq<Change>, c: nat)
    requires a <= b && c <= |a|
    ensures a[..c] == b[..c]
  {
  }

  /** Following nextAfter until hasMore is false returns every entry of the user's feed in the
      last log exactly once and in order. */
  lemma WalkIsComplete(logs: seq<seq<Change>>, user: Id, after: nat, size: nat)
    requires size >= 1 && logs != [] && Growing(logs) && after <= |logs[0]|
    requires var n := |logs| - 1; !PageOf(logs[n], user, Collected(logs[..n], user, after, size).1, size).hasMore
    ensures Collected(logs, user, after, size).0 == Feed(logs[|logs| - 1], user, after)
  {
    var n := |logs| - 1;
    BeforeLastPage(logs, user, after, size);
    PageExtends(logs[n], user, after, Collected(logs[..n], user, after, size).1, size);
  }

  /** Nothing of the user's is left out of the feed and nothing else is in it. */
  lemma {:induction false} FeedExact(log: seq<Change>, user: Id, after: nat, r: nat)
    requires 1 <= r <= |log|
    ensures FeedRow(r, log[r - 1]) in Feed(log, user, after) <==> after < r && log[r - 1].user == user
    decreases |log|
  {
    if |log| > after {
      var n := |log| - 1;
      FeedSorted(log[..n], user, after);
      if r <= n { FeedExact(log[..n], user, after, r); }
    } else {
      assert Feed(log, user, after) == [];
    }
  }

  /** A client that held its rows as of state s, and has since walked the feed, knows of every row
      of its user that differs now: a row that no collected entry names is unchanged. */
  lemma FeedNamesEveryChange(cfg: S.Config, s: S.State, es: seq<S.Event>, user: Id, x: Id)
    requires ChangeLog.TreeAndLog(s.tables)
    requires forall row :: row in Feed(S.Run(cfg, s, es).tables.log, user, |s.tables.log|) ==> row.change.node != x
    ensures ChangeLog.OwnedRow(S.Run(cfg, s, es).tables.nodes, user, x) == ChangeLog.OwnedRow(s.tables.nodes, user, x)
  {
    var log := S.Run(cfg, s, es).tables.log;
    if ChangeLog.NamedSince(log, |s.tables.log|, user, x) {
      var j :| |s.tables.log| <= j < |log| && log[j].user == user && log[j].node == x;
      FeedExact(log, user, |s.tables.log|, j + 1);
    }
    ChangeLog.UnnamedRowsAreCurrent(cfg, s, es, user, x);
  }
}
