/** The collectors are complete: what stays garbage over two passes a grace period apart is gone
    after the second, whatever runs in between. */
module Reclaimed {
  import opened Common
  import opened Schema
  import opened Trash
  import opened Uploads
  import opened Collector
  import opened Server
  import opened AccessLaws
  import opened Durability
  import opened BlobPass

  // ---------------------------------------------------------------- marks lie in the past

  ghost predicate Past(marks: map<Id, Time>, now: Time) {
    forall b :: b in marks ==> marks[b] <= now
  }

  /** Every mark of either collector was set at or before the current time. */
  ghost predicate MarksPast(s: State) {
    Past(s.tables.blobMarks, s.clock) && Past(s.tables.orphanMarks, s.clock)
  }

  lemma NodesLeaveMarks(t: Tables, a: NodeAction, now: Time)
    ensures NodeTables(t, a, now).blobMarks == t.blobMarks && NodeTables(t, a, now).orphanMarks == t.orphanMarks
  {
    NodesFrame(t, a, now);
  }

  lemma CompletionLeavesMarks(cfg: Config, s: State, a: CompletionAction, now: Time)
    ensures var t' := ApplyCompletion(cfg, s, a, now).tables;
            t'.blobMarks == s.tables.blobMarks && t'.orphanMarks == s.tables.orphanMarks
  {
    CompletionFrame(cfg, s, a, now);
  }

  lemma RetentionLeavesMarks(s: State, a: RetentionAction, now: Time)
    ensures var t' := ApplyRetention(s, a, now).tables;
            && t'.blobMarks == s.tables.blobMarks && t'.orphanMarks == s.tables.orphanMarks
            && t'.blobs == s.tables.blobs
  {
  }

  lemma OthersLeaveMarks(cfg: Config, s: State, e: Event)
    requires !e.action.OnBlobs?
    ensures var t' := Step(cfg, s, e).tables;
            t'.blobMarks == s.tables.blobMarks && t'.orphanMarks == s.tables.orphanMarks
  {
    match e.action {
      case OnNodes(a) => NodesLeaveMarks(s.tables, a, e.now);
      case OnCompletion(a) => CompletionLeavesMarks(cfg, s, a, e.now);
      case OnRetention(a) => RetentionLeavesMarks(s, a, e.now);
      case _ =>
    }
  }

  lemma CollectionKeepsPast(cfg: Config, s: State, a: BlobAction, now: Time)
    requires MarksPast(s) && s.clock <= now
    ensures var t' := ApplyCollection(cfg, s, a, now).tables; Past(t'.blobMarks, now) && Past(t'.orphanMarks, now)
  {
  }

  lemma StepKeepsMarksPast(cfg: Config, s: State, e: Event)
    requires MarksPast(s) && s.clock <= e.now
    ensures MarksPast(Step(cfg, s, e))
  {
    if e.action.OnBlobs? {
      CollectionKeepsPast(cfg, s, e.action.collection, e.now);
    } else {
      OthersLeaveMarks(cfg, s, e);
    }
  }

  lemma {:induction false} RunKeepsMarksPast(cfg: Config, s: State, es: seq<Event>)
    requires MarksPast(s) && AllowedRun(cfg, s, es)
    ensures MarksPast(Run(cfg, s, es))
    decreases |es|
  {
    if es != [] {
      RunKeepsMarksPast(cfg, s, es[..|es| - 1]);
      StepKeepsMarksPast(cfg, Run(cfg, s, es[..|es| - 1]), es[|es| - 1]);
    }
  }

  // ---------------------------------------------------------------- unreferenced blobs

  /** No version refers to the blob in any state of the run. */
  ghost predicate UnreferencedThroughout(cfg: Config, s: State, es: seq<Event>, b: Id)
    decreases |es|
  {
    && Unreferenced(Run(cfg, s, es).tables.versions, b)
    && (es != [] ==> UnreferencedThroughout(cfg, s, es[..|es| - 1], b))
  }

  /** If the blob still has a row, it carries a mark from m or before. */
  ghost predicate MarkedBy(t: Tables, b: Id, m: Time) {
    b in t.blobs ==> b in t.blobMarks && t.blobMarks[b] <= m
  }

  lemma CompletionKeepsMark(cfg: Config, s: State, a: CompletionAction, now: Time, b: Id, m: Time)
    requires MarkedBy(s.tables, b, m) && Unreferenced(ApplyCompletion(cfg, s, a, now).tables.versions, b)
    ensures MarkedBy(ApplyCompletion(cfg, s, a, now).tables, b, m)
  {
    CompletionLeavesMarks(cfg, s, a, now);
    if a.CommitBlob? && a.session in s.writing {
      CommitEffect(s, a.session, now);
      assert a.session in s.writing && StoredRows(CommitTx(s.tables, s.writing[a.session], now)) ==>
          s.writing[a.session].session.version in ApplyCompletion(cfg, s, a, now).tables.versions.Keys;
    }
  }

  lemma CollectionKeepsMark(cfg: Config, s: State, a: BlobAction, now: Time, b: Id, m: Time)
    requires MarkedBy(s.tables, b, m) && Unreferenced(s.tables.versions, b)
    ensures MarkedBy(ApplyCollection(cfg, s, a, now).tables, b, m)
  {
  }

  lemma StepKeepsMark(cfg: Config, s: State, e: Event, b: Id, m: Time)
    requires MarkedBy(s.tables, b, m)
    requires Unreferenced(s.tables.versions, b) && Unreferenced(Step(cfg, s, e).tables.versions, b)
    ensures MarkedBy(Step(cfg, s, e).tables, b, m)
  {
    match e.action {
      case OnCompletion(a) => CompletionKeepsMark(cfg, s, a, e.now, b, m);
      case OnRetention(a) => RetentionLeavesMarks(s, a, e.now);
      case OnBlobs(a) => CollectionKeepsMark(cfg, s, a, e.now, b, m);
      case _ => RequestsLeaveBlobs(cfg, s, e);
    }
  }

  lemma {:induction false} RunKeepsMark(cfg: Config, s: State, es: seq<Event>, b: Id, m: Time)
    requires MarkedBy(s.tables, b, m) && UnreferencedThroughout(cfg, s, es, b)
    ensures MarkedBy(Run(cfg, s, es).tables, b, m) && Unreferenced(s.tables.versions, b)
    decreases |es|
  {
    if es != [] {
      RunKeepsMark(cfg, s, es[..|es| - 1], b, m);
      StepKeepsMark(cfg, Run(cfg, s, es[..|es| - 1]), es[|es| - 1], b, m);
    }
  }

  /** A blob that no version refers to from one marking pass to a second at least the grace period
      later is gone, row and file, after the second, whatever happens in between. */
  lemma SecondPassCollects(cfg: Config, s: State, t1: Time, es: seq<Event>, m: State, order: seq<Id>, t2: Time, b: Id)
    requires MarksPast(s) && s.clock <= t1 && t1 + cfg.grace <= t2 && Unreferenced(s.tables.versions, b)
    requires var s1 := Step(cfg, s, Event(t1, OnBlobs(MarkUnreferenced)));
             m == Run(cfg, s1, es) && UnreferencedThroughout(cfg, s1, es, b)
    requires Enumerates(order, EligibleBlobs(MarkedBlobs(m.tables, t2), t2, cfg.grace))
    requires forall x :: x in order ==> x !in m.sweeping
    ensures var end := Run(cfg, m, CollectionPass(order, t2));
            b !in end.tables.blobs && (b in m.tables.blobs ==> b !in end.blobFiles)
  {
    var s1 := Step(cfg, s, Event(t1, OnBlobs(MarkUnreferenced)));
    assert MarkedBy(s1.tables, b, t1);
    RunKeepsMark(cfg, s1, es, b, t1);
    PassIsRun(cfg, m, order, t2);
    if b in m.tables.blobs {
      DueIsEligible(m.tables, b, t1, t2, cfg.grace);
      assert b in Members(order);
    }
  }

  lemma DueIsEligible(t: Tables, b: Id, t1: Time, t2: Time, grace: Time)
    requires MarkedBy(t, b, t1) && Unreferenced(t.versions, b) && b in t.blobs && t1 + grace <= t2
    ensures b in EligibleBlobs(MarkedBlobs(t, t2), t2, grace)
  {
  }

  // ---------------------------------------------------------------- orphan files

  predicate Orphaned(s: State, b: Id) {
    b in s.blobFiles && b !in s.tables.blobs
  }

  /** The file is there without a row in every state of the run. */
  ghost predicate OrphanedThroughout(cfg: Config, s: State, es: seq<Event>, b: Id)
    decreases |es|
  {
    Orphaned(Run(cfg, s, es), b) && (es != [] ==> OrphanedThroughout(cfg, s, es[..|es| - 1], b))
  }

  predicate OrphanMarkedBy(t: Tables, b: Id, m: Time) {
    b in t.orphanMarks && t.orphanMarks[b] <= m
  }

  lemma CollectionKeepsOrphanMark(cfg: Config, s: State, a: BlobAction, now: Time, b: Id, m: Time)
    requires OrphanMarkedBy(s.tables, b, m) && Orphaned(s, b) && Orphaned(ApplyCollection(cfg, s, a, now), b)
    ensures OrphanMarkedBy(ApplyCollection(cfg, s, a, now).tables, b, m)
  {
  }

  lemma {:induction false} RunKeepsOrphanMark(cfg: Config, s: State, es: seq<Event>, b: Id, m: Time)
    requires OrphanMarkedBy(s.tables, b, m) && OrphanedThroughout(cfg, s, es, b)
    ensures OrphanMarkedBy(Run(cfg, s, es).tables, b, m) && Orphaned(Run(cfg, s, es), b)
    decreases |es|
  {
    if es != [] {
      var before, e := es[..|es| - 1], es[|es| - 1];
      RunKeepsOrphanMark(cfg, s, before, b, m);
      match e.action {
        case OnBlobs(a) => CollectionKeepsOrphanMark(cfg, Run(cfg, s, before), a, e.now, b, m);
        case _ => OthersLeaveMarks(cfg, Run(cfg, s, before), e);
      }
    }
  }

  lemma ScanMarks(cfg: Config, s: State, b: Id, now: Time)
    requires Past(s.tables.orphanMarks, now) && Orphaned(s, b)
    ensures OrphanMarkedBy(Step(cfg, s, Event(now, OnBlobs(ScanOrphans))).tables, b, now)
  {
  }

  lemma DueIsOrphan(s: State, b: Id, t1: Time, t2: Time, grace: Time)
    requires OrphanMarkedBy(s.tables, b, t1) && Orphaned(s, b) && t1 + grace <= t2
    ensures b in DueOrphans(Scanned(s, t2).orphanMarks, t2, grace)
  {
  }

  lemma TreatedIsGone(s: State, done: set<Id>, b: Id, now: Time)
    requires b in done && b !in s.tables.blobs
    ensures b !in OrphansCollected(s, done, now).blobFiles
  {
  }

  lemma PassRemovesOrphan(cfg: Config, s: State, order: seq<Id>, b: Id, t1: Time, t2: Time)
    requires OrphanMarkedBy(s.tables, b, t1) && Orphaned(s, b) && t1 + cfg.grace <= t2
    requires Enumerates(order, DueOrphans(Scanned(s, t2).orphanMarks, t2, cfg.grace))
    requires forall x :: x in order ==> x !in s.condemned
    ensures b !in Run(cfg, s, OrphanPass(order, t2)).blobFiles
  {
    DueIsOrphan(s, b, t1, t2, cfg.grace);
    OrphanPassIsRun(cfg, s, order, t2);
    TreatedIsGone(s, Members(order), b, t2);
  }

  /** A file without a row from one scan to a second pass at least the grace period later is removed
      by the second, whatever happens in between. */
  lemma SecondPassRemovesOrphan(cfg: Config, s: State, t1: Time, es: seq<Event>, m: State, order: seq<Id>, t2: Time,
        b: Id)
    requires MarksPast(s) && s.clock <= t1 && t1 + cfg.grace <= t2 && Orphaned(s, b)
    requires var s1 := Step(cfg, s, Event(t1, OnBlobs(ScanOrphans)));
             m == Run(cfg, s1, es) && OrphanedThroughout(cfg, s1, es, b)
    requires Enumerates(order, DueOrphans(Scanned(m, t2).orphanMarks, t2, cfg.grace))
    requires forall x :: x in order ==> x !in m.condemned
    ensures b !in Run(cfg, m, OrphanPass(order, t2)).blobFiles
  {
    ScanMarks(cfg, s, b, t1);
    RunKeepsOrphanMark(cfg, Step(cfg, s, Event(t1, OnBlobs(ScanOrphans))), es, b, t1);
    PassRemovesOrphan(cfg, m, order, b, t1, t2);
  }
}
