/** An uninterrupted collection pass is one run of the state machine's actions, so what is proved
    about every run, with crashes and other requests in between, covers the pass. */
module BlobPass {
  import opened Common
  import opened Schema
  import opened Trash
  import opened Collector
  import opened Server

  /** The removal transaction and the file removal of each candidate, in order. */
  function Removals(order: seq<Id>, now: Time): seq<Event>
    decreases |order|
  {
    if order == [] then []
    else
      var b := order[|order| - 1];
      Removals(order[..|order| - 1], now) + [Event(now, OnBlobs(SweepRow(b))), Event(now, OnBlobs(SweepFile(b)))]
  }

  function CollectionPass(order: seq<Id>, now: Time): seq<Event> {
    [Event(now, OnBlobs(MarkUnreferenced))] + Removals(order, now)
  }

  /** The state after a marking pass and the removal of the blobs in `gone`. */
  function Collected(s: State, gone: set<Id>, now: Time): State {
    s.(tables := WithoutBlobs(MarkedBlobs(s.tables, now), gone), blobFiles := s.blobFiles - gone, clock := now)
  }

  lemma TwoSteps(cfg: Config, s: State, es: seq<Event>, a: Event, b: Event)
    ensures Run(cfg, s, es + [a, b]) == Step(cfg, Step(cfg, Run(cfg, s, es), a), b)
  {
    assert (es + [a, b])[..|es| + 1] == es + [a];
    assert (es + [a])[..|es|] == es;
  }

  lemma RemoveBoth(cfg: Config, s: State, done: set<Id>, b: Id, now: Time)
    requires b !in s.sweeping && b !in done && b in EligibleBlobs(MarkedBlobs(s.tables, now), now, cfg.grace)
    ensures Step(cfg, Step(cfg, Collected(s, done, now), Event(now, OnBlobs(SweepRow(b)))),
                 Event(now, OnBlobs(SweepFile(b))))
         == Collected(s, done + {b}, now)
  {
    var m := MarkedBlobs(s.tables, now);
    SweepOne(m, s.blobFiles, done, b);
    assert b in EligibleBlobs(WithoutBlobs(m, done), now, cfg.grace);
  }

  lemma MarkOnly(cfg: Config, s: State, now: Time)
    ensures Run(cfg, s, [Event(now, OnBlobs(MarkUnreferenced))]) == Collected(s, {}, now)
  {
    var mark := Event(now, OnBlobs(MarkUnreferenced));
    assert [mark][..0] == [];
    assert WithoutBlobs(MarkedBlobs(s.tables, now), {}) == MarkedBlobs(s.tables, now)
           && s.blobFiles - {} == s.blobFiles;
  }

  /** One more blob in the listing: its two steps follow the pass so far. */
  lemma PassGrows(cfg: Config, s: State, before: seq<Id>, b: Id, now: Time)
    requires b !in s.sweeping && b !in before && b in EligibleBlobs(MarkedBlobs(s.tables, now), now, cfg.grace)
    requires Run(cfg, s, CollectionPass(before, now)) == Collected(s, Members(before), now)
    ensures Run(cfg, s, CollectionPass(before + [b], now)) == Collected(s, Members(before + [b]), now)
  {
    var row, file := Event(now, OnBlobs(SweepRow(b))), Event(now, OnBlobs(SweepFile(b)));
    RemovalsGrow(before, b, now);
    TwoSteps(cfg, s, CollectionPass(before, now), row, file);
    RemoveBoth(cfg, s, Members(before), b, now);
    assert Members(before + [b]) == Members(before) + {b};
  }

  lemma RemovalsGrow(before: seq<Id>, b: Id, now: Time)
    ensures CollectionPass(before + [b], now)
            == CollectionPass(before, now) + [Event(now, OnBlobs(SweepRow(b))), Event(now, OnBlobs(SweepFile(b)))]
  {
    assert (before + [b])[..|before|] == before;
  }

  /** Marking and then removing the eligible blobs one at a time, in any order, is what the
      collector's method computes. */
  lemma {:induction false} PassIsRun(cfg: Config, s: State, order: seq<Id>, now: Time)
    requires forall i, j :: 0 <= i < j < |order| ==> order[i] != order[j]
    requires forall b :: b in order ==>
               b !in s.sweeping && b in EligibleBlobs(MarkedBlobs(s.tables, now), now, cfg.grace)
    ensures Run(cfg, s, CollectionPass(order, now)) == Collected(s, Members(order), now)
    decreases |order|
  {
    if order == [] {
      MarkOnly(cfg, s, now);
      assert CollectionPass(order, now) == [Event(now, OnBlobs(MarkUnreferenced))];
      assert Members(order) == {};
    } else {
      var before, b := order[..|order| - 1], order[|order| - 1];
      PassIsRun(cfg, s, before, now);
      PassGrows(cfg, s, before, b, now);
      assert before + [b] == order;
    }
  }

  // ---------------------------------------------------------------- orphan files

  /** The check of the row and the file removal of each candidate, in order. */
  function OrphanRemovals(order: seq<Id>, now: Time): seq<Event>
    decreases |order|
  {
    if order == [] then []
    else
      var b := order[|order| - 1];
      OrphanRemovals(order[..|order| - 1], now)
      + [Event(now, OnBlobs(CheckOrphan(b))), Event(now, OnBlobs(RemoveOrphan(b)))]
  }

  function OrphanPass(order: seq<Id>, now: Time): seq<Event> {
    [Event(now, OnBlobs(ScanOrphans))] + OrphanRemovals(order, now)
  }

  function Scanned(s: State, now: Time): Tables {
    s.tables.(orphanMarks := OrphanMarks(s.tables.blobs, s.blobFiles, s.tables.orphanMarks, now))
  }

  /** The state after the scan and the treatment of the candidates in `done`. */
  function OrphansCollected(s: State, done: set<Id>, now: Time): State {
    s.(tables := WithoutMarks(Scanned(s, now), done), blobFiles := s.blobFiles - Unlisted(s.tables.blobs, done),
       clock := now)
  }

  lemma CheckAndRemove(cfg: Config, s: State, done: set<Id>, b: Id, now: Time)
    requires b !in s.condemned && b !in done && b in DueOrphans(Scanned(s, now).orphanMarks, now, cfg.grace)
    ensures Step(cfg, Step(cfg, OrphansCollected(s, done, now), Event(now, OnBlobs(CheckOrphan(b)))),
                 Event(now, OnBlobs(RemoveOrphan(b))))
         == OrphansCollected(s, done + {b}, now)
  {
    OrphanOne(Scanned(s, now), s.blobFiles, done, b);
    assert b in DueOrphans(WithoutMarks(Scanned(s, now), done).orphanMarks, now, cfg.grace);
    assert s.condemned + {b} - {b} == s.condemned;
  }

  lemma ScanOnly(cfg: Config, s: State, now: Time)
    ensures Run(cfg, s, [Event(now, OnBlobs(ScanOrphans))]) == OrphansCollected(s, {}, now)
  {
    var scan := Event(now, OnBlobs(ScanOrphans));
    assert [scan][..0] == [];
    assert Unlisted(s.tables.blobs, {}) == {} && s.blobFiles - {} == s.blobFiles;
    assert WithoutMarks(Scanned(s, now), {}) == Scanned(s, now);
  }

  lemma OrphanPassGrows(cfg: Config, s: State, before: seq<Id>, b: Id, now: Time)
    requires b !in s.condemned && b !in before && b in DueOrphans(Scanned(s, now).orphanMarks, now, cfg.grace)
    requires Run(cfg, s, OrphanPass(before, now)) == OrphansCollected(s, Members(before), now)
    ensures Run(cfg, s, OrphanPass(before + [b], now)) == OrphansCollected(s, Members(before + [b]), now)
  {
    var check, remove := Event(now, OnBlobs(CheckOrphan(b))), Event(now, OnBlobs(RemoveOrphan(b)));
    OrphanRemovalsGrow(before, b, now);
    TwoSteps(cfg, s, OrphanPass(before, now), check, remove);
    CheckAndRemove(cfg, s, Members(before), b, now);
    assert Members(before + [b]) == Members(before) + {b};
  }

  lemma OrphanRemovalsGrow(before: seq<Id>, b: Id, now: Time)
    ensures OrphanPass(before + [b], now)
            == OrphanPass(before, now) + [Event(now, OnBlobs(CheckOrphan(b))), Event(now, OnBlobs(RemoveOrphan(b)))]
  {
    assert (before + [b])[..|before|] == before;
  }

  /** Scanning and then treating the due files one at a time, in any order, is what the orphan
      collector's method computes. */
  lemma {:induction false} OrphanPassIsRun(cfg: Config, s: State, order: seq<Id>, now: Time)
    requires forall i, j :: 0 <= i < j < |order| ==> order[i] != order[j]
    requires forall b :: b in order ==>
               b !in s.condemned && b in DueOrphans(Scanned(s, now).orphanMarks, now, cfg.grace)
    ensures Run(cfg, s, OrphanPass(order, now)) == OrphansCollected(s, Members(order), now)
    decreases |order|
  {
    if order == [] {
      ScanOnly(cfg, s, now);
      assert OrphanPass(order, now) == [Event(now, OnBlobs(ScanOrphans))];
      assert Members(order) == {};
    } else {
      var before, b := order[..|order| - 1], order[|order| - 1];
      OrphanPassIsRun(cfg, s, before, now);
      OrphanPassGrows(cfg, s, before, b, now);
      assert before + [b] == order;
    }
  }
}
