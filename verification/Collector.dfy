/** Maintenance of upload sessions, blobs and file versions: expiry, the two-pass blob
    collection, the orphan-file collection and the version retention policy. */
module Collector {
  import opened Common
  import opened Schema
  import opened Trash

  // ---------------------------------------------------------------- unreferenced blobs

  predicate Unreferenced(versions: map<Id, Version>, b: Id) {
    forall v | v in versions.Keys :: versions[v].blob != b
  }

  /** First pass: every unreferenced blob carries the time it was first seen unreferenced. */
  function MarkedBlobs(t: Tables, now: Time): Tables {
    t.(blobMarks := map b | b in t.blobs && Unreferenced(t.versions, b) ::
         if b in t.blobMarks then t.blobMarks[b] else now)
  }

  function EligibleBlobs(t: Tables, now: Time, grace: Time): set<Id> {
    set b | b in t.blobMarks && b in t.blobs && t.blobMarks[b] <= now - grace && Unreferenced(t.versions, b)
  }

  /** One removal transaction: the mark goes, and the row if it is still unreferenced. */
  function SweptRow(t: Tables, b: Id): Tables {
    t.(blobMarks := t.blobMarks - {b}, blobs := if Unreferenced(t.versions, b) then t.blobs - {b} else t.blobs)
  }

  function WithoutBlobs(t: Tables, gone: set<Id>): Tables {
    t.(blobMarks := t.blobMarks - gone, blobs := t.blobs - gone)
  }

  method MarkBlobs(db: Database, now: Time)
    modifies db
    ensures db.tables == MarkedBlobs(old(db.tables), now)
  {
    var t := db.tables;
    var added := map b | b in t.blobs && Unreferenced(t.versions, b) && b !in t.blobMarks :: now;
    db.tables := t.(blobMarks := t.blobMarks + added);
    t := db.tables;
    db.tables := t.(blobMarks :=
      map b | b in t.blobMarks && b in t.blobs && Unreferenced(t.versions, b) :: t.blobMarks[b]);
  }

  method CollectUnreferencedBlobs(db: Database, st: Storage, now: Time, grace: Time) returns (deleted: nat)
    modifies db, st
    ensures var marked := MarkedBlobs(old(db.tables), now);
            var due := EligibleBlobs(marked, now, grace);
            && db.tables == WithoutBlobs(marked, due)
            && st.blobFiles == old(st.blobFiles) - due
            && st.tempFiles == old(st.tempFiles)
            && deleted == |due|
  {
    MarkBlobs(db, now);
    deleted := RemoveBlobs(db, st, EligibleBlobs(db.tables, now, grace));
  }

  /** One transaction and one file removal for each candidate, in any order. */
  method RemoveBlobs(db: Database, st: Storage, due: set<Id>) returns (deleted: nat)
    requires forall b :: b in due ==> Unreferenced(db.tables.versions, b)
    modifies db, st
    ensures db.tables == WithoutBlobs(old(db.tables), due)
    ensures st.blobFiles == old(st.blobFiles) - due && st.tempFiles == old(st.tempFiles)
    ensures deleted == |due|
  {
    ghost var t, files, done: set<Id> := db.tables, st.blobFiles, {};
    var rest := due;
    deleted := 0;
    assert WithoutBlobs(t, {}) == t && files - {} == files;
    while rest != {}
      invariant due == done + rest && done !! rest && deleted == |done|
      invariant db.tables == WithoutBlobs(t, done)
      invariant st.blobFiles == files - done && st.tempFiles == old(st.tempFiles)
      decreases rest
    {
      var b :| b in rest;
      SweepOne(t, files, done, b);
      db.tables := SweptRow(db.tables, b);
      st.blobFiles := st.blobFiles - {b};
      deleted, done, rest := deleted + 1, done + {b}, rest - {b};
    }
  }

  lemma SweepOne(t: Tables, files: map<Id, Bytes>, done: set<Id>, b: Id)
    requires Unreferenced(t.versions, b)
    ensures SweptRow(WithoutBlobs(t, done), b) == WithoutBlobs(t, done + {b})
    ensures (files - done) - {b} == files - (done + {b})
  {
    RemoveOneMore(t.blobMarks, done, b);
    RemoveOneMore(t.blobs, done, b);
    RemoveOneMore(files, done, b);
  }

  // ---------------------------------------------------------------- orphan files

  /** Marks after the directory scan: only files without a row keep or gain a mark. */
  function OrphanMarks(blobs: map<Id, BlobRow>, files: map<Id, Bytes>, marks: map<Id, Time>, now: Time): map<Id, Time> {
    map b | b in marks.Keys + files.Keys && !(b in files && b in blobs) :: if b in marks then marks[b] else now
  }

  function DueOrphans(marks: map<Id, Time>, now: Time, grace: Time): set<Id> {
    set b | b in marks && marks[b] <= now - grace
  }

  method ScanOrphanFiles(db: Database, st: Storage, now: Time)
    modifies db
    ensures db.tables == old(db.tables).(
              orphanMarks := OrphanMarks(old(db.tables.blobs), st.blobFiles, old(db.tables.orphanMarks), now))
  {
    ghost var t := db.tables;
    var rest := st.blobFiles.Keys;
    ghost var seen: map<Id, Bytes> := map[];
    while rest != {}
      invariant seen.Keys == st.blobFiles.Keys - rest && rest <= st.blobFiles.Keys
      invariant db.tables == t.(orphanMarks := OrphanMarks(t.blobs, seen, t.orphanMarks, now))
      decreases rest
    {
      var b :| b in rest;
      ScanOne(t.blobs, seen, t.orphanMarks, now, b, st.blobFiles[b]);
      rest, seen := rest - {b}, seen[b := st.blobFiles[b]];
      if b in db.tables.blobs {
        db.tables := db.tables.(orphanMarks := db.tables.orphanMarks - {b});
      } else if b !in db.tables.orphanMarks {
        db.tables := db.tables.(orphanMarks := db.tables.orphanMarks[b := now]);
      }
    }
    assert OrphanMarks(t.blobs, seen, t.orphanMarks, now) == OrphanMarks(t.blobs, st.blobFiles, t.orphanMarks, now);
  }

  lemma ScanOne(blobs: map<Id, BlobRow>, seen: map<Id, Bytes>, marks: map<Id, Time>, now: Time, b: Id, content: Bytes)
    requires b !in seen
    ensures var before := OrphanMarks(blobs, seen, marks, now);
            OrphanMarks(blobs, seen[b := content], marks, now)
              == if b in blobs then before - {b} else if b in before then before else before[b := now]
  {
  }

  /** The candidates that still have no row. */
  function Unlisted(blobs: map<Id, BlobRow>, due: set<Id>): set<Id> {
    set b | b in due && b !in blobs
  }

  function WithoutMarks(t: Tables, gone: set<Id>): Tables {
    t.(orphanMarks := t.orphanMarks - gone)
  }

  lemma OrphanOne(t: Tables, files: map<Id, Bytes>, done: set<Id>, b: Id)
    requires b !in done
    ensures WithoutMarks(WithoutMarks(t, done), {b}) == WithoutMarks(t, done + {b})
    ensures b in t.blobs ==> Unlisted(t.blobs, done + {b}) == Unlisted(t.blobs, done)
    ensures b !in t.blobs ==> |Unlisted(t.blobs, done + {b})| == |Unlisted(t.blobs, done)| + 1
    ensures b !in t.blobs ==> (files - Unlisted(t.blobs, done)) - {b} == files - Unlisted(t.blobs, done + {b})
  {
    RemoveOneMore(t.orphanMarks, done, b);
    if b in t.blobs {
      assert Unlisted(t.blobs, done + {b}) == Unlisted(t.blobs, done);
    } else {
      assert Unlisted(t.blobs, done + {b}) == Unlisted(t.blobs, done) + {b};
      RemoveOneMore(files, Unlisted(t.blobs, done), b);
    }
  }

  /** One check of the row and one file removal for each candidate, in any order. */
  method RemoveOrphans(db: Database, st: Storage, due: set<Id>) returns (deleted: nat)
    modifies db, st
    ensures db.tables == WithoutMarks(old(db.tables), due)
    ensures st.blobFiles == old(st.blobFiles) - Unlisted(old(db.tables.blobs), due) && st.tempFiles == old(st.tempFiles)
    ensures deleted == |Unlisted(old(db.tables.blobs), due)|
  {
    ghost var t, files, done: set<Id> := db.tables, st.blobFiles, {};
    var rest := due;
    deleted := 0;
    assert WithoutMarks(t, {}) == t && Unlisted(t.blobs, {}) == {} && files - {} == files;
    while rest != {}
      invariant due == done + rest && done !! rest
      invariant db.tables == WithoutMarks(t, done)
      invariant st.blobFiles == files - Unlisted(t.blobs, done) && st.tempFiles == old(st.tempFiles)
      invariant deleted == |Unlisted(t.blobs, done)|
      decreases rest
    {
      var b :| b in rest;
      OrphanOne(t, files, done, b);
      if b !in db.tables.blobs {
        st.blobFiles := st.blobFiles - {b};
        deleted := deleted + 1;
      }
      db.tables := WithoutMarks(db.tables, {b});
      done, rest := done + {b}, rest - {b};
    }
  }

  method CollectOrphanBlobFiles(db: Database, st: Storage, now: Time, grace: Time) returns (deleted: nat)
    modifies db, st
    ensures var marks := OrphanMarks(old(db.tables.blobs), old(st.blobFiles), old(db.tables.orphanMarks), now);
            var due := DueOrphans(marks, now, grace);
            && db.tables == old(db.tables).(orphanMarks := marks - due)
            && st.blobFiles == old(st.blobFiles) - Unlisted(old(db.tables.blobs), due)
            && st.tempFiles == old(st.tempFiles)
            && deleted == |Unlisted(old(db.tables.blobs), due)|
  {
    ScanOrphanFiles(db, st, now);
    deleted := RemoveOrphans(db, st, DueOrphans(db.tables.orphanMarks, now, grace));
  }

  // ---------------------------------------------------------------- expired uploads

  predicate ExpiredUpload(sessions: map<Id, Session>, u: Id, now: Time) {
    u in sessions && sessions[u].expiresAt <= now && sessions[u].status != Completed
  }

  /** First transaction: the session can no longer be completed. */
  function ExpiredSession(t: Tables, u: Id, now: Time): Tables {
    if ExpiredUpload(t.sessions, u, now) then t.(sessions := t.sessions[u := t.sessions[u].(status := Expired)]) else t
  }

  /** Last transaction: its rows go. */
  function DroppedSession(t: Tables, u: Id): Tables {
    t.(chunks := ChunksKept(t.chunks, {u}),
       sessions := if u in t.sessions && t.sessions[u].status == Expired then t.sessions - {u} else t.sessions)
  }

  function ExpiredUploads(sessions: map<Id, Session>, now: Time): set<Id> {
    set u | u in sessions && ExpiredUpload(sessions, u, now)
  }

  /** The tables without these uploads and their chunks. */
  function Cleaned(t: Tables, gone: set<Id>): Tables {
    t.(sessions := t.sessions - gone, chunks := ChunksKept(t.chunks, gone))
  }

  method CleanupExpiredUploads(db: Database, st: Storage, now: Time) returns (cleaned: nat)
    modifies db, st
    ensures var due := ExpiredUploads(old(db.tables.sessions), now);
            && db.tables == Cleaned(old(db.tables), due)
            && st.tempFiles == WithoutDirectories(old(st.tempFiles), due)
            && st.blobFiles == old(st.blobFiles)
            && cleaned == |due|
  {
    ghost var t, files, done: set<Id> := db.tables, st.tempFiles, {};
    var rest := ExpiredUploads(db.tables.sessions, now);
    ghost var due := rest;
    cleaned := 0;
    NoneCleaned(t, files);
    while rest != {}
      invariant due == done + rest && done !! rest && cleaned == |done|
      invariant db.tables == Cleaned(t, done)
      invariant st.tempFiles == WithoutDirectories(files, done) && st.blobFiles == old(st.blobFiles)
      decreases rest
    {
      var u :| u in rest;
      ExpireOne(t, files, done, u, now);
      CleanupUpload(db, st, u, now);
      cleaned, done, rest := cleaned + 1, done + {u}, rest - {u};
    }
    assert done == due;
  }

  lemma NoneCleaned(t: Tables, files: map<(Id, nat), Bytes>)
    ensures Cleaned(t, {}) == t && WithoutDirectories(files, {}) == files
  {
    assert t.sessions - {} == t.sessions && ChunksKept(t.chunks, {}) == t.chunks;
  }

  /** Two transactions with the removal of the upload's directory between them. */
  method CleanupUpload(db: Database, st: Storage, u: Id, now: Time)
    modifies db, st
    ensures db.tables == DroppedSession(ExpiredSession(old(db.tables), u, now), u)
    ensures st.tempFiles == WithoutDirectory(old(st.tempFiles), u) && st.blobFiles == old(st.blobFiles)
  {
    db.tables := ExpiredSession(db.tables, u, now);
    st.tempFiles := WithoutDirectory(st.tempFiles, u);
    db.tables := DroppedSession(db.tables, u);
  }

  lemma ExpireOne(t: Tables, files: map<(Id, nat), Bytes>, done: set<Id>, u: Id, now: Time)
    requires ExpiredUpload(t.sessions, u, now) && u !in done
    ensures DroppedSession(ExpiredSession(Cleaned(t, done), u, now), u) == Cleaned(t, done + {u})
    ensures WithoutDirectory(WithoutDirectories(files, done), u) == WithoutDirectories(files, done + {u})
  {
    var s := t.sessions - done;
    assert s[u := s[u].(status := Expired)] - {u} == t.sessions - (done + {u});
    assert ChunksKept(ChunksKept(t.chunks, done), {u}) == ChunksKept(t.chunks, done + {u});
  }

  /** Idempotency records past their lifetime go. */
  function ExpiredOperations(t: Tables, now: Time): Tables {
    t.(processed := map op | op in t.processed && now < t.processed[op].expiresAt :: t.processed[op])
  }

  // ---------------------------------------------------------------- version retention

  /** A version of a file that is not the file's current one. */
  predicate Superseded(ns: map<Id, Node>, vs: map<Id, Version>, v: Id) {
    v in vs && vs[v].node in ns && ns[vs[v].node].current.Some? && ns[vs[v].node].current != Some(v)
  }

  predicate Newer(vs: map<Id, Version>, w: Id, v: Id)
    requires w in vs && v in vs
  {
    vs[w].createdAt > vs[v].createdAt || (vs[w].createdAt == vs[v].createdAt && w > v)
  }

  function NewerOthers(ns: map<Id, Node>, vs: map<Id, Version>, v: Id): set<Id>
    requires v in vs
  {
    set w | w in vs && Superseded(ns, vs, w) && vs[w].node == vs[v].node && Newer(vs, w, v)
  }

  /** Position among the superseded versions of the same file, newest first, from 1. */
  function OlderRank(ns: map<Id, Node>, vs: map<Id, Version>, v: Id): nat
    requires v in vs
  {
    1 + |NewerOthers(ns, vs, v)|
  }

  predicate Prunable(ns: map<Id, Node>, vs: map<Id, Version>, v: Id, maxVersions: nat, cutoff: Time) {
    Superseded(ns, vs, v) && (OlderRank(ns, vs, v) >= maxVersions || vs[v].createdAt < cutoff)
  }

  function KeptVersions(ns: map<Id, Node>, vs: map<Id, Version>, maxVersions: nat, cutoff: Time): map<Id, Version> {
    map v | v in vs && !Prunable(ns, vs, v, maxVersions, cutoff) :: vs[v]
  }

  method PruneFileVersions(db: Database, maxVersions: nat, cutoff: Time)
    modifies db
    ensures db.tables == old(db.tables).(
              versions := KeptVersions(old(db.tables.nodes), old(db.tables.versions), maxVersions, cutoff))
  {
    db.tables := db.tables.(versions := KeptVersions(db.tables.nodes, db.tables.versions, maxVersions, cutoff));
  }

  /** The superseded versions of one file. */
  function Others(ns: map<Id, Node>, vs: map<Id, Version>, x: Id): set<Id> {
    set v | v in vs && Superseded(ns, vs, v) && vs[v].node == x
  }

  /** Whatever is newer than a kept version of the same file is kept as well. */
  lemma KeptIsNewestPrefix(ns: map<Id, Node>, vs: map<Id, Version>, maxVersions: nat, cutoff: Time, w: Id, v: Id)
    requires v in KeptVersions(ns, vs, maxVersions, cutoff) && Superseded(ns, vs, v)
    requires w in NewerOthers(ns, vs, v)
    ensures w in KeptVersions(ns, vs, maxVersions, cutoff)
  {
    assert NewerOthers(ns, vs, w) <= NewerOthers(ns, vs, v);
    SubsetSize(NewerOthers(ns, vs, w), NewerOthers(ns, vs, v));
  }

  lemma {:induction false} SubsetSize<T>(a: set<T>, b: set<T>)
    requires a <= b
    ensures |a| <= |b|
  {
    assert b == a + (b - a);
  }

  /** A non-empty set of versions has an oldest one. */
  lemma {:induction false} OldestExists(vs: map<Id, Version>, s: set<Id>) returns (o: Id)
    requires s != {} && s <= vs.Keys
    ensures o in s && forall w :: w in s && w != o ==> Newer(vs, w, o)
  {
    var x :| x in s;
    if s == {x} {
      o := x;
    } else {
      var p := OldestExists(vs, s - {x});
      o := if Newer(vs, x, p) then p else x;
      forall w | w in s && w != o ensures Newer(vs, w, o) {
        if w != x { assert w in s - {x}; }
      }
    }
  }

  /** Pruning keeps every current version and, of the others of a file, a newest-first prefix
      of at most maxVersions - 1. */
  lemma PruningBound(ns: map<Id, Node>, vs: map<Id, Version>, maxVersions: nat, cutoff: Time, x: Id)
    requires maxVersions >= 1
    ensures |Others(ns, KeptVersions(ns, vs, maxVersions, cutoff), x)| <= maxVersions - 1
    ensures x in ns && ns[x].current.Some? && ns[x].current.value in vs && vs[ns[x].current.value].node == x
            ==> ns[x].current.value in KeptVersions(ns, vs, maxVersions, cutoff)
  {
    var kept := KeptVersions(ns, vs, maxVersions, cutoff);
    var s := Others(ns, kept, x);
    if s != {} {
      var o := OldestExists(vs, s);
      assert s - {o} <= NewerOthers(ns, vs, o);
      SubsetSize(s - {o}, NewerOthers(ns, vs, o));
    }
  }

  /** A second pass at the same time finds nothing to remove. */
  lemma PruningIdempotent(ns: map<Id, Node>, vs: map<Id, Version>, maxVersions: nat, cutoff: Time)
    ensures KeptVersions(ns, KeptVersions(ns, vs, maxVersions, cutoff), maxVersions, cutoff)
            == KeptVersions(ns, vs, maxVersions, cutoff)
  {
    var kept := KeptVersions(ns, vs, maxVersions, cutoff);
    forall v | v in kept ensures !Prunable(ns, kept, v, maxVersions, cutoff) {
      if Superseded(ns, kept, v) {
        forall w | w in NewerOthers(ns, vs, v) ensures w in NewerOthers(ns, kept, v) {
          KeptIsNewestPrefix(ns, vs, maxVersions, cutoff, w, v);
        }
        assert NewerOthers(ns, kept, v) == NewerOthers(ns, vs, v);
      }
    }
  }

  /** A file's superseded versions, newest first. */
  predicate NewestFirst(ns: map<Id, Node>, vs: map<Id, Version>, x: Id, order: seq<Id>) {
    && Enumerates(order, Others(ns, vs, x))
    && (forall i :: 0 <= i < |order| ==> order[i] in vs)
    && (forall i, j :: 0 <= i < j < |order| ==> Newer(vs, order[i], order[j]))
  }

  /** Read the listing until the room is used up or a version is too old. */
  function Survivors(vs: map<Id, Version>, order: seq<Id>, room: nat, cutoff: Time): (r: seq<Id>)
    requires forall i :: 0 <= i < |order| ==> order[i] in vs
    ensures r <= order && |r| <= room && forall i :: 0 <= i < |r| ==> vs[order[i]].createdAt >= cutoff
    ensures |r| < |order| && |r| < room ==> vs[order[|r|]].createdAt < cutoff
  {
    if order == [] || room == 0 || vs[order[0]].createdAt < cutoff then []
    else [order[0]] + Survivors(vs, order[1..], room - 1, cutoff)
  }

  lemma MembersSize(order: seq<Id>)
    requires forall i, j :: 0 <= i < j < |order| ==> order[i] != order[j]
    ensures |Members(order)| == |order|
  {
    if order == [] {
    } else {
      var before, last := order[..|order| - 1], order[|order| - 1];
      MembersSize(before);
      assert Members(order) == Members(before) + {last};
    }
  }

  /** In a newest-first listing a version's rank is its position. */
  lemma RankIsPosition(ns: map<Id, Node>, vs: map<Id, Version>, x: Id, order: seq<Id>, i: nat)
    requires NewestFirst(ns, vs, x, order) && i < |order|
    ensures OlderRank(ns, vs, order[i]) == i + 1
  {
    assert order[i] in Others(ns, vs, x);
    assert NewerOthers(ns, vs, order[i]) == Members(order[..i]) by {
      forall w | w in NewerOthers(ns, vs, order[i]) ensures w in order[..i] {
        assert w in Others(ns, vs, x);
        var j :| 0 <= j < |order| && order[j] == w;
        assert order[..i][j] == w;
      }
      forall w | w in order[..i] ensures w in NewerOthers(ns, vs, order[i]) {
        var j :| 0 <= j < i && order[j] == w;
        assert w in Others(ns, vs, x);
      }
    }
    MembersSize(order[..i]);
  }

  /** Of a file's superseded versions, pruning leaves what reading them newest first finds before
      maxVersions - 1 are kept or one is too old. */
  lemma PruningReadsNewestFirst(ns: map<Id, Node>, vs: map<Id, Version>, maxVersions: nat, cutoff: Time, x: Id,
        order: seq<Id>)
    requires maxVersions >= 1 && NewestFirst(ns, vs, x, order)
    ensures Others(ns, KeptVersions(ns, vs, maxVersions, cutoff), x)
            == Members(Survivors(vs, order, maxVersions - 1, cutoff))
  {
    var kept, r := KeptVersions(ns, vs, maxVersions, cutoff), Survivors(vs, order, maxVersions - 1, cutoff);
    forall i | 0 <= i < |order| ensures order[i] in kept <==> i < |r| {
      RankIsPosition(ns, vs, x, order, i);
      assert order[i] in Others(ns, vs, x);
    }
    forall v ensures v in Others(ns, kept, x) <==> v in Members(r) {
      if v in Others(ns, kept, x) { assert v in Others(ns, vs, x); }
      if v in Members(r) { assert v in Others(ns, vs, x); }
    }
  }
}
