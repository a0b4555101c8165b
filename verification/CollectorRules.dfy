/** What each maintenance pass removes and what it leaves, row by row. */
module CollectorRules {
  import opened Common
  import opened Schema
  import opened Trash
  import opened Collector

  // ---------------------------------------------------------------- unreferenced blobs

  /** A committed blob that no version names. */
  ghost predicate Garbage(t: Tables, b: Id) {
    b in t.blobs && forall v :: v in t.versions ==> t.versions[v].blob != b
  }

  /** When it was first seen to be garbage, as far as the marks tell. */
  ghost function SeenAt(t: Tables, b: Id, now: Time): Time {
    if b in t.blobMarks then t.blobMarks[b] else now
  }

  lemma UnreferencedIsGarbage(t: Tables, b: Id)
    requires b in t.blobs
    ensures Unreferenced(t.versions, b) <==> Garbage(t, b)
  {
    if Unreferenced(t.versions, b) {
      forall v | v in t.versions ensures t.versions[v].blob != b { assert v in t.versions.Keys; }
    }
  }

  lemma MarksExactly(t: Tables, now: Time)
    ensures var t' := MarkedBlobs(t, now);
            && t' == t.(blobMarks := t'.blobMarks)
            && (forall b :: b in t'.blobMarks <==> Garbage(t, b))
            && (forall b :: b in t'.blobMarks ==> t'.blobMarks[b] == SeenAt(t, b, now))
  {
    forall b | b in t.blobs ensures Unreferenced(t.versions, b) <==> Garbage(t, b) { UnreferencedIsGarbage(t, b); }
  }

  /** A pass removes exactly the blob rows that have been garbage for the grace period, with their
      marks; every other row and every other mark of garbage stays. */
  lemma PassCollectsExactly(t: Tables, now: Time, grace: Time)
    ensures var marked := MarkedBlobs(t, now);
            var t' := WithoutBlobs(marked, EligibleBlobs(marked, now, grace));
            && t' == t.(blobs := t'.blobs, blobMarks := t'.blobMarks)
            && (forall b :: b in t'.blobs <==>
                  b in t.blobs && !(Garbage(t, b) && SeenAt(t, b, now) + grace <= now))
            && (forall b :: b in t'.blobs ==> t'.blobs[b] == t.blobs[b])
            && (forall b :: b in t'.blobMarks <==> Garbage(t, b) && SeenAt(t, b, now) + grace > now)
            && (forall b :: b in t'.blobMarks ==> t'.blobMarks[b] == SeenAt(t, b, now))
  {
    var marked := MarkedBlobs(t, now);
    MarksExactly(t, now);
    forall b ensures b in EligibleBlobs(marked, now, grace) <==> Garbage(t, b) && SeenAt(t, b, now) + grace <= now {
      if b in t.blobs { UnreferencedIsGarbage(t, b); }
    }
  }

  /** One removal: the mark goes, the row only if it is garbage then. */
  lemma SweepExactly(t: Tables, b: Id, now: Time, grace: Time)
    ensures b in EligibleBlobs(t, now, grace) <==>
              b in t.blobMarks && t.blobMarks[b] + grace <= now && Garbage(t, b)
    ensures var t' := SweptRow(t, b);
            && t' == t.(blobs := t'.blobs, blobMarks := t'.blobMarks) && t'.blobMarks == t.blobMarks - {b}
            && (forall x :: x in t'.blobs <==> x in t.blobs && !(x == b && Garbage(t, b)))
            && (forall x :: x in t'.blobs ==> t'.blobs[x] == t.blobs[x])
  {
    if b in t.blobs { UnreferencedIsGarbage(t, b); }
  }

  // ---------------------------------------------------------------- orphan files

  /** A scan gives every file without a row a mark, or leaves it the one it has, and takes the marks
      of files that have a row; marks of files that are not there stay. */
  lemma ScanExactly(blobs: map<Id, BlobRow>, files: map<Id, Bytes>, marks: map<Id, Time>, now: Time)
    ensures var marks' := OrphanMarks(blobs, files, marks, now);
            && (forall b :: b in files ==> (b in marks' <==> b !in blobs))
            && (forall b :: b !in files ==> (b in marks' <==> b in marks))
            && (forall b :: b in marks' ==> marks'[b] == if b in marks then marks[b] else now)
  {
  }

  /** A pass removes exactly the files that have no row and were first seen so a grace period ago. */
  lemma OrphanPassExactly(blobs: map<Id, BlobRow>, files: map<Id, Bytes>, marks: map<Id, Time>, now: Time, grace: Time)
    ensures var marks' := OrphanMarks(blobs, files, marks, now);
            var files' := files - Unlisted(blobs, DueOrphans(marks', now, grace));
            && (forall b :: b in files' <==>
                  b in files && (b in blobs || (if b in marks then marks[b] else now) + grace > now))
            && (forall b :: b in files' ==> files'[b] == files[b])
  {
    ScanExactly(blobs, files, marks, now);
  }

  // ---------------------------------------------------------------- uploads and operations

  /** A cleanup removes exactly the uploads that are past their expiry and not completed, with their
      chunk rows and files. */
  lemma CleanupExactly(t: Tables, files: map<(Id, nat), Bytes>, now: Time)
    ensures var due := ExpiredUploads(t.sessions, now);
            var t', files' := Cleaned(t, due), WithoutDirectories(files, due);
            && t' == t.(sessions := t'.sessions, chunks := t'.chunks)
            && (forall u :: u in t'.sessions <==>
                  u in t.sessions && (now < t.sessions[u].expiresAt || t.sessions[u].status == Completed))
            && (forall u :: u in t'.sessions ==> t'.sessions[u] == t.sessions[u])
            && (forall k :: k in t'.chunks <==> k in t.chunks && (k.0 in t.sessions ==> k.0 in t'.sessions))
            && (forall k :: k in t'.chunks ==> t'.chunks[k] == t.chunks[k])
            && (forall k :: k in files' <==> k in files && (k.0 in t.sessions ==> k.0 in t'.sessions))
            && (forall k :: k in files' ==> files'[k] == files[k])
  {
  }

  /** Its two transactions: the first closes the upload, the second removes it and its chunk rows. */
  lemma CleanupSteps(t: Tables, u: Id, now: Time)
    ensures ExpiredSession(t, u, now)
         == if u in t.sessions && t.sessions[u].expiresAt <= now && t.sessions[u].status != Completed
            then t.(sessions := t.sessions[u := t.sessions[u].(status := Expired)]) else t
    ensures var t' := DroppedSession(t, u);
            && t' == t.(sessions := t'.sessions, chunks := t'.chunks)
            && (forall x :: x in t'.sessions <==> x in t.sessions && !(x == u && t.sessions[u].status == Expired))
            && (forall x :: x in t'.sessions ==> t'.sessions[x] == t.sessions[x])
            && (forall k :: k in t'.chunks <==> k in t.chunks && k.0 != u)
            && (forall k :: k in t'.chunks ==> t'.chunks[k] == t.chunks[k])
  {
  }

  /** Operation records go when their time has come and not before. */
  lemma OperationsExpireExactly(t: Tables, now: Time)
    ensures var t' := ExpiredOperations(t, now);
            && t' == t.(processed := t'.processed)
            && (forall op :: op in t'.processed <==> op in t.processed && now < t.processed[op].expiresAt)
            && (forall op :: op in t'.processed ==> t'.processed[op] == t.processed[op])
  {
  }

  // ---------------------------------------------------------------- version retention

  /** The version is not the current one of the file it belongs to, which has a current one. */
  ghost predicate Older(ns: map<Id, Node>, vs: map<Id, Version>, v: Id) {
    && v in vs && vs[v].node in ns && ns[vs[v].node].current.Some? && ns[vs[v].node].current.value != v
  }

  /** Older versions of the same file made later, or at the same time under a larger ID. */
  ghost function AheadOf(ns: map<Id, Node>, vs: map<Id, Version>, v: Id): set<Id>
    requires v in vs
  {
    set w | w in vs && Older(ns, vs, w) && vs[w].node == vs[v].node
            && (vs[w].createdAt > vs[v].createdAt || (vs[w].createdAt == vs[v].createdAt && w > v))
  }

  /** A version stays exactly if it is not an older one, or if it is recent enough and, with the
      current one, fewer than maxVersions are ahead of it. */
  lemma PruneExactly(ns: map<Id, Node>, vs: map<Id, Version>, maxVersions: nat, cutoff: Time)
    ensures var vs' := KeptVersions(ns, vs, maxVersions, cutoff);
            && (forall v :: v in vs' <==>
                  && v in vs
                  && (Older(ns, vs, v) ==> |AheadOf(ns, vs, v)| + 1 < maxVersions && vs[v].createdAt >= cutoff))
            && (forall v :: v in vs' ==> vs'[v] == vs[v])
  {
    forall v | v in vs ensures NewerOthers(ns, vs, v) == AheadOf(ns, vs, v) {
    }
  }
}
