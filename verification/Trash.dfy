/** Permanent removal of Trash entries with their whole subtree. */
module Trash {
  import opened Common
  import opened Schema
  import opened Forest
  import opened Access

  /** Rows of the recursive Trash query, which follows only children of the same owner. */
  function TrashQuery(ns: map<Id, Node>, rows: set<Id>): (r: set<Id>)
    requires rows <= ns.Keys
    ensures rows <= r <= ns.Keys
    decreases ns.Keys - rows
  {
    var next := rows + set y | y in ns && ns[y].parent.Some? && ns[y].parent.value in rows
        && ns[y].owner == ns[ns[y].parent.value].owner;
    if next == rows then rows else TrashQuery(ns, next)
  }

  /** The query is empty unless its start is in Trash since `cutoff` or earlier. */
  function TrashSubtree(ns: map<Id, Node>, id: Id, cutoff: Time): (r: set<Id>)
    ensures r <= ns.Keys
  {
    if id in ns && ns[id].deletedAt.Some? && ns[id].deletedAt.value <= cutoff then TrashQuery(ns, {id}) else {}
  }

  lemma {:induction false} SameOwnerQuery(ns: map<Id, Node>, rows: set<Id>)
    requires IsForest(ns) && rows <= ns.Keys
    ensures TrashQuery(ns, rows) == SubtreeQuery(ns, rows)
    decreases ns.Keys - rows
  {
    var next := rows + set y | y in ns && ns[y].parent.Some? && ns[y].parent.value in rows;
    assert next == rows + set y | y in ns && ns[y].parent.Some? && ns[y].parent.value in rows
           && ns[y].owner == ns[ns[y].parent.value].owner
    by {
      forall y | y in ns && ns[y].parent.Some? && ns[y].parent.value in rows
        ensures ns[y].owner == ns[ns[y].parent.value].owner
      {
        assert FollowsParent(ns, y);
      }
    }
    if next != rows { SameOwnerQuery(ns, next); }
  }

  /** With one owner per tree the owner filter hides nothing: an expired entry takes its
      complete subtree. */
  lemma TrashSubtreeComplete(ns: map<Id, Node>, id: Id, cutoff: Time)
    requires IsForest(ns)
    ensures forall y :: y in TrashSubtree(ns, id, cutoff) <==>
              y in ns && Below(ns, y, id) && id in ns && ns[id].deletedAt.Some? && ns[id].deletedAt.value <= cutoff
  {
    if id in ns {
      SameOwnerQuery(ns, {id});
      SubtreeIsDescendants(ns, id);
    }
  }

  // ---------------------------------------------------------------- one purge transaction

  /** Something outside the purged nodes is still encrypted under the folder's key. */
  predicate UsedOutside(ns: map<Id, Node>, versions: map<Id, Version>, folder: Id, gone: set<Id>) {
    || (exists x | x in ns.Keys :: x !in gone && ns[x].metadataScope == Some(folder))
    || (exists v | v in versions.Keys :: versions[v].node !in gone && versions[v].scope == folder)
  }

  function KeysKept(ns: map<Id, Node>, versions: map<Id, Version>, keys: map<(Id, int), FolderKey>,
        gone: set<Id>): map<(Id, int), FolderKey>
  {
    map k | k in keys && (k.0 in gone ==> UsedOutside(ns, versions, k.0, gone)) :: keys[k]
  }

  function EnvelopesKept(envelopes: map<(Id, Id, int), Envelope>, shares: map<Id, Share>,
        gone: set<Id>): map<(Id, Id, int), Envelope>
  {
    map k | k in envelopes && !(k.0 in shares && shares[k.0].node in gone) :: envelopes[k]
  }

  function SharesKept(shares: map<Id, Share>, gone: set<Id>): map<Id, Share> {
    map s | s in shares && shares[s].node !in gone :: shares[s]
  }

  /** Uploads whose target file is purged. */
  function DoomedUploads(sessions: map<Id, Session>, gone: set<Id>): set<Id> {
    set u | u in sessions && sessions[u].target in gone
  }

  function ChunksKept(chunks: map<(Id, nat), Chunk>, doomed: set<Id>): map<(Id, nat), Chunk> {
    map k | k in chunks && k.0 !in doomed :: chunks[k]
  }

  function VersionsKept(versions: map<Id, Version>, gone: set<Id>): map<Id, Version> {
    map v | v in versions && versions[v].node !in gone :: versions[v]
  }

  /** One PURGE entry for each removed node, in the order the query returned them. */
  function PurgeEntries(ns: map<Id, Node>, order: seq<Id>, now: Time): (r: seq<Change>)
    requires forall x :: x in order ==> x in ns
    ensures |r| == |order| && forall i :: 0 <= i < |order| ==> r[i] == Change(ns[order[i]].owner, order[i], Purged, now)
  {
    if order == [] then [] else [Change(ns[order[0]].owner, order[0], Purged, now)] + PurgeEntries(ns, order[1..], now)
  }

  /** The committed tables once the nodes `gone`, listed in `order`, are purged. */
  function PurgedTables(t: Tables, gone: set<Id>, order: seq<Id>, now: Time): Tables
    requires gone <= t.nodes.Keys && forall x :: x in order ==> x in t.nodes
  {
    var doomed := DoomedUploads(t.sessions, gone);
    t.(log := t.log + PurgeEntries(t.nodes, order, now),
       folderKeys := KeysKept(t.nodes, t.versions, t.folderKeys, gone),
       envelopes := EnvelopesKept(t.envelopes, t.shares, gone),
       shares := SharesKept(t.shares, gone),
       chunks := ChunksKept(t.chunks, doomed),
       sessions := t.sessions - doomed,
       versions := VersionsKept(t.versions, gone),
       nodes := t.nodes - gone)
  }

  function WithoutDirectories(files: map<(Id, nat), Bytes>, uploads: set<Id>): map<(Id, nat), Bytes> {
    map k | k in files && k.0 !in uploads :: files[k]
  }

  // ---------------------------------------------------------------- the purge, row by row

  ghost predicate NodesPurged(rows: map<Id, Node>, rows': map<Id, Node>, gone: set<Id>) {
    && (forall x :: x in rows' <==> x in rows && x !in gone)
    && (forall x :: x in rows' ==> rows'[x] == rows[x])
  }

  ghost predicate VersionsPurged(rows: map<Id, Version>, rows': map<Id, Version>, gone: set<Id>) {
    && (forall v :: v in rows' <==> v in rows && rows[v].node !in gone)
    && (forall v :: v in rows' ==> rows'[v] == rows[v])
  }

  ghost predicate SharesPurged(rows: map<Id, Share>, rows': map<Id, Share>, gone: set<Id>) {
    && (forall s :: s in rows' <==> s in rows && rows[s].node !in gone)
    && (forall s :: s in rows' ==> rows'[s] == rows[s])
  }

  ghost predicate EnvelopesPurged(rows: map<(Id, Id, int), Envelope>, rows': map<(Id, Id, int), Envelope>,
        shares: map<Id, Share>, gone: set<Id>)
  {
    && (forall k :: k in rows' <==> k in rows && (k.0 in shares ==> shares[k.0].node !in gone))
    && (forall k :: k in rows' ==> rows'[k] == rows[k])
  }

  ghost predicate SessionsPurged(rows: map<Id, Session>, rows': map<Id, Session>, gone: set<Id>) {
    && (forall u :: u in rows' <==> u in rows && rows[u].target !in gone)
    && (forall u :: u in rows' ==> rows'[u] == rows[u])
  }

  /** Chunk rows, and temporary files, of uploads to purged files go. */
  ghost predicate ChunksPurged<V>(rows: map<(Id, nat), V>, rows': map<(Id, nat), V>, sessions: map<Id, Session>,
        gone: set<Id>)
  {
    && (forall k :: k in rows' <==> k in rows && (k.0 in sessions ==> sessions[k.0].target !in gone))
    && (forall k :: k in rows' ==> rows'[k] == rows[k])
  }

  /** A row stays, with its value, exactly when its node, its target, or the node of its share, is
      not purged; nothing else differs but keys and log. */
  ghost predicate RowsPurged(t: Tables, t': Tables, gone: set<Id>) {
    && t' == t.(nodes := t'.nodes, versions := t'.versions, shares := t'.shares, envelopes := t'.envelopes,
                sessions := t'.sessions, chunks := t'.chunks, folderKeys := t'.folderKeys, log := t'.log)
    && NodesPurged(t.nodes, t'.nodes, gone) && VersionsPurged(t.versions, t'.versions, gone)
    && SharesPurged(t.shares, t'.shares, gone) && EnvelopesPurged(t.envelopes, t'.envelopes, t.shares, gone)
    && SessionsPurged(t.sessions, t'.sessions, gone) && ChunksPurged(t.chunks, t'.chunks, t.sessions, gone)
  }

  /** A remaining node or version is encrypted under the folder's key. */
  ghost predicate StillNeeded(t: Tables, folder: Id, gone: set<Id>) {
    || (exists x :: x in t.nodes && x !in gone && t.nodes[x].metadataScope == Some(folder))
    || (exists v :: v in t.versions && t.versions[v].node !in gone && t.versions[v].scope == folder)
  }

  /** The keys of purged folders go unless something that remains needs them. */
  ghost predicate KeysPurged(t: Tables, t': Tables, gone: set<Id>) {
    && (forall k :: k in t'.folderKeys <==> k in t.folderKeys && (k.0 in gone ==> StillNeeded(t, k.0, gone)))
    && (forall k :: k in t'.folderKeys ==> t'.folderKeys[k] == t.folderKeys[k])
  }

  ghost predicate LogPurged(t: Tables, t': Tables, order: seq<Id>, now: Time) {
    && |t'.log| == |t.log| + |order| && t.log <= t'.log
    && forall i :: 0 <= i < |order| ==>
         order[i] in t.nodes && t'.log[|t.log| + i] == Change(t.nodes[order[i]].owner, order[i], Purged, now)
  }

  lemma NeededIsUsedOutside(t: Tables, folder: Id, gone: set<Id>)
    ensures UsedOutside(t.nodes, t.versions, folder, gone) <==> StillNeeded(t, folder, gone)
  {
    if x :| x in t.nodes && x !in gone && t.nodes[x].metadataScope == Some(folder) { assert x in t.nodes.Keys; }
    if v :| v in t.versions && t.versions[v].node !in gone && t.versions[v].scope == folder {
      assert v in t.versions.Keys;
    }
  }

  lemma KeptRows(t: Tables, gone: set<Id>)
    ensures NodesPurged(t.nodes, t.nodes - gone, gone)
    ensures VersionsPurged(t.versions, VersionsKept(t.versions, gone), gone)
    ensures SharesPurged(t.shares, SharesKept(t.shares, gone), gone)
    ensures EnvelopesPurged(t.envelopes, EnvelopesKept(t.envelopes, t.shares, gone), t.shares, gone)
  {
  }

  lemma KeptUploads(t: Tables, files: map<(Id, nat), Bytes>, gone: set<Id>)
    ensures var doomed := DoomedUploads(t.sessions, gone);
            && SessionsPurged(t.sessions, t.sessions - doomed, gone)
            && ChunksPurged(t.chunks, ChunksKept(t.chunks, doomed), t.sessions, gone)
            && ChunksPurged(files, WithoutDirectories(files, doomed), t.sessions, gone)
  {
  }

  lemma KeptKeys(t: Tables, gone: set<Id>, t': Tables)
    requires t'.folderKeys == KeysKept(t.nodes, t.versions, t.folderKeys, gone)
    ensures KeysPurged(t, t', gone)
  {
    forall k | k in t.folderKeys
      ensures UsedOutside(t.nodes, t.versions, k.0, gone) <==> StillNeeded(t, k.0, gone)
    {
      NeededIsUsedOutside(t, k.0, gone);
    }
  }

  lemma AppendedLog(t: Tables, t': Tables, order: seq<Id>, now: Time)
    requires forall x :: x in order ==> x in t.nodes
    requires t'.log == t.log + PurgeEntries(t.nodes, order, now)
    ensures LogPurged(t, t', order, now)
  {
    assert forall i :: 0 <= i < |order| ==> order[i] in order;
  }

  lemma PurgedRows(t: Tables, gone: set<Id>, order: seq<Id>, now: Time)
    requires gone <= t.nodes.Keys && forall x :: x in order ==> x in t.nodes
    ensures var t' := PurgedTables(t, gone, order, now);
            RowsPurged(t, t', gone) && KeysPurged(t, t', gone) && LogPurged(t, t', order, now)
  {
    var t' := PurgedTables(t, gone, order, now);
    KeptRows(t, gone);
    KeptUploads(t, map[], gone);
    KeptKeys(t, gone, t');
    AppendedLog(t, t', order, now);
  }

  function Members(order: seq<Id>): set<Id> {
    set x | x in order
  }

  /** The rows of a result set in whatever order they come. */
  method ListRows(s: set<Id>) returns (order: seq<Id>)
    ensures Enumerates(order, s)
  {
    order := [];
    var rest := s;
    while rest != {}
      invariant rest <= s && Enumerates(order, s - rest)
      decreases rest
    {
      var x :| x in rest;
      order, rest := order + [x], rest - {x};
    }
  }

  method RemoveDirectories(st: Storage, uploads: seq<Id>)
    modifies st
    ensures st.blobFiles == old(st.blobFiles)
    ensures st.tempFiles == WithoutDirectories(old(st.tempFiles), Members(uploads))
  {
    for i := 0 to |uploads|
      invariant st.blobFiles == old(st.blobFiles)
      invariant st.tempFiles == WithoutDirectories(old(st.tempFiles), Members(uploads[..i]))
    {
      st.tempFiles := WithoutDirectory(st.tempFiles, uploads[i]);
    }
    assert uploads[..|uploads|] == uploads;
  }

  /** A committed purge changes exactly these rows, a refused one none; the files go in both cases. */
  ghost predicate EntryPurged(t: Tables, t': Tables, files: map<(Id, nat), Bytes>, files': map<(Id, nat), Bytes>,
        gone: set<Id>, order: seq<Id>, now: Time, commits: bool)
  {
    && (if commits then RowsPurged(t, t', gone) && KeysPurged(t, t', gone) && LogPurged(t, t', order, now) else t' == t)
    && ChunksPurged(files, files', t.sessions, gone)
  }

  /** One purge transaction. The upload directories go before the commit: when the database
      refuses it, the tables come back and the directories do not. */
  method PurgeSubtree(db: Database, st: Storage, id: Id, cutoff: Time, now: Time, commits: bool)
    returns (r: Result<bool>, order: seq<Id>)
    modifies db, st
    ensures var gone := TrashSubtree(old(db.tables.nodes), id, cutoff);
            && Enumerates(order, gone) && (forall x :: x in order ==> x in old(db.tables.nodes))
            && db.tables == (if commits then PurgedTables(old(db.tables), gone, order, now) else old(db.tables))
            && r == (if commits then Ok(gone != {}) else Err(CommitFailed))
            && st.tempFiles == WithoutDirectories(old(st.tempFiles), DoomedUploads(old(db.tables.sessions), gone))
    ensures EntryPurged(old(db.tables), db.tables, old(st.tempFiles), st.tempFiles,
                        TrashSubtree(old(db.tables.nodes), id, cutoff), order, now, commits)
    ensures st.blobFiles == old(st.blobFiles)
  {
    var start := db.tables;
    var nodes := start.nodes;
    var gone := TrashSubtree(nodes, id, cutoff);
    KeptUploads(start, st.tempFiles, gone);
    var doomed := DoomedUploads(start.sessions, gone);
    var uploads := ListRows(doomed);
    order := ListRows(gone);
    assert forall x :: x in order ==> x in gone;
    db.tables := db.tables.(log := db.tables.log + PurgeEntries(nodes, order, now));
    db.tables := db.tables.(folderKeys := KeysKept(nodes, db.tables.versions, db.tables.folderKeys, gone));
    db.tables := db.tables.(envelopes := EnvelopesKept(db.tables.envelopes, db.tables.shares, gone));
    db.tables := db.tables.(shares := SharesKept(db.tables.shares, gone));
    db.tables := db.tables.(chunks := ChunksKept(db.tables.chunks, doomed));
    db.tables := db.tables.(sessions := db.tables.sessions - doomed);
    db.tables := db.tables.(versions := VersionsKept(db.tables.versions, gone));
    RemoveDirectories(st, uploads);
    assert Members(uploads) == doomed;
    db.tables := db.tables.(nodes := db.tables.nodes - gone);
    PurgedRows(start, gone, order, now);
    if !commits {
      db.tables := start;
      return Err(CommitFailed), order;
    }
    r := Ok(gone != {});
  }

  /** Permanently deletes one of the owner's Trash entries now: the entry's own deletion time is
      the cutoff, so exactly its complete subtree goes, with everything that belongs to it. */
  method PurgeTrashEntry(db: Database, st: Storage, owner: Id, id: Id, now: Time, commits: bool)
    returns (r: Result<()>, ghost order: seq<Id>)
    modifies db, st
    ensures var t := old(db.tables);
            if id !in t.nodes || t.nodes[id].owner != owner || t.nodes[id].deletedAt.None?
            then r == Err(NotInTrash) && db.tables == t && st.tempFiles == old(st.tempFiles)
            else
              var gone := TrashSubtree(t.nodes, id, t.nodes[id].deletedAt.value);
              && (IsForest(t.nodes) ==> forall y :: y in gone <==> y in t.nodes && Below(t.nodes, y, id))
              && st.tempFiles == WithoutDirectories(old(st.tempFiles), DoomedUploads(t.sessions, gone))
              && if !commits then r == Err(CommitFailed) && db.tables == t
                 else r == Ok(()) && Enumerates(order, gone) && (forall x :: x in order ==> x in t.nodes)
                      && db.tables == PurgedTables(t, gone, order, now)
    ensures var t := old(db.tables);
            id in t.nodes && t.nodes[id].owner == owner && t.nodes[id].deletedAt.Some? ==>
              EntryPurged(t, db.tables, old(st.tempFiles), st.tempFiles,
                          TrashSubtree(t.nodes, id, t.nodes[id].deletedAt.value), order, now, commits)
    ensures st.blobFiles == old(st.blobFiles)
  {
    order := [];
    if id !in db.tables.nodes || db.tables.nodes[id].owner != owner || db.tables.nodes[id].deletedAt.None? {
      return Err(NotInTrash), order;
    }
    var cutoff := db.tables.nodes[id].deletedAt.value;
    assert id in TrashSubtree(db.tables.nodes, id, cutoff);
    if IsForest(db.tables.nodes) { TrashSubtreeComplete(db.tables.nodes, id, cutoff); }
    var purged;
    purged, order := PurgeSubtree(db, st, id, cutoff, now, commits);
    r := match purged
         case Ok(any) => if any then Ok(()) else Err(NotInTrash)
         case Err(e) => Err(e);
  }

  // ---------------------------------------------------------------- the scheduled pass

  function ExpiredEntries(ns: map<Id, Node>, cutoff: Time): set<Id> {
    set x | x in ns && ns[x].deletedAt.Some? && ns[x].deletedAt.value <= cutoff
  }

  /** Everything at or below one of the entries. */
  ghost function Covered(ns: map<Id, Node>, entries: set<Id>): set<Id> {
    set y | y in ns && exists e :: e in entries && Below(ns, y, e)
  }

  lemma CoveredForest(ns: map<Id, Node>, entries: set<Id>)
    requires IsForest(ns)
    ensures IsForest(ns - Covered(ns, entries))
    ensures forall y :: y in ns - Covered(ns, entries) ==> Chain(ns - Covered(ns, entries), y) == Chain(ns, y)
  {
    var gone := Covered(ns, entries);
    forall y, x | y in ns && x in gone && Below(ns, y, x) ensures y in gone {
      var e :| e in entries && Below(ns, x, e);
      BelowTransitive(ns, y, x, e);
    }
    RemoveForest(ns, gone);
  }

  /** Once `before` has been purged, the next entry removes what it alone covers. */
  lemma PurgeNext(ns: map<Id, Node>, before: set<Id>, e: Id, cutoff: Time)
    requires IsForest(ns) && e in ExpiredEntries(ns, cutoff)
    ensures TrashSubtree(ns - Covered(ns, before), e, cutoff) == Covered(ns, before + {e}) - Covered(ns, before)
  {
    var gone := Covered(ns, before);
    var rest := ns - gone;
    CoveredForest(ns, before);
    TrashSubtreeComplete(rest, e, cutoff);
    forall y ensures y in TrashSubtree(rest, e, cutoff) <==> y in Covered(ns, before + {e}) - gone {
    }
  }

  /** Uses of the folder's key only inside the folder itself. */
  ghost predicate UsedOnlyInside(t: Tables, folder: Id) {
    !UsedOutside(t.nodes, t.versions, folder, set y | y in t.nodes && Below(t.nodes, y, folder))
  }

  /** What a pass has done to the tables after purging the entries `done`. Of the keys of a purged
      folder, those that something outside the whole pass uses stay, and those used only inside
      the folder go; whether any other stays depends on the order of the entries. */
  ghost predicate Passed(t: Tables, t': Tables, done: set<Id>, order: seq<Id>, now: Time) {
    var gone := Covered(t.nodes, done);
    var doomed := DoomedUploads(t.sessions, gone);
    && Enumerates(order, gone) && (forall x :: x in order ==> x in t.nodes)
    && t' == t.(log := t.log + PurgeEntries(t.nodes, order, now),
                nodes := t.nodes - gone,
                versions := VersionsKept(t.versions, gone),
                shares := SharesKept(t.shares, gone),
                envelopes := EnvelopesKept(t.envelopes, t.shares, gone),
                sessions := t.sessions - doomed,
                chunks := ChunksKept(t.chunks, doomed),
                folderKeys := t'.folderKeys)
    && KeysPassed(t, t'.folderKeys, gone)
  }

  ghost predicate KeysPassed(t: Tables, kept: map<(Id, int), FolderKey>, gone: set<Id>) {
    && (forall k :: k in kept ==> k in t.folderKeys && kept[k] == t.folderKeys[k])
    && (forall k :: k in t.folderKeys && k !in kept ==> k.0 in gone && !UsedOutside(t.nodes, t.versions, k.0, gone))
    && (forall k :: k in kept && k.0 in gone ==> !UsedOnlyInside(t, k.0))
  }

  /** What the pass leaves, row by row. A key that something remaining needs stays, and one that
      nothing outside its own folder needed goes, whatever the order. */
  lemma PassedRows(t: Tables, t': Tables, done: set<Id>, order: seq<Id>, now: Time)
    requires Passed(t, t', done, order, now)
    ensures var gone := Covered(t.nodes, done);
            RowsPurged(t, t', gone) && LogPurged(t, t', order, now) && SomeKeysPurged(t, t', gone)
  {
    var gone := Covered(t.nodes, done);
    KeptRows(t, gone);
    KeptUploads(t, map[], gone);
    AppendedLog(t, t', order, now);
    PassedKeys(t, t', gone);
  }

  ghost predicate SomeKeysPurged(t: Tables, t': Tables, gone: set<Id>) {
    && (forall k :: k in t'.folderKeys ==> k in t.folderKeys && t'.folderKeys[k] == t.folderKeys[k])
    && (forall k :: k in t.folderKeys && (k.0 in gone ==> StillNeeded(t, k.0, gone)) ==> k in t'.folderKeys)
    && forall k :: k in t'.folderKeys && k.0 in gone ==>
         StillNeeded(t, k.0, set y | y in t.nodes && Below(t.nodes, y, k.0))
  }

  lemma PassedKeys(t: Tables, t': Tables, gone: set<Id>)
    requires KeysPassed(t, t'.folderKeys, gone)
    ensures SomeKeysPurged(t, t', gone)
  {
    forall k | k in t.folderKeys && (k.0 in gone ==> StillNeeded(t, k.0, gone)) ensures k in t'.folderKeys {
      NeededIsUsedOutside(t, k.0, gone);
    }
    forall k | k in t'.folderKeys && k.0 in gone
      ensures StillNeeded(t, k.0, set y | y in t.nodes && Below(t.nodes, y, k.0))
    {
      NeededIsUsedOutside(t, k.0, set y | y in t.nodes && Below(t.nodes, y, k.0));
    }
  }

  /** How many of the listed entries still had something to remove when their turn came. */
  ghost function Purges(ns: map<Id, Node>, ids: seq<Id>): nat
    decreases |ids|
  {
    if ids == [] then 0
    else
      var before, e := ids[..|ids| - 1], ids[|ids| - 1];
      Purges(ns, before) + if e in Covered(ns, Members(before)) then 0 else 1
  }

  ghost predicate FilesPassed(t: Tables, files: map<(Id, nat), Bytes>, files': map<(Id, nat), Bytes>, done: set<Id>) {
    files' == WithoutDirectories(files, DoomedUploads(t.sessions, Covered(t.nodes, done)))
  }

  /** Tables, directories and count of a pass over these entries. */
  ghost predicate PassedUpTo(t: Tables, files: map<(Id, nat), Bytes>, t': Tables, files': map<(Id, nat), Bytes>,
        ids: seq<Id>, order: seq<Id>, deleted: nat, now: Time)
  {
    Passed(t, t', Members(ids), order, now) && FilesPassed(t, files, files', Members(ids))
      && deleted == Purges(t.nodes, ids)
  }

  lemma NothingRemoved(t: Tables)
    ensures t.nodes - {} == t.nodes && t.sessions - {} == t.sessions && DoomedUploads(t.sessions, {}) == {}
    ensures VersionsKept(t.versions, {}) == t.versions && SharesKept(t.shares, {}) == t.shares
    ensures EnvelopesKept(t.envelopes, t.shares, {}) == t.envelopes && ChunksKept(t.chunks, {}) == t.chunks
  {
  }

  lemma NothingPassed(t: Tables, files: map<(Id, nat), Bytes>, ids: seq<Id>, cutoff: Time, now: Time)
    requires IsForest(t.nodes) && forall i :: 0 <= i < |ids| ==> ids[i] in ExpiredEntries(t.nodes, cutoff)
    ensures ThroughFirst(t, files, t, files, ids, 0, [], 0, cutoff, now)
  {
    assert ids[..0] == [] && Members([]) == {} && Covered(t.nodes, {}) == {};
    NothingRemoved(t);
    assert PurgeEntries(t.nodes, [], now) == [] && t.log + [] == t.log;
    assert KeysPassed(t, t.folderKeys, {});
    assert WithoutDirectories(files, {}) == files;
  }

  lemma TablesStep(t: Tables, t': Tables, done: set<Id>, order: seq<Id>, e: Id, cutoff: Time, rows: seq<Id>, now: Time)
    requires IsForest(t.nodes) && Passed(t, t', done, order, now) && e in ExpiredEntries(t.nodes, cutoff)
    requires Enumerates(rows, TrashSubtree(t'.nodes, e, cutoff)) && forall x :: x in rows ==> x in t'.nodes
    ensures Passed(t, PurgedTables(t', TrashSubtree(t'.nodes, e, cutoff), rows, now), done + {e}, order + rows, now)
  {
    var gone, more := Covered(t.nodes, done), TrashSubtree(t'.nodes, e, cutoff);
    PassSets(t.nodes, done, e, cutoff);
    EnumerateBoth(order, gone, rows, more);
    PurgeEntriesAppend(t.nodes, t'.nodes, order, rows, now);
    AppendAssociative(t.log, PurgeEntries(t.nodes, order, now), PurgeEntries(t'.nodes, rows, now));
    RowsTwice(t, gone, more);
    UploadsTwice(t, gone, more);
    forall f, y | f in gone + more && y in t.nodes && Below(t.nodes, y, f) ensures y in gone + more {
      CoveredBelow(t.nodes, done + {e}, y, f);
    }
    KeysStep(t, t'.folderKeys, gone, more);
  }

  lemma CoveredBelow(ns: map<Id, Node>, entries: set<Id>, y: Id, f: Id)
    requires Rooted(ns) && y in ns && f in Covered(ns, entries) && Below(ns, y, f)
    ensures y in Covered(ns, entries)
  {
    var e :| e in entries && Below(ns, f, e);
    BelowTransitive(ns, y, f, e);
  }

  lemma RowsTwice(t: Tables, a: set<Id>, b: set<Id>)
    ensures VersionsKept(VersionsKept(t.versions, a), b) == VersionsKept(t.versions, a + b)
    ensures SharesKept(SharesKept(t.shares, a), b) == SharesKept(t.shares, a + b)
    ensures EnvelopesKept(EnvelopesKept(t.envelopes, t.shares, a), SharesKept(t.shares, a), b)
            == EnvelopesKept(t.envelopes, t.shares, a + b)
  {
  }

  lemma UploadsTwice(t: Tables, a: set<Id>, b: set<Id>)
    ensures var first, all := DoomedUploads(t.sessions, a), DoomedUploads(t.sessions, a + b);
            var second := DoomedUploads(t.sessions - first, b);
            && all == first + second
            && (t.sessions - first) - second == t.sessions - all
            && ChunksKept(ChunksKept(t.chunks, first), second) == ChunksKept(t.chunks, all)
  {
    var first, all := DoomedUploads(t.sessions, a), DoomedUploads(t.sessions, a + b);
    assert all == first + DoomedUploads(t.sessions - first, b);
  }

  /** What uses a key outside both purges is what the second purge finds outside itself. */
  lemma OutsideTwice(ns: map<Id, Node>, vs: map<Id, Version>, folder: Id, a: set<Id>, b: set<Id>)
    ensures UsedOutside(ns - a, VersionsKept(vs, a), folder, b) <==> UsedOutside(ns, vs, folder, a + b)
  {
    var ns', vs' := ns - a, VersionsKept(vs, a);
    if UsedOutside(ns, vs, folder, a + b) {
      if x :| x in ns.Keys && x !in a + b && ns[x].metadataScope == Some(folder) {
        assert x in ns'.Keys && x !in b && ns'[x].metadataScope == Some(folder);
      } else {
        var v :| v in vs.Keys && vs[v].node !in a + b && vs[v].scope == folder;
        assert v in vs'.Keys && vs'[v].node !in b && vs'[v].scope == folder;
      }
    }
    if UsedOutside(ns', vs', folder, b) {
      if x :| x in ns'.Keys && x !in b && ns'[x].metadataScope == Some(folder) {
        assert x in ns.Keys && x !in a + b;
      } else {
        var v :| v in vs'.Keys && vs'[v].node !in b && vs'[v].scope == folder;
        assert v in vs.Keys && vs[v].node !in a + b;
      }
    }
  }

  lemma OutsideShrinks(ns: map<Id, Node>, vs: map<Id, Version>, folder: Id, small: set<Id>, large: set<Id>)
    requires small <= large && UsedOutside(ns, vs, folder, large)
    ensures UsedOutside(ns, vs, folder, small)
  {
    if x :| x in ns.Keys && x !in large && ns[x].metadataScope == Some(folder) {
      assert x !in small;
    } else {
      var v :| v in vs.Keys && vs[v].node !in large && vs[v].scope == folder;
      assert vs[v].node !in small;
    }
  }

  lemma KeysStep(t: Tables, keys: map<(Id, int), FolderKey>, gone: set<Id>, more: set<Id>)
    requires KeysPassed(t, keys, gone) && gone !! more
    requires forall f, y :: f in gone + more && y in t.nodes && Below(t.nodes, y, f) ==> y in gone + more
    ensures KeysPassed(t, KeysKept(t.nodes - gone, VersionsKept(t.versions, gone), keys, more), gone + more)
  {
    var ns, vs, all := t.nodes, t.versions, gone + more;
    var kept := KeysKept(ns - gone, VersionsKept(vs, gone), keys, more);
    forall k | k in t.folderKeys && k !in kept ensures k.0 in all && !UsedOutside(ns, vs, k.0, all) {
      OutsideTwice(ns, vs, k.0, gone, more);
      if k !in keys && UsedOutside(ns, vs, k.0, all) { OutsideShrinks(ns, vs, k.0, gone, all); }
    }
    forall k | k in kept && k.0 in all ensures !UsedOnlyInside(t, k.0) {
      if k.0 in more {
        OutsideTwice(ns, vs, k.0, gone, more);
        OutsideShrinks(ns, vs, k.0, (set y | y in ns && Below(ns, y, k.0)), all);
      }
    }
  }

  lemma FilesStep(t: Tables, files: map<(Id, nat), Bytes>, t': Tables, files': map<(Id, nat), Bytes>,
        done: set<Id>, order: seq<Id>, e: Id, cutoff: Time, now: Time)
    requires IsForest(t.nodes) && Passed(t, t', done, order, now) && FilesPassed(t, files, files', done)
    requires e in ExpiredEntries(t.nodes, cutoff)
    ensures FilesPassed(t, files,
                        WithoutDirectories(files', DoomedUploads(t'.sessions, TrashSubtree(t'.nodes, e, cutoff))),
                        done + {e})
  {
    var gone, more := Covered(t.nodes, done), TrashSubtree(t'.nodes, e, cutoff);
    PassSets(t.nodes, done, e, cutoff);
    UploadsTwice(t, gone, more);
  }

  /** An entry has something left to remove exactly when no earlier entry covered it. */
  lemma PurgesStep(ns: map<Id, Node>, done: set<Id>, e: Id, cutoff: Time)
    requires IsForest(ns) && e in ExpiredEntries(ns, cutoff)
    ensures TrashSubtree(ns - Covered(ns, done), e, cutoff) != {} <==> e !in Covered(ns, done)
  {
    if e !in Covered(ns, done) {
      assert e in TrashSubtree(ns - Covered(ns, done), e, cutoff);
    }
  }

  lemma PassSets(ns: map<Id, Node>, done: set<Id>, e: Id, cutoff: Time)
    requires IsForest(ns) && e in ExpiredEntries(ns, cutoff)
    ensures var gone, more, all := Covered(ns, done), TrashSubtree(ns - Covered(ns, done), e, cutoff),
            Covered(ns, done + {e});
            all == gone + more && gone !! more && ns - all == ns - gone - more
  {
    PurgeNext(ns, done, e, cutoff);
    CoveredGrows(ns, done, e);
    var gone, more, all := Covered(ns, done), TrashSubtree(ns - Covered(ns, done), e, cutoff), Covered(ns, done + {e});
    assert all == gone + more;
    RemoveTwice(ns, gone, more);
  }

  lemma RemoveTwice(ns: map<Id, Node>, a: set<Id>, b: set<Id>)
    ensures ns - (a + b) == ns - a - b
  {
  }

  lemma CoveredGrows(ns: map<Id, Node>, done: set<Id>, e: Id)
    ensures Covered(ns, done) <= Covered(ns, done + {e})
  {
    forall y | y in Covered(ns, done) ensures y in Covered(ns, done + {e}) {
      var b :| b in done && Below(ns, y, b);
      assert b in done + {e};
    }
  }

  lemma EnumerateBoth(a: seq<Id>, s: set<Id>, b: seq<Id>, r: set<Id>)
    requires Enumerates(a, s) && Enumerates(b, r) && s !! r
    ensures Enumerates(a + b, s + r)
  {
  }

  lemma PurgeEntriesAppend(ns: map<Id, Node>, ns': map<Id, Node>, a: seq<Id>, b: seq<Id>, now: Time)
    requires forall x :: x in a ==> x in ns
    requires forall x :: x in b ==> x in ns' && x in ns && ns'[x] == ns[x]
    ensures forall x :: x in a + b ==> x in ns
    ensures PurgeEntries(ns, a + b, now) == PurgeEntries(ns, a, now) + PurgeEntries(ns', b, now)
  {
  }

  /** A pass that committed the first `done` entries and removed the directories of one more if it
      was stopped there; the count is that of a complete pass. */
  ghost predicate PassResult(t: Tables, files: map<(Id, nat), Bytes>, t': Tables, files': map<(Id, nat), Bytes>,
        ids: seq<Id>, done: nat, order: seq<Id>, deleted: nat, now: Time)
    requires done <= |ids|
  {
    && Passed(t, t', Members(ids[..done]), order, now)
    && FilesPassed(t, files, files', Members(if done == |ids| then ids else ids[..done + 1]))
    && (done == |ids| ==> deleted == Purges(t.nodes, ids))
  }

  lemma PassStep(t: Tables, files: map<(Id, nat), Bytes>, t': Tables, files': map<(Id, nat), Bytes>,
        ids: seq<Id>, order: seq<Id>, deleted: nat, e: Id, cutoff: Time, rows: seq<Id>, now: Time)
    requires IsForest(t.nodes) && PassedUpTo(t, files, t', files', ids, order, deleted, now)
    requires e in ExpiredEntries(t.nodes, cutoff)
    requires Enumerates(rows, TrashSubtree(t'.nodes, e, cutoff)) && forall x :: x in rows ==> x in t'.nodes
    ensures var more := TrashSubtree(t'.nodes, e, cutoff);
            PassedUpTo(t, files, PurgedTables(t', more, rows, now),
                       WithoutDirectories(files', DoomedUploads(t'.sessions, more)),
                       ids + [e], order + rows, deleted + (if more != {} then 1 else 0), now)
  {
    assert (ids + [e])[..|ids|] == ids && Members(ids + [e]) == Members(ids) + {e};
    TablesStep(t, t', Members(ids), order, e, cutoff, rows, now);
    FilesStep(t, files, t', files', Members(ids), order, e, cutoff, now);
    PurgesStep(t.nodes, Members(ids), e, cutoff);
  }

  /** The pass over expired entries started on a forest, and its first `done` entries are through. */
  ghost predicate ThroughFirst(t: Tables, files: map<(Id, nat), Bytes>, t': Tables, files': map<(Id, nat), Bytes>,
        ids: seq<Id>, done: nat, order: seq<Id>, deleted: nat, cutoff: Time, now: Time)
    requires done <= |ids|
  {
    && IsForest(t.nodes) && (forall i :: 0 <= i < |ids| ==> ids[i] in ExpiredEntries(t.nodes, cutoff))
    && PassedUpTo(t, files, t', files', ids[..done], order, deleted, now)
  }

  lemma ThroughAll(t: Tables, files: map<(Id, nat), Bytes>, t': Tables, files': map<(Id, nat), Bytes>,
        ids: seq<Id>, order: seq<Id>, deleted: nat, cutoff: Time, now: Time)
    requires ThroughFirst(t, files, t', files', ids, |ids|, order, deleted, cutoff, now)
    ensures PassResult(t, files, t', files', ids, |ids|, order, deleted, now)
  {
    assert ids[..|ids|] == ids;
  }

  /** The nodes at or below the first n entries. */
  ghost function BelowFirst(ns: map<Id, Node>, ids: seq<Id>, n: nat): set<Id>
    requires n <= |ids|
  {
    set y | y in ns && exists i :: 0 <= i < n && Below(ns, y, ids[i])
  }

  /** The rows and keys that a pass of `done` entries leaves, and the files, which go with the entry
      that the pass stopped at as well. */
  ghost predicate PassPurged(t: Tables, t': Tables, files: map<(Id, nat), Bytes>, files': map<(Id, nat), Bytes>,
        ids: seq<Id>, done: nat, order: seq<Id>, now: Time)
    requires done <= |ids|
  {
    var gone := BelowFirst(t.nodes, ids, done);
    && RowsPurged(t, t', gone) && LogPurged(t, t', order, now) && SomeKeysPurged(t, t', gone)
    && ChunksPurged(files, files', t.sessions, BelowFirst(t.nodes, ids, if done < |ids| then done + 1 else done))
  }

  lemma PassLeaves(t: Tables, files: map<(Id, nat), Bytes>, t': Tables, files': map<(Id, nat), Bytes>, ids: seq<Id>,
        done: nat, order: seq<Id>, deleted: nat, now: Time)
    requires done <= |ids| && PassResult(t, files, t', files', ids, done, order, deleted, now)
    ensures PassPurged(t, t', files, files', ids, done, order, now)
  {
    var n := if done < |ids| then done + 1 else done;
    assert ids[..|ids|] == ids;
    CoveredByFirst(t.nodes, ids, done);
    CoveredByFirst(t.nodes, ids, n);
    PassedRows(t, t', Members(ids[..done]), order, now);
    KeptUploads(t, files, Covered(t.nodes, Members(ids[..n])));
  }

  lemma CoveredByFirst(ns: map<Id, Node>, ids: seq<Id>, n: nat)
    requires n <= |ids|
    ensures Covered(ns, Members(ids[..n])) == BelowFirst(ns, ids, n)
  {
    forall y | y in Covered(ns, Members(ids[..n])) ensures y in BelowFirst(ns, ids, n) {
      var e :| e in Members(ids[..n]) && Below(ns, y, e);
      var i :| 0 <= i < n && ids[i] == e;
    }
    forall y | y in BelowFirst(ns, ids, n) ensures y in Covered(ns, Members(ids[..n])) {
      var i :| 0 <= i < n && Below(ns, y, ids[i]);
      assert ids[..n][i] in Members(ids[..n]);
    }
  }

  /** One transaction of the pass: the next entry is through, or the pass stops. */
  method PurgeEntry(db: Database, st: Storage, ids: seq<Id>, done: nat, cutoff: Time, now: Time, commits: bool,
        ghost forest: bool, ghost t: Tables, ghost files: map<(Id, nat), Bytes>, ghost order: seq<Id>,
        ghost deleted: nat)
    returns (r: Result<bool>, ghost order': seq<Id>)
    requires done < |ids|
    requires forest ==> ThroughFirst(t, files, db.tables, st.tempFiles, ids, done, order, deleted, cutoff, now)
    modifies db, st
    ensures if commits then r.Ok? else r == Err(CommitFailed)
    ensures forest && commits ==>
              ThroughFirst(t, files, db.tables, st.tempFiles, ids, done + 1, order',
                           deleted + (if r.value then 1 else 0), cutoff, now)
    ensures forest && !commits ==>
              PassResult(t, files, db.tables, st.tempFiles, ids, done, order, deleted, now)
    ensures st.blobFiles == old(st.blobFiles)
  {
    ghost var t', files' := db.tables, st.tempFiles;
    var rows;
    r, rows := PurgeSubtree(db, st, ids[done], cutoff, now, commits);
    order' := order + rows;
    assert ids[..done] + [ids[done]] == ids[..done + 1];
    if forest {
      PassStep(t, files, t', files', ids[..done], order, deleted, ids[done], cutoff, rows, now);
      if !commits && done + 1 == |ids| { assert ids[..done + 1] == ids; }
    }
  }

  /** The listed entries one after the other, up to the first whose commit is refused; what is
      claimed of the tables needs `forest`, that they start as a forest with expired entries. */
  method PurgeListed(db: Database, st: Storage, ids: seq<Id>, cutoff: Time, now: Time, failing: set<Id>,
        ghost forest: bool)
    returns (deleted: nat, done: nat, ghost order: seq<Id>)
    requires forest ==>
               ThroughFirst(db.tables, st.tempFiles, db.tables, st.tempFiles, ids, 0, [], 0, cutoff, now)
    modifies db, st
    ensures done <= |ids| && forall i :: 0 <= i < done ==> ids[i] !in failing
    ensures done < |ids| ==> ids[done] in failing
    ensures forest ==>
              PassResult(old(db.tables), old(st.tempFiles), db.tables, st.tempFiles, ids, done, order, deleted, now)
    ensures st.blobFiles == old(st.blobFiles)
  {
    ghost var t, files := db.tables, st.tempFiles;
    deleted, done, order := 0, 0, [];
    while done < |ids|
      invariant 0 <= done <= |ids| && forall i :: 0 <= i < done ==> ids[i] !in failing
      invariant st.blobFiles == old(st.blobFiles)
      invariant forest ==> ThroughFirst(t, files, db.tables, st.tempFiles, ids, done, order, deleted, cutoff, now)
    {
      var purged;
      ghost var order';
      purged, order' := PurgeEntry(db, st, ids, done, cutoff, now, ids[done] !in failing, forest, t, files, order,
                                   deleted);
      if purged.Err? {
        return;
      }
      deleted, done, order := deleted + (if purged.value then 1 else 0), done + 1, order';
    }
    if forest { ThroughAll(t, files, db.tables, st.tempFiles, ids, order, deleted, cutoff, now); }
  }

  /** Purges the expired entries, one transaction each, in the order the listing returned, up to
      the first whose commit the database refuses (`failing`). */
  method ExpireTrash(db: Database, st: Storage, cutoff: Time, now: Time, failing: set<Id>)
    returns (r: Result<nat>, ghost ids: seq<Id>, ghost done: nat, ghost order: seq<Id>)
    modifies db, st
    ensures Enumerates(ids, ExpiredEntries(old(db.tables.nodes), cutoff)) && done <= |ids|
    ensures forall i :: 0 <= i < done ==> ids[i] !in failing
    ensures if done == |ids| then r.Ok? else r == Err(CommitFailed) && ids[done] in failing
    ensures IsForest(old(db.tables.nodes)) ==>
              PassResult(old(db.tables), old(st.tempFiles), db.tables, st.tempFiles, ids, done, order,
                         if r.Ok? then r.value else 0, now)
    ensures forall x :: x in ids <==> x in old(db.tables.nodes) && old(db.tables.nodes[x]).deletedAt.Some?
                                      && old(db.tables.nodes[x]).deletedAt.value <= cutoff
    ensures IsForest(old(db.tables.nodes)) ==>
              PassPurged(old(db.tables), db.tables, old(st.tempFiles), st.tempFiles, ids, done, order, now)
    ensures st.blobFiles == old(st.blobFiles)
  {
    ghost var start, files := db.tables, st.tempFiles;
    var entries := ListRows(ExpiredEntries(db.tables.nodes, cutoff));
    if IsForest(db.tables.nodes) { NothingPassed(db.tables, st.tempFiles, entries, cutoff, now); }
    var deleted, reached;
    deleted, reached, order := PurgeListed(db, st, entries, cutoff, now, failing, IsForest(db.tables.nodes));
    ids, done := entries, reached;
    if IsForest(start.nodes) { PassLeaves(start, files, db.tables, st.tempFiles, ids, done, order, deleted, now); }
    r := if reached == |entries| then Ok(deleted) else Err(CommitFailed);
  }
}
