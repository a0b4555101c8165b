/** Every invariant holds on an empty server and therefore in every state that an allowed run
    reaches from it. */
module Reachable {
  import opened Common
  import opened Schema
  import opened Forest
  import Uploads
  import opened Server
  import opened ChangeLog
  import opened KeyScopes
  import opened Integrity
  import opened Durability
  import opened ChunkStore
  import opened Reclaimed

  lemma EmptyTablesOk(users: set<Id>, devices: map<Id, Device>, now: Time)
    ensures var t := Empty(users, devices, now).tables; ScopesInv(t) && References(t) && MarksOk(t)
  {
    var t := Empty(users, devices, now).tables;
    forall user ensures Folded(t.log, user) == TrashFlags(t.nodes, user) {}
  }

  lemma EmptyStorageOk(cfg: Config, users: set<Id>, devices: map<Id, Device>, now: Time)
    ensures var s := Empty(users, devices, now); BlobInv(s) && ChunkInv(cfg, s) && Quota(s)
  {
    var s := Empty(users, devices, now);
    forall d ensures |OpenUploadsOf(s, d)| == 0 { assert OpenUploadsOf(s, d) == {}; }
  }

  function OpenUploadsOf(s: State, d: Id): set<Id> {
    Uploads.OpenUploads(s.tables.sessions, d, s.clock)
  }

  /** In every reachable state the nodes form a forest that the change log determines, keys and
      shares are in order, nothing dangles, and files and chunks are what their rows say. */
  lemma EveryReachableState(cfg: Config, users: set<Id>, devices: map<Id, Device>, now: Time, es: seq<Event>)
    requires AllowedRun(cfg, Empty(users, devices, now), es)
    ensures var s := Run(cfg, Empty(users, devices, now), es);
            && IsForest(s.tables.nodes) && LogMatches(s.tables.nodes, s.tables.log)
            && KeyScopesOk(s.tables) && NothingDangles(s.tables)
            && BlobInv(s) && MarksOk(s.tables) && MarksPast(s) && ChunkInv(cfg, s) && Quota(s)
  {
    var s := Empty(users, devices, now);
    EmptyTablesOk(users, devices, now);
    EmptyStorageOk(cfg, users, devices, now);
    RunKeepsScopes(cfg, s, es);
    RunLeavesNothingDangling(cfg, s, es);
    RunKeepsBlobs(cfg, s, es);
    RunMarks(cfg, s, es);
    RunKeepsMarksPast(cfg, s, es);
    RunKeepsChunks(cfg, s, es);
    RunKeepsQuota(cfg, s, es);
  }
}
