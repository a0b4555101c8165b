/** One run that shows what a user sees when a purged folder's ID is reused although its key was
    kept: two shares reach one folder, and revoking its own share does not end access to it. */
module NestedReuse {
  import opened Common
  import opened Schema
  import opened Forest
  import opened Access
  import opened Nodes
  import opened Sharing
  import opened Server
  import opened Scenarios
  import opened KeyReuse

  const ZEROS: Bytes := [0, 0, 0, 0, 0, 0, 0, 0, 0, 0, 0, 0, 0, 0, 0, 0]
  const ENVELOPE := DeviceEnvelope(4, 1, [0], ZEROS + ZEROS, ZEROS + ZEROS + ZEROS + ZEROS)
  const OUTER_GRANT := GrantInput(1, 3, 107, 6, 2, Read, [ENVELOPE])
  const INNER_GRANT := GrantInput(1, 3, 108, 7, 2, Read, [ENVELOPE])

  const OUTER := Event(0, OnNodes(CreateNode(CreateInput(6, 1, 3, 105, None, Directory, [0], 1, None))))
  const OUTER_KEY := Event(0, OnShares(AddFolderKey(FolderKeyInput(1, 3, 6, 1, [0]))))
  const INNER := Event(0, OnNodes(CreateNode(CreateInput(7, 1, 3, 106, Some(6), Directory, [0], 1, None))))
  const SHARE_OUTER := Event(0, OnShares(SharingAction.Grant(OUTER_GRANT, 30)))
  const SHARE_INNER := Event(0, OnShares(SharingAction.Grant(INNER_GRANT, 31)))
  const REVOKE := Event(0, OnShares(RevokeShare(1, 3, 31)))

  const BOTH_KEYS: map<(Id, int), FolderKey> := KEY[(6, 1) := FolderKey(1, [0])]
  const OUTER_SHARE := Share(6, 1, 2, Read, None)
  const INNER_SHARE := Share(7, 1, 2, Read, None)
  const REVOKED_SHARE := Share(7, 1, 2, Read, Some(0))

  /** The purged folder's key is kept, and user 1 owns these live folders, each below its parent. */
  ghost predicate Holds(t: Tables, folders: map<Id, Option<Id>>, keys: map<(Id, int), FolderKey>,
        shares: map<Id, Share>, ops: set<Id>)
  {
    && t.devices == DEVICES && t.users == {1, 2}
    && t.folderKeys == keys && t.shares == shares && t.processed.Keys == ops
    && t.nodes.Keys == folders.Keys + {8}
    && forall x :: x in folders ==>
         var n := t.nodes[x];
         n.owner == 1 && n.kind == Directory && n.deletedAt.None? && n.parent == folders[x]
  }

  const OPS := {100, 101, 102, 103}

  lemma SharingEvent(s: State, a: SharingAction)
    requires s.clock == 0
    ensures Step(CONFIG, s, Event(0, OnShares(a))) == s.(tables := SharingTables(s.tables, a, 0))
    ensures Allowed(s, Event(0, OnShares(a)))
  {
  }

  lemma OuterTx(t: Tables)
    requires Holds(t, map[], KEY, map[], OPS)
    ensures var tx := CreateTx(t, OUTER.action.node.create, 0);
            tx.Ok? && Holds(tx.value.tables, map[6 := None], KEY, map[], OPS + {105})
  {
    assert ActiveDevice(t.devices, 1, 3);
  }

  lemma OuterKeyTx(t: Tables)
    requires Holds(t, map[6 := None], KEY, map[], OPS + {105})
    ensures Holds(SharingTables(t, OUTER_KEY.action.sharing, 0), map[6 := None], BOTH_KEYS, map[], OPS + {105})
  {
    assert ActiveDevice(t.devices, 1, 3) && 6 in t.nodes;
    assert !Keyed(t.folderKeys, 6) && LatestOf(t.folderKeys, 6) == 0;
    assert forall y :: y in SubtreeQuery(t.nodes, {6}) ==> !Keyed(t.folderKeys, y);
    assert ForbidNestedScope(t.nodes, t.folderKeys, 6).Pass?;
  }

  /** The create that takes the retained ID; the nesting check of folder keys does not see it. */
  lemma InnerTx(t: Tables)
    requires Holds(t, map[6 := None], BOTH_KEYS, map[], OPS + {105})
    ensures var tx := CreateTx(t, INNER.action.node.create, 0);
            tx.Ok? && Holds(tx.value.tables, map[6 := None, 7 := Some(6)], BOTH_KEYS, map[], OPS + {105, 106})
  {
    assert ActiveDevice(t.devices, 1, 3) && 6 in t.nodes;
  }

  lemma OneEnvelope(t: Tables, folder: Id)
    requires t.devices == DEVICES && (folder, 1) in t.folderKeys
    ensures ValidEnvelopes([ENVELOPE]) && EnvelopeTargets(t, folder, 2, [ENVELOPE]).Pass?
  {
    assert ActiveDevice(t.devices, 2, 4);
  }

  lemma GrantAccepted(t: Tables, g: GrantInput, sid: Id)
    requires g.owner == 1 && g.device == 3 && g.target == 2 && g.permission == Read && g.envelopes == [ENVELOPE]
    requires t.devices == DEVICES && t.users == {1, 2} && (g.node, 1) in t.folderKeys
    requires RequireOwnedFolder(t.nodes, 1, g.node).Pass? && g.operation !in t.processed && sid !in t.shares
    requires forall h :: !ActiveFor(t.shares, h, 2, g.node)
    ensures var t' := SharingTables(t, SharingAction.Grant(g, sid), 0);
            && t'.shares == t.shares[sid := Share(g.node, 1, 2, Read, None)]
            && t'.processed.Keys == t.processed.Keys + {g.operation}
            && t'.devices == t.devices && t'.users == t.users && t'.nodes == t.nodes && t'.folderKeys == t.folderKeys
  {
    OneEnvelope(t, g.node);
    assert ActiveDevice(t.devices, 1, 3);
    assert GrantTx(t, g, sid, 0).Ok?;
  }

  lemma ShareOuterTx(t: Tables)
    requires Holds(t, map[6 := None, 7 := Some(6)], BOTH_KEYS, map[], OPS + {105, 106})
    ensures Holds(SharingTables(t, SHARE_OUTER.action.sharing, 0), map[6 := None, 7 := Some(6)], BOTH_KEYS,
                  map[30 := OUTER_SHARE], OPS + {105, 106, 107})
  {
    assert 6 in t.nodes && (6, 1) in t.folderKeys;
    GrantAccepted(t, OUTER_GRANT, 30);
    assert t.shares[30 := OUTER_SHARE] == map[30 := OUTER_SHARE];
  }

  lemma ShareInnerTx(t: Tables)
    requires Holds(t, map[6 := None, 7 := Some(6)], BOTH_KEYS, map[30 := OUTER_SHARE], OPS + {105, 106, 107})
    ensures Holds(SharingTables(t, SHARE_INNER.action.sharing, 0), map[6 := None, 7 := Some(6)], BOTH_KEYS,
                  map[30 := OUTER_SHARE, 31 := INNER_SHARE], OPS + {105, 106, 107, 108})
  {
    assert 7 in t.nodes && (7, 1) in t.folderKeys;
    GrantAccepted(t, INNER_GRANT, 31);
    assert t.shares[31 := INNER_SHARE] == map[30 := OUTER_SHARE, 31 := INNER_SHARE];
  }

  lemma RevokeInnerTx(t: Tables)
    requires Holds(t, map[6 := None, 7 := Some(6)], BOTH_KEYS, map[30 := OUTER_SHARE, 31 := INNER_SHARE],
                   OPS + {105, 106, 107, 108})
    ensures Holds(SharingTables(t, REVOKE.action.sharing, 0), map[6 := None, 7 := Some(6)], BOTH_KEYS,
                  map[30 := OUTER_SHARE, 31 := REVOKED_SHARE], OPS + {105, 106, 107, 108})
    ensures RevokeTx(t, 1, 3, 31, 0).Ok?
  {
    assert ActiveDevice(t.devices, 1, 3);
    assert t.shares[31 := REVOKED_SHARE] == map[30 := OUTER_SHARE, 31 := REVOKED_SHARE];
  }

  lemma TwoLevels(ns: map<Id, Node>, inner: Id, outer: Id)
    requires inner in ns && outer in ns && inner != outer
    requires ns[inner].parent == Some(outer) && ns[outer].parent.None?
    ensures Chain(ns, inner) == [inner, outer]
  {
    assert outer in ns - {inner} && (ns - {inner})[outer] == ns[outer];
    assert Chain(ns - {inner}, outer) == [outer];
  }

  lemma InheritsGrant(ns: map<Id, Node>, shares: map<Id, Share>, user: Id, inner: Id, outer: Id)
    requires inner in ns && outer in ns && ns[inner].deletedAt.None? && ns[outer].deletedAt.None?
    requires ShareOn(shares, user, inner).None? && ShareOn(shares, user, outer).Some?
    ensures GrantAlong(ns, shares, user, [inner, outer]).Some?
  {
    assert [inner, outer][1..] == [outer];
    assert GrantAlong(ns, shares, user, [outer]).Some?;
  }

  lemma OnlyOuterShare(shares: map<Id, Share>)
    requires shares == map[30 := OUTER_SHARE, 31 := REVOKED_SHARE]
    ensures ShareOn(shares, 2, 7).None? && ShareOn(shares, 2, 6).Some?
  {
    assert forall sid :: !ActiveFor(shares, sid, 2, 7);
    assert ActiveFor(shares, 30, 2, 6);
  }

  /** The recipient of the outer share reads the inner folder without a share of its own. */
  lemma ReadsInner(t: Tables, ops: set<Id>)
    requires Holds(t, map[6 := None, 7 := Some(6)], BOTH_KEYS, map[30 := OUTER_SHARE, 31 := REVOKED_SHARE], ops)
    ensures 7 in t.nodes && t.nodes[7].owner == 1 && Get(t, 2, 7).Ok?
  {
    TwoLevels(t.nodes, 7, 6);
    OnlyOuterShare(t.shares);
    InheritsGrant(t.nodes, t.shares, 2, 7, 6);
  }

  lemma ReachesOuter(es: seq<Event>, s: State) returns (s': State)
    requires Reaches(NewNodeIds, 8, es, s) && |es| == 6 && s.clock == 0 && Holds(s.tables, map[], KEY, map[], OPS)
    ensures Reaches(NewNodeIds, 8, es + [OUTER] + [OUTER_KEY], s') && s'.clock == 0
    ensures Holds(s'.tables, map[6 := None], BOTH_KEYS, map[], OPS + {105})
  {
    OuterTx(s.tables);
    CreateEvent(s, OUTER.action.node.create);
    var s1 := Step(CONFIG, s, OUTER);
    Extend(NewNodeIds, 8, es, s, OUTER, s1);
    OuterKeyTx(s1.tables);
    SharingEvent(s1, OUTER_KEY.action.sharing);
    s' := Step(CONFIG, s1, OUTER_KEY);
    Extend(NewNodeIds, 8, es + [OUTER], s1, OUTER_KEY, s');
  }

  lemma ReachesInner(es: seq<Event>, s: State) returns (s': State)
    requires Reaches(NewNodeIds, 8, es, s) && |es| == 8 && s.clock == 0
    requires Holds(s.tables, map[6 := None], BOTH_KEYS, map[], OPS + {105})
    ensures Reaches(NewNodeIds, 8, es + [INNER], s') && !Meets(NewNodeIds, s, INNER) && s'.clock == 0
    ensures Holds(s'.tables, map[6 := None, 7 := Some(6)], BOTH_KEYS, map[], OPS + {105, 106})
  {
    InnerTx(s.tables);
    CreateEvent(s, INNER.action.node.create);
    assert (7, 1) in s.tables.folderKeys.Keys;
    s' := Step(CONFIG, s, INNER);
    Extend(NewNodeIds, 8, es, s, INNER, s');
  }

  lemma ReachesShares(es: seq<Event>, s: State) returns (s': State)
    requires Reaches(NewNodeIds, 8, es, s) && |es| > 8 && s.clock == 0
    requires Holds(s.tables, map[6 := None, 7 := Some(6)], BOTH_KEYS, map[], OPS + {105, 106})
    ensures Reaches(NewNodeIds, 8, es + [SHARE_OUTER] + [SHARE_INNER], s') && s'.clock == 0
    ensures Holds(s'.tables, map[6 := None, 7 := Some(6)], BOTH_KEYS, map[30 := OUTER_SHARE, 31 := INNER_SHARE],
                  OPS + {105, 106, 107, 108})
  {
    ShareOuterTx(s.tables);
    SharingEvent(s, SHARE_OUTER.action.sharing);
    var s1 := Step(CONFIG, s, SHARE_OUTER);
    Extend(NewNodeIds, 8, es, s, SHARE_OUTER, s1);
    ShareInnerTx(s1.tables);
    SharingEvent(s1, SHARE_INNER.action.sharing);
    s' := Step(CONFIG, s1, SHARE_INNER);
    Extend(NewNodeIds, 8, es + [SHARE_OUTER], s1, SHARE_INNER, s');
  }

  lemma ReachesRevoked(es: seq<Event>, s: State) returns (s': State)
    requires Reaches(NewNodeIds, 8, es, s) && |es| > 8 && s.clock == 0
    requires Holds(s.tables, map[6 := None, 7 := Some(6)], BOTH_KEYS, map[30 := OUTER_SHARE, 31 := INNER_SHARE],
                   OPS + {105, 106, 107, 108})
    ensures Reaches(NewNodeIds, 8, es + [REVOKE], s') && RevokeTx(s.tables, 1, 3, 31, 0).Ok?
    ensures 7 in s'.tables.nodes && s'.tables.nodes[7].owner == 1 && Get(s'.tables, 2, 7).Ok?
  {
    RevokeInnerTx(s.tables);
    SharingEvent(s, REVOKE.action.sharing);
    s' := Step(CONFIG, s, REVOKE);
    Extend(NewNodeIds, 8, es, s, REVOKE, s');
    ReadsInner(s'.tables, OPS + {105, 106, 107, 108});
  }

  function UpToPurge(): seq<Event> {
    [] + [MAKE] + [ADD_KEY] + [FILL] + [MOVE_OUT] + [TRASH] + [PURGE]
  }

  /** Then folder 6 with its key, the new folder 7 inside it, and both shares. */
  function Prelude(): seq<Event> {
    UpToPurge() + [OUTER] + [OUTER_KEY] + [INNER] + [SHARE_OUTER] + [SHARE_INNER]
  }

  lemma ReachesPurge() returns (s: State)
    ensures Reaches(NewNodeIds, 8, UpToPurge(), s) && s.clock == 0 && Holds(s.tables, map[], KEY, map[], OPS)
  {
    s := Step(CONFIG, TrashedState(), PURGE);
    PurgeStep();
    ReachesPurged(8, s);
  }

  lemma FromPurge(es: seq<Event>, s: State) returns (s4: State, s5: State)
    requires Reaches(NewNodeIds, 8, es, s) && |es| == 6 && s.clock == 0 && Holds(s.tables, map[], KEY, map[], OPS)
    ensures var fs := es + [OUTER] + [OUTER_KEY] + [INNER] + [SHARE_OUTER] + [SHARE_INNER];
            && Reaches(NewNodeIds, 8, fs, s4) && Reaches(NewNodeIds, 8, fs + [REVOKE], s5) && fs[8] == INNER
    ensures RevokeTx(s4.tables, 1, 3, 31, 0).Ok? && 31 in s4.tables.shares && s4.tables.shares[31] == INNER_SHARE
    ensures 7 in s5.tables.nodes && s5.tables.nodes[7].owner == 1 && Get(s5.tables, 2, 7).Ok?
  {
    var s2 := ReachesOuter(es, s);
    var s3 := ReachesInner(es + [OUTER] + [OUTER_KEY], s2);
    s4 := ReachesShares(es + [OUTER] + [OUTER_KEY] + [INNER], s3);
    s5 := ReachesRevoked(es + [OUTER] + [OUTER_KEY] + [INNER] + [SHARE_OUTER] + [SHARE_INNER], s4);
  }

  /** After folder 7 has been purged with its key kept, its owner makes folder 6, gives it a key,
      makes a new folder 7 inside it, and shares both with user 2. When the share of folder 7 is
      revoked, user 2 still reads folder 7. Only the creation of the new folder 7 breaks an
      assumption, and only that one. */
  lemma RevokedButReadable()
    ensures var s, t := Run(CONFIG, Start(), Prelude()), Run(CONFIG, Start(), Prelude() + [REVOKE]).tables;
            && RunBut(NewNodeIds, 8, Prelude() + [REVOKE]) && Prelude()[8] == INNER
            && RevokeTx(s.tables, 1, 3, 31, 0).Ok? && 31 in s.tables.shares && s.tables.shares[31] == INNER_SHARE
            && 7 in t.nodes && t.nodes[7].owner == 1 && Get(t, 2, 7).Ok?
  {
    var s := ReachesPurge();
    var s4, s5 := FromPurge(UpToPurge(), s);
  }
}
