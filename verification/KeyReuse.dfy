/** One run that shows why a new node must not take the ID of a purged folder whose key was kept. */
module KeyReuse {
  import opened Common
  import opened Schema
  import opened Access
  import opened Nodes
  import opened Sharing
  import opened Trash
  import opened Server
  import opened KeyScopes
  import opened Scenarios

  const FOLDER := Node(1, None, Directory, [0], 1, None, None, 1, 0, 0, None)
  const INSIDE := Node(1, Some(7), File, [0], 1, Some(7), None, 2, 0, 0, None)
  const KEY: map<(Id, int), FolderKey> := map[(7, 1) := FolderKey(1, [0])]

  const MAKE := Event(0, OnNodes(CreateNode(CreateInput(7, 1, 3, 100, None, Directory, [0], 1, None))))
  const ADD_KEY := Event(0, OnShares(AddFolderKey(FolderKeyInput(1, 3, 7, 1, [0]))))
  const FILL := Event(0, OnNodes(CreateNode(CreateInput(8, 1, 3, 101, Some(7), File, [0], 1, Some(7)))))
  const MOVE_OUT := Event(0, OnNodes(UpdateNode(UpdateInput(1, 3, 102, 8, 2, [], 0, None, true, None))))
  const TRASH := Event(0, OnNodes(DeleteNode(NodeRequest(1, 3, 7, 103), 1)))
  const PURGE := Event(0, OnRetention(PurgeTrash(7, 0, [7])))
  const REUSE := Event(0, OnNodes(CreateNode(CreateInput(7, 2, 4, 104, None, File, [0], 1, None))))

  function Stored(nodes: map<Id, Node>, log: seq<Change>, processed: map<Id, Processed>,
        keys: map<(Id, int), FolderKey>): State
  {
    State(Tables({1, 2}, DEVICES, nodes, log, processed, keys, map[], map[], map[], map[], map[], map[], map[], map[]),
          map[], map[], map[], {}, {}, 0)
  }

  const LOG1 := [Change(1, 7, Created, 0)]
  const LOG2 := [Change(1, 7, Created, 0), Change(1, 8, Created, 0)]
  const LOG3 := [Change(1, 7, Created, 0), Change(1, 8, Created, 0), Change(1, 8, Updated, 0)]
  const LOG4 := [Change(1, 7, Created, 0), Change(1, 8, Created, 0), Change(1, 8, Updated, 0), Change(1, 7, Deleted, 0)]

  function Op(mutation: Mutation, subject: Id): Processed {
    Processed(1, 3, mutation, subject, OPERATION_LIFETIME)
  }

  function Ops1(): map<Id, Processed> { map[100 := Op(NodeCreate, 7)] }

  function Ops2(): map<Id, Processed> { Ops1()[101 := Op(NodeCreate, 8)] }

  function Ops3(): map<Id, Processed> { Ops2()[102 := Op(NodeUpdate, 8)] }

  function Ops4(): map<Id, Processed> { Ops3()[103 := Op(NodeDelete, 7)] }

  const OUTSIDE := INSIDE.(parent := None, revision := 3)
  const TRASHED := FOLDER.(deletedAt := Some(0), revision := 4)

  function MadeState(): State { Stored(map[7 := FOLDER], LOG1, Ops1(), map[]) }

  function KeyedState(): State { Stored(map[7 := FOLDER], LOG1, Ops1(), KEY) }

  function FilledState(): State { Stored(map[7 := FOLDER, 8 := INSIDE], LOG2, Ops2(), KEY) }

  function MovedState(): State { Stored(map[7 := FOLDER, 8 := OUTSIDE], LOG3, Ops3(), KEY) }

  function TrashedState(): State { Stored(map[7 := TRASHED, 8 := OUTSIDE], LOG4, Ops4(), KEY) }

  lemma MakeStep()
    ensures Step(CONFIG, Start(), MAKE) == MadeState() && Allowed(Start(), MAKE)
  {
    var t := Start().tables;
    assert t.log + [Change(1, 7, Created, 0)] == LOG1;
    assert t.nodes[7 := FOLDER] == map[7 := FOLDER];
    assert t.processed[100 := Op(NodeCreate, 7)] == Ops1();
  }

  lemma KeyStep()
    ensures Step(CONFIG, MadeState(), ADD_KEY) == KeyedState()
    ensures Allowed(MadeState(), ADD_KEY)
  {
    var t := MadeState().tables;
    assert LatestOf(t.folderKeys, 7) == 0;
    assert forall x :: !Keyed(t.folderKeys, x);
    assert ForbidNestedScope(t.nodes, t.folderKeys, 7).Pass?;
    assert t.folderKeys[(7, 1) := FolderKey(1, [0])] == KEY;
  }

  lemma FillStep()
    ensures Step(CONFIG, KeyedState(), FILL) == FilledState()
    ensures Allowed(KeyedState(), FILL)
  {
    var t := KeyedState().tables;
    assert (7, 1) in t.folderKeys && t.folderKeys[(7, 1)].owner == 1;
    assert t.log + [Change(1, 8, Created, 0)] == LOG2;
    assert t.nodes[8 := INSIDE] == map[7 := FOLDER, 8 := INSIDE];
  }

  lemma MoveStep()
    ensures Step(CONFIG, FilledState(), MOVE_OUT)
         == MovedState()
    ensures Allowed(FilledState(), MOVE_OUT)
  {
    var t := FilledState().tables;
    assert CheckedUpdate(t, MOVE_OUT.action.node.update) == Ok(None);
    assert t.log + [Change(1, 8, Updated, 0)] == LOG3;
    assert t.nodes[8 := OUTSIDE] == map[7 := FOLDER, 8 := OUTSIDE];
  }

  lemma TrashStep()
    ensures Step(CONFIG, MovedState(), TRASH)
         == TrashedState()
    ensures Allowed(MovedState(), TRASH)
  {
    var t := MovedState().tables;
    assert t.log + [Change(1, 7, Deleted, 0)] == LOG4;
    assert t.nodes[7 := TRASHED] == map[7 := TRASHED, 8 := OUTSIDE];
  }

  lemma PurgedTrash(t: Tables)
    requires t == TrashedState().tables
    ensures TrashSubtree(t.nodes, 7, 0) == {7} && Enumerates([7], {7})
    ensures KeysKept(t.nodes, t.versions, t.folderKeys, {7}) == KEY && t.nodes - {7} == map[8 := OUTSIDE]
    ensures SharesKept(t.shares, {7}) == map[]
  {
    assert TrashQuery(t.nodes, {7}) == {7};
    assert 8 in t.nodes.Keys && UsedOutside(t.nodes, t.versions, 7, {7});
  }

  lemma PurgeStep()
    ensures var s' := Step(CONFIG, TrashedState(), PURGE);
            && s'.tables.nodes == map[8 := OUTSIDE] && s'.tables.folderKeys == KEY && s'.tables.processed == Ops4()
            && s'.tables.devices == DEVICES && s'.tables.users == {1, 2} && s'.tables.shares == map[] && s'.clock == 0
    ensures Allowed(TrashedState(), PURGE)
  {
    PurgedTrash(TrashedState().tables);
  }

  lemma CreateEvent(s: State, c: CreateInput)
    requires CreateTx(s.tables, c, 0).Ok? && s.clock == 0
    ensures Step(CONFIG, s, Event(0, OnNodes(CreateNode(c)))) == s.(tables := CreateTx(s.tables, c, 0).value.tables)
    ensures AllowedBut(NewNodeIds, s, Event(0, OnNodes(CreateNode(c))))
    ensures Allowed(s, Event(0, OnNodes(CreateNode(c)))) <==> forall k | k in s.tables.folderKeys.Keys :: k.0 != c.id
  {
  }

  lemma ReuseTx(t: Tables)
    requires t.nodes == map[8 := OUTSIDE] && t.folderKeys == KEY && t.processed == Ops4() && t.devices == DEVICES
    ensures CreateTx(t, REUSE.action.node.create, 0).Ok?
    ensures var t' := CreateTx(t, REUSE.action.node.create, 0).value.tables;
            && 7 in t'.nodes && t'.nodes[7].owner == 2 && t'.nodes[7].kind == File
            && t'.folderKeys == KEY && 8 in t'.nodes && t'.nodes[8] == OUTSIDE
  {
    assert ActiveDevice(t.devices, 2, 4);
  }

  lemma ReuseStep(s: State)
    requires s.tables.nodes == map[8 := OUTSIDE] && s.tables.folderKeys == KEY && s.tables.processed == Ops4()
    requires s.tables.devices == DEVICES && s.clock == 0
    ensures AllowedBut(NewNodeIds, s, REUSE) && !Meets(NewNodeIds, s, REUSE)
    ensures var t' := Step(CONFIG, s, REUSE).tables;
            && 7 in t'.nodes && t'.nodes[7].owner == 2 && t'.nodes[7].kind == File
            && t'.folderKeys == KEY && 8 in t'.nodes && t'.nodes[8] == OUTSIDE
  {
    assert (7, 1) in s.tables.folderKeys.Keys;
    ReuseTx(s.tables);
    CreateEvent(s, REUSE.action.node.create);
  }

  lemma MakeReached(bad: nat, es: seq<Event>)
    requires Reaches(NewNodeIds, bad, es, Start()) && |es| != bad
    ensures Reaches(NewNodeIds, bad, es + [MAKE], MadeState())
  {
    MakeStep();
    Extend(NewNodeIds, bad, es, Start(), MAKE, MadeState());
  }

  lemma KeyReached(bad: nat, es: seq<Event>)
    requires Reaches(NewNodeIds, bad, es, MadeState()) && |es| != bad
    ensures Reaches(NewNodeIds, bad, es + [ADD_KEY], KeyedState())
  {
    KeyStep();
    Extend(NewNodeIds, bad, es, MadeState(), ADD_KEY, KeyedState());
  }

  lemma FillReached(bad: nat, es: seq<Event>)
    requires Reaches(NewNodeIds, bad, es, KeyedState()) && |es| != bad
    ensures Reaches(NewNodeIds, bad, es + [FILL], FilledState())
  {
    FillStep();
    Extend(NewNodeIds, bad, es, KeyedState(), FILL, FilledState());
  }

  lemma MoveReached(bad: nat, es: seq<Event>)
    requires Reaches(NewNodeIds, bad, es, FilledState()) && |es| != bad
    ensures Reaches(NewNodeIds, bad, es + [MOVE_OUT], MovedState())
  {
    MoveStep();
    Extend(NewNodeIds, bad, es, FilledState(), MOVE_OUT, MovedState());
  }

  lemma TrashReached(bad: nat, es: seq<Event>)
    requires Reaches(NewNodeIds, bad, es, MovedState()) && |es| != bad
    ensures Reaches(NewNodeIds, bad, es + [TRASH], TrashedState())
  {
    TrashStep();
    Extend(NewNodeIds, bad, es, MovedState(), TRASH, TrashedState());
  }

  lemma ReachesTrashed(bad: nat)
    requires bad >= 6
    ensures Reaches(NewNodeIds, bad, [] + [MAKE] + [ADD_KEY] + [FILL] + [MOVE_OUT] + [TRASH], TrashedState())
  {
    MakeReached(bad, []);
    KeyReached(bad, [] + [MAKE]);
    FillReached(bad, [] + [MAKE] + [ADD_KEY]);
    MoveReached(bad, [] + [MAKE] + [ADD_KEY] + [FILL]);
    TrashReached(bad, [] + [MAKE] + [ADD_KEY] + [FILL] + [MOVE_OUT]);
  }

  lemma ReachesPurged(bad: nat, s: State)
    requires bad >= 6 && s == Step(CONFIG, TrashedState(), PURGE)
    ensures Reaches(NewNodeIds, bad, [] + [MAKE] + [ADD_KEY] + [FILL] + [MOVE_OUT] + [TRASH] + [PURGE], s)
  {
    ReachesTrashed(bad);
    PurgeStep();
    Extend(NewNodeIds, bad, [] + [MAKE] + [ADD_KEY] + [FILL] + [MOVE_OUT] + [TRASH], TrashedState(), PURGE, s);
  }

  /** A file is created in a keyed folder and moved out; the folder is deleted and purged, and its
      key is kept for the file; then another user creates a file under the folder's ID. The key
      that the first user's file needs now belongs to the ID of a stranger's file. Only that
      creation breaks an assumption, and only that one. */
  lemma RetainedKeyReused()
    ensures var es := [] + [MAKE] + [ADD_KEY] + [FILL] + [MOVE_OUT] + [TRASH] + [PURGE] + [REUSE];
            var t := Run(CONFIG, Start(), es).tables;
            && RunBut(NewNodeIds, 6, es) && es[6] == REUSE && !KeyScopesOk(t)
            && 8 in t.nodes && t.nodes[8].metadataScope == Some(7) && 7 in t.nodes
            && t.nodes[7].owner != t.nodes[8].owner
  {
    var s := Step(CONFIG, TrashedState(), PURGE);
    PurgeStep();
    ReachesPurged(6, s);
    ReuseStep(s);
    var es := [] + [MAKE] + [ADD_KEY] + [FILL] + [MOVE_OUT] + [TRASH] + [PURGE];
    Extend(NewNodeIds, 6, es, s, REUSE, Step(CONFIG, s, REUSE));
    assert (7, 1) in Step(CONFIG, s, REUSE).tables.folderKeys;
  }
}
