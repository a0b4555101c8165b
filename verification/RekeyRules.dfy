/** Exactly when a rekey batch is accepted, what each row holds afterwards, and what is answered,
    stated on rows and numbers alone. */
module RekeyRules {
  import opened Common
  import opened Schema
  import opened Nodes
  import opened NodeRules

  // ---------------------------------------------------------------- acceptance

  /** The owner keeps its own key or names one of its folder keys. */
  ghost predicate OwnKeyAccepted(t: Tables, actor: Id, scope: Id, version: int) {
    KeyAccepted(t.folderKeys, actor, actor, None, scope, version)
  }

  ghost predicate VersionAccepted(t: Tables, actor: Id, node: Id, v: RekeyVersion) {
    OwnKeyAccepted(t, actor, v.scope, v.version) && v.id in t.versions && t.versions[v.id].node == node
  }

  ghost predicate RowAccepted(t: Tables, actor: Id, i: RekeyItem) {
    && i.node in t.nodes && t.nodes[i.node].owner == actor && t.nodes[i.node].revision == i.expected
    && OwnKeyAccepted(t, actor, i.scope, i.keyVersion)
  }

  ghost predicate ItemAccepted(t: Tables, actor: Id, i: RekeyItem) {
    RowAccepted(t, actor, i) && forall m :: 0 <= m < |i.versions| ==> VersionAccepted(t, actor, i.node, i.versions[m])
  }

  predicate BatchFits(items: seq<RekeyItem>) {
    && 1 <= |items| <= 200
    && (forall j | 0 <= j < |items| ::
          && 1 <= |items[j].metadata| <= 131_072 && |items[j].versions| <= 256
          && forall m | 0 <= m < |items[j].versions| :: 1 <= |items[j].versions[m].wrappedKey| <= 1024)
    && (forall i, j | 0 <= i < j < |items| :: items[i].node != items[j].node)
  }

  ghost predicate MayRekey(t: Tables, k: RekeyInput) {
    && BatchFits(k.items) && OwnDevice(t, k.actor, k.device)
    && forall j :: 0 <= j < |k.items| ==> ItemAccepted(t, k.actor, k.items[j])
  }

  /** The error of the first version that is refused. */
  ghost predicate VersionsRefused(t: Tables, actor: Id, node: Id, vs: seq<RekeyVersion>, e: Error) {
    exists m: nat :: VersionRefusedAt(t, actor, node, vs, e, m)
  }

  ghost predicate VersionRefusedAt(t: Tables, actor: Id, node: Id, vs: seq<RekeyVersion>, e: Error, m: nat) {
    && m < |vs| && (forall l :: 0 <= l < m ==> VersionAccepted(t, actor, node, vs[l]))
    && !VersionAccepted(t, actor, node, vs[m])
    && e == if OwnKeyAccepted(t, actor, vs[m].scope, vs[m].version) then BadInput
            else KeyRefusal(t.folderKeys, actor, actor, None, vs[m].scope, vs[m].version)
  }

  ghost predicate ItemRefused(t: Tables, actor: Id, i: RekeyItem, e: Error) {
    if i.node !in t.nodes then e == NotFound
    else if t.nodes[i.node].owner != actor then e == Forbidden
    else if t.nodes[i.node].revision != i.expected then e == RevisionConflict
    else if !OwnKeyAccepted(t, actor, i.scope, i.keyVersion)
    then e == KeyRefusal(t.folderKeys, actor, actor, None, i.scope, i.keyVersion)
    else VersionsRefused(t, actor, i.node, i.versions, e)
  }

  /** The error of the first item that is refused. */
  ghost predicate BatchRefused(t: Tables, actor: Id, items: seq<RekeyItem>, e: Error) {
    exists j ::
      && 0 <= j < |items| && (forall l :: 0 <= l < j ==> ItemAccepted(t, actor, items[l]))
      && !ItemAccepted(t, actor, items[j]) && ItemRefused(t, actor, items[j], e)
  }

  /** Nothing that decides about a version differs. */
  ghost predicate SameVersions(t: Tables, t': Tables) {
    && t'.folderKeys == t.folderKeys && t'.versions.Keys == t.versions.Keys
    && forall v :: v in t.versions ==> t'.versions[v].node == t.versions[v].node
  }

  lemma {:induction false} RewrapAccepted(t: Tables, actor: Id, node: Id, vs: seq<RekeyVersion>)
    ensures Rewrapped(t, actor, actor, node, vs).Ok?
       <==> forall m :: 0 <= m < |vs| ==> VersionAccepted(t, actor, node, vs[m])
    ensures Rewrapped(t, actor, actor, node, vs).Err? ==>
              VersionsRefused(t, actor, node, vs, Rewrapped(t, actor, actor, node, vs).error)
    decreases |vs|
  {
    if vs != [] {
      var v := vs[0];
      KeyScopeDecides(t.folderKeys, actor, actor, None, v.scope, v.version);
      if VersionAccepted(t, actor, node, v) {
        var row := t.versions[v.id].(wrappedKey := v.wrappedKey, scope := v.scope, keyVersion := v.version);
        var t1 := t.(versions := t.versions[v.id := row]);
        RewrapAccepted(t1, actor, node, vs[1..]);
        LaterVersions(t, t1, actor, node, vs, Rewrapped(t, actor, actor, node, vs));
      } else {
        FirstVersionRefused(t, actor, node, vs);
      }
    }
  }

  lemma FirstVersionRefused(t: Tables, actor: Id, node: Id, vs: seq<RekeyVersion>)
    requires vs != [] && !VersionAccepted(t, actor, node, vs[0])
    ensures Rewrapped(t, actor, actor, node, vs).Err?
    ensures VersionsRefused(t, actor, node, vs, Rewrapped(t, actor, actor, node, vs).error)
  {
    KeyScopeDecides(t.folderKeys, actor, actor, None, vs[0].scope, vs[0].version);
    assert VersionRefusedAt(t, actor, node, vs, Rewrapped(t, actor, actor, node, vs).error, 0);
  }

  lemma LaterVersions(t: Tables, t1: Tables, actor: Id, node: Id, vs: seq<RekeyVersion>, r: Result<Tables>)
    requires SameVersions(t, t1) && vs != [] && VersionAccepted(t, actor, node, vs[0])
    requires r.Ok? <==> forall m :: 0 <= m < |vs[1..]| ==> VersionAccepted(t1, actor, node, vs[1..][m])
    requires r.Err? ==> VersionsRefused(t1, actor, node, vs[1..], r.error)
    ensures r.Ok? <==> forall m :: 0 <= m < |vs| ==> VersionAccepted(t, actor, node, vs[m])
    ensures r.Err? ==> VersionsRefused(t, actor, node, vs, r.error)
  {
    var rest := vs[1..];
    forall m | 0 < m < |vs|
      ensures vs[m] == rest[m - 1]
      ensures VersionAccepted(t, actor, node, vs[m]) <==> VersionAccepted(t1, actor, node, rest[m - 1])
    {
    }
    if r.Err? {
      var m: nat :| VersionRefusedAt(t1, actor, node, rest, r.error, m);
      assert vs[m + 1] == rest[m];
      forall l | 0 <= l < m + 1 ensures VersionAccepted(t, actor, node, vs[l]) {
        if l > 0 { assert VersionAccepted(t1, actor, node, rest[l - 1]); }
      }
      assert VersionRefusedAt(t, actor, node, vs, r.error, m + 1);
    } else {
      forall m | 0 <= m < |vs| ensures VersionAccepted(t, actor, node, vs[m]) {
        if m > 0 { assert VersionAccepted(t1, actor, node, rest[m - 1]); }
      }
    }
  }

  // ---------------------------------------------------------------- effect on versions

  /** Each version holds what is listed for it last, and keeps everything else. */
  ghost predicate VersionsRewrapped(vs: map<Id, Version>, vs': map<Id, Version>, list: seq<RekeyVersion>) {
    && vs'.Keys == vs.Keys
    && (forall m ::
          0 <= m < |list| && list[m].id in vs && (forall l :: m < l < |list| ==> list[l].id != list[m].id) ==>
            vs'[list[m].id] == vs[list[m].id].(wrappedKey := list[m].wrappedKey, scope := list[m].scope,
                                               keyVersion := list[m].version))
    && (forall x :: x in vs && (forall m :: 0 <= m < |list| ==> list[m].id != x) ==> vs'[x] == vs[x])
  }

  lemma {:induction false} RewrapEffect(t: Tables, actor: Id, node: Id, vs: seq<RekeyVersion>)
    requires Rewrapped(t, actor, actor, node, vs).Ok?
    ensures var t' := Rewrapped(t, actor, actor, node, vs).value;
            && t' == t.(versions := t'.versions) && VersionsRewrapped(t.versions, t'.versions, vs)
            && forall x :: x in t.versions ==> t'.versions[x].node == t.versions[x].node
    decreases |vs|
  {
    if vs != [] {
      var v := vs[0];
      var row := t.versions[v.id].(wrappedKey := v.wrappedKey, scope := v.scope, keyVersion := v.version);
      var t1 := t.(versions := t.versions[v.id := row]);
      RewrapEffect(t1, actor, node, vs[1..]);
      RewrapStep(t.versions, t1.versions, Rewrapped(t, actor, actor, node, vs).value.versions, vs);
    }
  }

  lemma RewrapStep(rows: map<Id, Version>, one: map<Id, Version>, all: map<Id, Version>, vs: seq<RekeyVersion>)
    requires vs != [] && vs[0].id in rows
    requires one == rows[vs[0].id := rows[vs[0].id].(wrappedKey := vs[0].wrappedKey, scope := vs[0].scope,
                                                     keyVersion := vs[0].version)]
    requires VersionsRewrapped(one, all, vs[1..])
    ensures VersionsRewrapped(rows, all, vs)
  {
    var rest := vs[1..];
    assert forall m :: 0 < m < |vs| ==> vs[m] == rest[m - 1];
    forall m | 0 <= m < |vs| && vs[m].id in rows && (forall l :: m < l < |vs| ==> vs[l].id != vs[m].id)
      ensures all[vs[m].id] == rows[vs[m].id].(wrappedKey := vs[m].wrappedKey, scope := vs[m].scope,
                                               keyVersion := vs[m].version)
    {
      if m == 0 {
        forall l | 0 <= l < |rest| ensures rest[l].id != vs[0].id { assert rest[l] == vs[l + 1]; }
      } else {
        forall l | m - 1 < l < |rest| ensures rest[l].id != rest[m - 1].id { assert rest[l] == vs[l + 1]; }
      }
    }
    forall x | x in rows && (forall m :: 0 <= m < |vs| ==> vs[m].id != x) ensures all[x] == rows[x] {
      forall m | 0 <= m < |rest| ensures rest[m].id != x { assert rest[m] == vs[m + 1]; }
    }
  }

  // ---------------------------------------------------------------- effect of a batch

  /** The fields of a rekeyed node. */
  ghost predicate RekeyedRow(n: Node, n': Node, i: RekeyItem, revision: nat, now: Time) {
    && n'.metadata == i.metadata && n'.metadataKeyVersion == i.keyVersion
    && n'.metadataScope == (if i.scope == n.owner then None else Some(i.scope))
    && n'.owner == n.owner && n'.parent == n.parent && n'.kind == n.kind && n'.current == n.current
    && n'.createdAt == n.createdAt && n'.deletedAt == n.deletedAt && n'.revision == revision && n'.updatedAt == now
  }

  ghost predicate NodesRekeyed(ns: map<Id, Node>, ns': map<Id, Node>, items: seq<RekeyItem>, last: nat, now: Time) {
    && ns'.Keys == ns.Keys
    && (forall j :: 0 <= j < |items| && items[j].node in ns ==>
          RekeyedRow(ns[items[j].node], ns'[items[j].node], items[j], last + j + 1, now))
    && (forall x :: x in ns && (forall j :: 0 <= j < |items| ==> items[j].node != x) ==> ns'[x] == ns[x])
  }

  function OfNode(vs: map<Id, Version>, node: Id): map<Id, Version> {
    map v | v in vs && vs[v].node == node :: vs[v]
  }

  /** The versions of each listed node are rewrapped by its item alone, all others kept. */
  ghost predicate BatchRewrapped(vs: map<Id, Version>, vs': map<Id, Version>, items: seq<RekeyItem>) {
    && vs'.Keys == vs.Keys
    && (forall v :: v in vs ==> vs'[v].node == vs[v].node)
    && (forall j :: 0 <= j < |items| ==>
          VersionsRewrapped(OfNode(vs, items[j].node), OfNode(vs', items[j].node), items[j].versions))
    && (forall v :: v in vs && (forall j :: 0 <= j < |items| ==> items[j].node != vs[v].node) ==> vs'[v] == vs[v])
  }

  ghost predicate LogExtended(log: seq<Change>, log': seq<Change>, actor: Id, items: seq<RekeyItem>, now: Time) {
    && |log'| == |log| + |items| && log <= log'
    && forall j :: 0 <= j < |items| ==> log'[|log| + j] == Change(actor, items[j].node, Updated, now)
  }

  ghost predicate Rekeyed(t: Tables, t': Tables, actor: Id, items: seq<RekeyItem>, now: Time) {
    && t' == t.(nodes := t'.nodes, log := t'.log, versions := t'.versions)
    && NodesRekeyed(t.nodes, t'.nodes, items, |t.log|, now) && BatchRewrapped(t.versions, t'.versions, items)
    && LogExtended(t.log, t'.log, actor, items, now)
  }

  lemma OneItem(t: Tables, actor: Id, i: RekeyItem, now: Time)
    ensures RekeyOne(t, actor, i, now).Ok? <==> ItemAccepted(t, actor, i)
    ensures RekeyOne(t, actor, i, now).Err? ==> ItemRefused(t, actor, i, RekeyOne(t, actor, i, now).error)
    ensures RekeyOne(t, actor, i, now).Ok? ==> Rekeyed(t, RekeyOne(t, actor, i, now).value, actor, [i], now)
  {
    KeyScopeDecides(t.folderKeys, actor, actor, None, i.scope, i.keyVersion);
    if RowAccepted(t, actor, i) {
      RewrapAccepted(t, actor, i.node, i.versions);
      if RekeyOne(t, actor, i, now).Ok? { OneEffect(t, actor, i, now); }
    }
  }

  lemma OneEffect(t: Tables, actor: Id, i: RekeyItem, now: Time)
    requires RekeyOne(t, actor, i, now).Ok? && ItemAccepted(t, actor, i)
    ensures Rekeyed(t, RekeyOne(t, actor, i, now).value, actor, [i], now)
  {
    var t1 := Rewrapped(t, actor, actor, i.node, i.versions).value;
    assert Rekeyed(t, OneWritten(t, t1, actor, i, now), actor, [i], now) by {
      RewrapEffect(t, actor, i.node, i.versions);
      OneNodeRewrapped(t.versions, t1.versions, i, t, actor);
      OneNodeWritten(t, t1, actor, i, now);
    }
    assert RekeyOne(t, actor, i, now).value == OneWritten(t, t1, actor, i, now);
  }

  /** The statements of one item after its versions. */
  ghost function OneWritten(t: Tables, t1: Tables, actor: Id, i: RekeyItem, now: Time): Tables
    requires i.node in t.nodes
  {
    var t2 := Logged(t1, actor, i.node, Updated, now);
    WithNode(t2, i.node, RekeyedNode(t.nodes[i.node], i, |t2.log|, now))
  }

  lemma OneNodeWritten(t: Tables, t1: Tables, actor: Id, i: RekeyItem, now: Time)
    requires RowAccepted(t, actor, i) && t1 == t.(versions := t1.versions)
    requires BatchRewrapped(t.versions, t1.versions, [i])
    ensures Rekeyed(t, OneWritten(t, t1, actor, i, now), actor, [i], now)
  {
    assert [i][0] == i;
  }

  lemma OneNodeRewrapped(vs: map<Id, Version>, vs': map<Id, Version>, i: RekeyItem, t: Tables, actor: Id)
    requires vs == t.versions && ItemAccepted(t, actor, i)
    requires VersionsRewrapped(vs, vs', i.versions) && forall x :: x in vs ==> vs'[x].node == vs[x].node
    ensures BatchRewrapped(vs, vs', [i])
  {
    assert [i][0] == i;
    forall m | 0 <= m < |i.versions| ensures i.versions[m].id in vs && vs[i.versions[m].id].node == i.node {
      assert VersionAccepted(t, actor, i.node, i.versions[m]);
    }
    assert VersionsRewrapped(OfNode(vs, i.node), OfNode(vs', i.node), i.versions);
  }

  lemma SamePart(vs: map<Id, Version>, vs': map<Id, Version>, node: Id)
    requires vs'.Keys == vs.Keys && forall v :: v in vs ==> vs'[v].node == vs[v].node
    requires forall v :: v in vs && vs[v].node == node ==> vs'[v] == vs[v]
    ensures OfNode(vs', node) == OfNode(vs, node)
  {
  }

  lemma {:induction false} RekeyAccepted(t: Tables, actor: Id, items: seq<RekeyItem>, now: Time)
    requires forall i, j :: 0 <= i < j < |items| ==> items[i].node != items[j].node
    ensures RekeyAll(t, actor, items, now).Ok? <==> forall j :: 0 <= j < |items| ==> ItemAccepted(t, actor, items[j])
    ensures RekeyAll(t, actor, items, now).Err? ==>
              BatchRefused(t, actor, items, RekeyAll(t, actor, items, now).error)
    decreases |items|
  {
    if items != [] {
      OneItem(t, actor, items[0], now);
      if ItemAccepted(t, actor, items[0]) {
        var t1 := RekeyOne(t, actor, items[0], now).value;
        RekeyAccepted(t1, actor, items[1..], now);
        LaterItems(t, t1, actor, items, RekeyAll(t, actor, items, now));
      } else {
        assert !ItemAccepted(t, actor, items[0]);
      }
    }
  }

  /** What decides about other nodes does not differ. */
  ghost predicate SameElsewhere(t: Tables, t1: Tables, x: Id) {
    && SameVersions(t, t1) && t1.nodes.Keys == t.nodes.Keys
    && forall y :: y in t.nodes && y != x ==> t1.nodes[y] == t.nodes[y]
  }

  lemma ItemElsewhere(t: Tables, t1: Tables, actor: Id, i: RekeyItem, x: Id, e: Error)
    requires SameElsewhere(t, t1, x) && i.node != x
    ensures ItemAccepted(t, actor, i) <==> ItemAccepted(t1, actor, i)
    ensures ItemRefused(t1, actor, i, e) ==> ItemRefused(t, actor, i, e)
  {
    VersionsElsewhere(t, t1, actor, i.node, i.versions, e);
  }

  lemma VersionsElsewhere(t: Tables, t1: Tables, actor: Id, node: Id, vs: seq<RekeyVersion>, e: Error)
    requires SameVersions(t, t1)
    ensures forall v :: VersionAccepted(t, actor, node, v) <==> VersionAccepted(t1, actor, node, v)
    ensures VersionsRefused(t1, actor, node, vs, e) ==> VersionsRefused(t, actor, node, vs, e)
  {
    if VersionsRefused(t1, actor, node, vs, e) {
      var m: nat :| VersionRefusedAt(t1, actor, node, vs, e, m);
      assert VersionRefusedAt(t, actor, node, vs, e, m);
    }
  }

  lemma LaterItems(t: Tables, t1: Tables, actor: Id, items: seq<RekeyItem>, r: Result<Tables>)
    requires items != [] && SameElsewhere(t, t1, items[0].node) && ItemAccepted(t, actor, items[0])
    requires forall i, j :: 0 <= i < j < |items| ==> items[i].node != items[j].node
    requires r.Ok? <==> forall j :: 0 <= j < |items[1..]| ==> ItemAccepted(t1, actor, items[1..][j])
    requires r.Err? ==> BatchRefused(t1, actor, items[1..], r.error)
    ensures r.Ok? <==> forall j :: 0 <= j < |items| ==> ItemAccepted(t, actor, items[j])
    ensures r.Err? ==> BatchRefused(t, actor, items, r.error)
  {
    var rest := items[1..];
    var e := if r.Err? then r.error else BadInput;
    assert forall j :: 0 < j < |items| ==> items[j] == rest[j - 1];
    forall j | 0 < j < |items|
      ensures ItemAccepted(t, actor, items[j]) <==> ItemAccepted(t1, actor, rest[j - 1])
      ensures ItemRefused(t1, actor, rest[j - 1], e) ==> ItemRefused(t, actor, items[j], e)
    {
      ItemElsewhere(t, t1, actor, items[j], items[0].node, e);
    }
    if r.Err? {
      var j :| && 0 <= j < |rest| && (forall l :: 0 <= l < j ==> ItemAccepted(t1, actor, rest[l]))
               && !ItemAccepted(t1, actor, rest[j]) && ItemRefused(t1, actor, rest[j], e);
      assert items[j + 1] == rest[j];
      forall l | 0 <= l < j + 1 ensures ItemAccepted(t, actor, items[l]) {
        if l > 0 { assert ItemAccepted(t1, actor, rest[l - 1]); }
      }
    } else {
      forall j | 0 <= j < |items| ensures ItemAccepted(t, actor, items[j]) {
        if j > 0 { assert ItemAccepted(t1, actor, rest[j - 1]); }
      }
    }
  }

  lemma {:induction false} RekeyEffect(t: Tables, actor: Id, items: seq<RekeyItem>, now: Time)
    requires RekeyAll(t, actor, items, now).Ok?
    requires forall i, j :: 0 <= i < j < |items| ==> items[i].node != items[j].node
    ensures Rekeyed(t, RekeyAll(t, actor, items, now).value, actor, items, now)
    decreases |items|
  {
    if items != [] {
      OneItem(t, actor, items[0], now);
      var t1, t' := RekeyOne(t, actor, items[0], now).value, RekeyAll(t, actor, items, now).value;
      RekeyEffect(t1, actor, items[1..], now);
      RekeyedStep(t, t1, t', actor, items, now);
    }
  }

  lemma RekeyedStep(t: Tables, t1: Tables, t': Tables, actor: Id, items: seq<RekeyItem>, now: Time)
    requires items != [] && forall i, j :: 0 <= i < j < |items| ==> items[i].node != items[j].node
    requires Rekeyed(t, t1, actor, [items[0]], now) && Rekeyed(t1, t', actor, items[1..], now)
    ensures Rekeyed(t, t', actor, items, now)
  {
    NodesStep(t.nodes, t1.nodes, t'.nodes, items, |t.log|, now);
    BatchStep(t.versions, t1.versions, t'.versions, items);
    LogStep(t.log, t1.log, t'.log, actor, items, now);
  }

  lemma NodesStep(ns: map<Id, Node>, one: map<Id, Node>, all: map<Id, Node>, items: seq<RekeyItem>, last: nat,
        now: Time)
    requires items != [] && forall i, j :: 0 <= i < j < |items| ==> items[i].node != items[j].node
    requires NodesRekeyed(ns, one, [items[0]], last, now) && NodesRekeyed(one, all, items[1..], last + 1, now)
    ensures NodesRekeyed(ns, all, items, last, now)
  {
    var rest := items[1..];
    assert [items[0]][0] == items[0];
    assert forall j :: 0 < j < |items| ==> items[j] == rest[j - 1];
    forall j | 0 <= j < |items| && items[j].node in ns
      ensures RekeyedRow(ns[items[j].node], all[items[j].node], items[j], last + j + 1, now)
    {
      if j == 0 {
        forall l | 0 <= l < |rest| ensures rest[l].node != items[0].node { assert rest[l] == items[l + 1]; }
      } else {
        assert RekeyedRow(one[rest[j - 1].node], all[rest[j - 1].node], rest[j - 1], last + 1 + (j - 1) + 1, now);
      }
    }
    forall x | x in ns && (forall j :: 0 <= j < |items| ==> items[j].node != x) ensures all[x] == ns[x] {
      forall l | 0 <= l < |rest| ensures rest[l].node != x { assert rest[l] == items[l + 1]; }
    }
  }

  lemma BatchStep(vs: map<Id, Version>, one: map<Id, Version>, all: map<Id, Version>, items: seq<RekeyItem>)
    requires items != [] && forall i, j :: 0 <= i < j < |items| ==> items[i].node != items[j].node
    requires BatchRewrapped(vs, one, [items[0]]) && BatchRewrapped(one, all, items[1..])
    ensures BatchRewrapped(vs, all, items)
  {
    forall j | 0 <= j < |items|
      ensures VersionsRewrapped(OfNode(vs, items[j].node), OfNode(all, items[j].node), items[j].versions)
    {
      PartStep(vs, one, all, items, j);
    }
    forall v | v in vs && (forall j :: 0 <= j < |items| ==> items[j].node != vs[v].node) ensures all[v] == vs[v] {
      assert [items[0]][0] == items[0];
      forall l | 0 <= l < |items[1..]| ensures items[1..][l].node != vs[v].node {
        assert items[1..][l] == items[l + 1];
      }
    }
  }

  lemma PartStep(vs: map<Id, Version>, one: map<Id, Version>, all: map<Id, Version>, items: seq<RekeyItem>, j: nat)
    requires j < |items| && forall i, j :: 0 <= i < j < |items| ==> items[i].node != items[j].node
    requires BatchRewrapped(vs, one, [items[0]]) && BatchRewrapped(one, all, items[1..])
    ensures VersionsRewrapped(OfNode(vs, items[j].node), OfNode(all, items[j].node), items[j].versions)
  {
    var x, rest := items[j].node, items[1..];
    if j == 0 {
      forall l | 0 <= l < |rest| ensures rest[l].node != x { assert rest[l] == items[l + 1]; }
      SamePart(one, all, x);
      assert [items[0]][0] == items[0];
    } else {
      assert rest[j - 1] == items[j];
      SamePart(vs, one, x);
    }
  }

  lemma LogStep(log: seq<Change>, one: seq<Change>, all: seq<Change>, actor: Id, items: seq<RekeyItem>, now: Time)
    requires items != []
    requires LogExtended(log, one, actor, [items[0]], now) && LogExtended(one, all, actor, items[1..], now)
    ensures LogExtended(log, all, actor, items, now)
  {
    forall j | 0 <= j < |items| ensures all[|log| + j] == Change(actor, items[j].node, Updated, now) {
      if j == 0 {
        assert one[|log|] == Change(actor, [items[0]][0].node, Updated, now);
      } else {
        assert all[|one| + (j - 1)] == Change(actor, items[1..][j - 1].node, Updated, now);
      }
    }
  }

  // ---------------------------------------------------------------- the request

  lemma BatchSizes(items: seq<RekeyItem>)
    ensures WellFormedBatch(items) <==> BatchFits(items)
  {
    assert forall j :: 0 <= j < |items| ==> items[j] in items;
    forall j, m | 0 <= j < |items| && 0 <= m < |items[j].versions|
      ensures items[j].versions[m] in items[j].versions
    {
    }
  }

  /** A batch is applied exactly under these conditions, and is otherwise refused by the first item,
      and in it the first field or version, that fails. */
  lemma BatchDecides(t: Tables, k: RekeyInput, now: Time)
    ensures RekeyTx(t, k, now).Ok? <==> MayRekey(t, k)
    ensures RekeyTx(t, k, now).Err? ==>
              var e := RekeyTx(t, k, now).error;
              if !BatchFits(k.items) then e == BadInput
              else if !OwnDevice(t, k.actor, k.device) then e == Forbidden
              else BatchRefused(t, k.actor, k.items, e)
  {
    BatchSizes(k.items);
    if BatchFits(k.items) { RekeyAccepted(t, k.actor, k.items, now); }
  }

  /** An applied batch gives each listed node exactly its item's metadata, key version and scope under
      one new revision each, each version what is listed for it last, and nothing else. */
  lemma BatchEffect(t: Tables, k: RekeyInput, now: Time)
    requires RekeyTx(t, k, now).Ok?
    ensures Rekeyed(t, RekeyTx(t, k, now).value.tables, k.actor, k.items, now)
  {
    BatchSizes(k.items);
    RekeyEffect(t, k.actor, k.items, now);
  }

  lemma {:induction false} OwnRowsRead(t: Tables, user: Id, items: seq<RekeyItem>)
    requires forall j :: 0 <= j < |items| ==> items[j].node in t.nodes && t.nodes[items[j].node].owner == user
    ensures RekeyReply(t, user, items).Ok?
    ensures var rows := RekeyReply(t, user, items).value;
            |rows| == |items| && forall j :: 0 <= j < |items| ==> rows[j] == t.nodes[items[j].node]
    decreases |items|
  {
    if items != [] { OwnRowsRead(t, user, items[1..]); }
  }

  /** It is answered with the rewritten rows in batch order. */
  lemma BatchAnswer(t: Tables, k: RekeyInput, now: Time)
    requires RekeyTx(t, k, now).Ok?
    ensures var t' := RekeyTx(t, k, now).value.tables;
            && RekeyReply(t', k.actor, k.items).Ok?
            && var rows := RekeyReply(t', k.actor, k.items).value;
               && |rows| == |k.items|
               && forall j :: 0 <= j < |rows| ==>
                    && k.items[j].node in t.nodes
                    && RekeyedRow(t.nodes[k.items[j].node], rows[j], k.items[j], |t.log| + j + 1, now)
  {
    BatchEffect(t, k, now);
    BatchDecides(t, k, now);
    forall j | 0 <= j < |k.items| ensures k.items[j].node in t.nodes && t.nodes[k.items[j].node].owner == k.actor {
      assert ItemAccepted(t, k.actor, k.items[j]);
    }
    OwnRowsRead(RekeyTx(t, k, now).value.tables, k.actor, k.items);
  }
}
