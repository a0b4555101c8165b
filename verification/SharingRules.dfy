/** Exactly when a sharing request is accepted, how it is refused, what each row holds afterwards,
    and what the owner reads back, stated on rows and numbers alone. */
module SharingRules {
  import opened Common
  import opened Schema
  import opened Forest
  import opened Access
  import opened Nodes
  import opened NodeRules
  import opened Sharing

  predicate OwnFolder(t: Tables, owner: Id, folder: Id) {
    LiveDirectory(t.nodes, folder) && t.nodes[folder].owner == owner
  }

  function FolderRefusal(t: Tables, owner: Id, folder: Id): Error {
    if folder in t.nodes && t.nodes[folder].owner == owner then BadInput else Forbidden
  }

  // ---------------------------------------------------------------- folder keys

  predicate KeyFits(f: FolderKeyInput) {
    f.version >= 1 && 1 <= |f.envelope| <= 4096
  }

  /** Every key of the folder is older. */
  ghost predicate NewerThanAll(keys: map<(Id, int), FolderKey>, folder: Id, version: int) {
    forall k :: k in keys && k.0 == folder ==> k.1 < version
  }

  /** It continues the folder's keys without a gap, from version 1. */
  ghost predicate Continues(keys: map<(Id, int), FolderKey>, folder: Id, version: int) {
    if exists k :: k in keys && k.0 == folder then (folder, version - 1) in keys else version == 1
  }

  /** A keyed folder at, above or below this one. */
  ghost predicate KeyedOnLine(t: Tables, folder: Id) {
    exists k :: k in t.folderKeys && k.0 in t.nodes && (Below(t.nodes, folder, k.0) || Below(t.nodes, k.0, folder))
  }

  ghost predicate MayAddKey(t: Tables, f: FolderKeyInput) {
    && KeyFits(f) && OwnDevice(t, f.owner, f.device) && OwnFolder(t, f.owner, f.folder)
    && if (f.folder, f.version) in t.folderKeys then t.folderKeys[(f.folder, f.version)].envelope == f.envelope
       else
         && NewerThanAll(t.folderKeys, f.folder, f.version) && Continues(t.folderKeys, f.folder, f.version)
         && (f.version == 1 ==> !KeyedOnLine(t, f.folder))
  }

  ghost function KeyAddRefusal(t: Tables, f: FolderKeyInput): Error {
    if !KeyFits(f) then BadInput
    else if !OwnDevice(t, f.owner, f.device) then Forbidden
    else if !OwnFolder(t, f.owner, f.folder) then FolderRefusal(t, f.owner, f.folder)
    else if (f.folder, f.version) in t.folderKeys || !NewerThanAll(t.folderKeys, f.folder, f.version) then KeyConflict
    else if !Continues(t.folderKeys, f.folder, f.version) then BadInput
    else NestedSharedFolder
  }

  lemma LatestDecides(keys: map<(Id, int), FolderKey>, folder: Id, version: int)
    requires version >= 1
    ensures version > LatestOf(keys, folder) <==> NewerThanAll(keys, folder, version)
    ensures version > LatestOf(keys, folder) ==>
              (version == LatestOf(keys, folder) + 1 <==> Continues(keys, folder, version))
  {
    if Keyed(keys, folder) {
      var k :| k in keys.Keys && k.0 == folder;
      assert k in keys;
    } else {
      assert forall k :: k in keys.Keys ==> k.0 != folder;
    }
  }

  lemma LineDecides(t: Tables, folder: Id)
    requires Rooted(t.nodes) && folder in t.nodes
    ensures ForbidNestedScope(t.nodes, t.folderKeys, folder)
         == if KeyedOnLine(t, folder) then Fail(NestedSharedFolder) else Pass
  {
    KeyedBelowExists(t.nodes, t.folderKeys, folder);
    match t.nodes[folder].parent
    case None =>
    case Some(p) =>
      ChainStep(t.nodes, folder, p);
      KeyedAboveExists(t.nodes, t.folderKeys, p);
  }

  lemma FolderKeyAccepted(t: Tables, f: FolderKeyInput)
    requires IsForest(t.nodes)
    ensures FolderKeyTx(t, f).Ok? <==> MayAddKey(t, f)
    ensures !MayAddKey(t, f) ==> FolderKeyTx(t, f) == Err(KeyAddRefusal(t, f))
  {
    if KeyFits(f) && OwnFolder(t, f.owner, f.folder) {
      LatestDecides(t.folderKeys, f.folder, f.version);
      LineDecides(t, f.folder);
    }
  }

  /** A key that is there already stays; a new one is stored, and nothing else. */
  lemma FolderKeyEffect(t: Tables, f: FolderKeyInput)
    requires FolderKeyTx(t, f).Ok?
    ensures var t', k := FolderKeyTx(t, f).value.tables, (f.folder, f.version);
            && t' == t.(folderKeys := t'.folderKeys)
            && t'.folderKeys == (if k in t.folderKeys then t.folderKeys
                                 else t.folderKeys[k := FolderKey(f.owner, f.envelope)])
            && t'.folderKeys[k].envelope == f.envelope
  {
  }

  // ---------------------------------------------------------------- envelopes

  predicate EnvelopesFit(es: seq<DeviceEnvelope>) {
    && 1 <= |es| <= 32
    && (forall i | 0 <= i < |es| ::
          && es[i].keyVersion >= 1 && 1 <= |es[i].ciphertext| <= 4096
          && |es[i].identityKey| == 32 && |es[i].signature| == 64)
    && (forall i, j | 0 <= i < j < |es| :: es[i].device != es[j].device || es[i].keyVersion != es[j].keyVersion)
  }

  lemma EnvelopeSizes(es: seq<DeviceEnvelope>)
    ensures ValidEnvelopes(es) <==> EnvelopesFit(es)
  {
    assert forall i :: 0 <= i < |es| ==> es[i] in es;
  }

  /** The envelope is for an active device of the recipient, under an existing key of the folder. */
  predicate Deliverable(t: Tables, folder: Id, target: Id, e: DeviceEnvelope) {
    OwnDevice(t, target, e.device) && (folder, e.keyVersion) in t.folderKeys
  }

  predicate AllDeliverable(t: Tables, folder: Id, target: Id, es: seq<DeviceEnvelope>) {
    forall i | 0 <= i < |es| :: Deliverable(t, folder, target, es[i])
  }

  /** The error of the first envelope that cannot be delivered. */
  ghost predicate DeliveryRefused(t: Tables, folder: Id, target: Id, es: seq<DeviceEnvelope>, e: Error) {
    exists m: nat :: RefusedAt(t, folder, target, es, e, m)
  }

  ghost predicate RefusedAt(t: Tables, folder: Id, target: Id, es: seq<DeviceEnvelope>, e: Error, m: nat) {
    && m < |es| && (forall i :: 0 <= i < m ==> Deliverable(t, folder, target, es[i]))
    && !Deliverable(t, folder, target, es[m])
    && e == if OwnDevice(t, target, es[m].device) then BadInput else TargetNotFound
  }

  lemma {:induction false} DeliveryDecides(t: Tables, folder: Id, target: Id, es: seq<DeviceEnvelope>)
    ensures EnvelopeTargets(t, folder, target, es).Pass? <==> AllDeliverable(t, folder, target, es)
    ensures EnvelopeTargets(t, folder, target, es).Fail? ==>
              DeliveryRefused(t, folder, target, es, EnvelopeTargets(t, folder, target, es).error)
  {
    assert forall i :: 0 <= i < |es| ==> es[i] in es;
    if es != [] {
      DeliveryDecides(t, folder, target, es[1..]);
      if Deliverable(t, folder, target, es[0]) {
        if EnvelopeTargets(t, folder, target, es[1..]).Fail? {
          RefusedLater(t, folder, target, es, EnvelopeTargets(t, folder, target, es[1..]).error);
        }
      } else {
        assert RefusedAt(t, folder, target, es, EnvelopeTargets(t, folder, target, es).error, 0);
      }
    }
  }

  lemma RefusedLater(t: Tables, folder: Id, target: Id, es: seq<DeviceEnvelope>, e: Error)
    requires es != [] && Deliverable(t, folder, target, es[0]) && DeliveryRefused(t, folder, target, es[1..], e)
    ensures DeliveryRefused(t, folder, target, es, e)
  {
    var rest := es[1..];
    var m: nat :| RefusedAt(t, folder, target, rest, e, m);
    assert es[m + 1] == rest[m];
    forall i | 0 <= i < m + 1 ensures Deliverable(t, folder, target, es[i]) {
      if i > 0 { assert rest[i - 1] == es[i]; }
    }
    assert RefusedAt(t, folder, target, es, e, m + 1);
  }

  ghost predicate ListedFor(es: seq<DeviceEnvelope>, sid: Id, k: (Id, Id, int)) {
    exists i :: 0 <= i < |es| && k == (sid, es[i].device, es[i].keyVersion)
  }

  /** The listed envelopes that had no row get one with their ciphertext; all other rows stay. */
  ghost predicate Delivered(rows: map<(Id, Id, int), Envelope>, rows': map<(Id, Id, int), Envelope>, sid: Id,
        es: seq<DeviceEnvelope>)
  {
    && (forall k :: k in rows ==> k in rows' && rows'[k] == rows[k])
    && (forall k :: k in rows' && k !in rows ==> ListedFor(es, sid, k))
    && (forall i :: 0 <= i < |es| ==>
          var k := (sid, es[i].device, es[i].keyVersion);
          k in rows' && (k !in rows ==> rows'[k] == Envelope(es[i].ciphertext, None)))
  }

  /** Of several envelopes for one device and key version the first is stored. */
  lemma {:induction false} FirstStored(rows: map<(Id, Id, int), Envelope>, sid: Id, es: seq<DeviceEnvelope>, i: nat)
    requires i < |es| && (sid, es[i].device, es[i].keyVersion) !in rows
    requires forall j :: 0 <= j < i ==> es[j].device != es[i].device || es[j].keyVersion != es[i].keyVersion
    ensures var k := (sid, es[i].device, es[i].keyVersion);
            k in Inserted(rows, sid, es) && Inserted(rows, sid, es)[k] == Envelope(es[i].ciphertext, None)
    decreases |es|
  {
    var k := (sid, es[0].device, es[0].keyVersion);
    var rows1 := if k in rows then rows else rows[k := Envelope(es[0].ciphertext, None)];
    assert Inserted(rows, sid, es) == Inserted(rows1, sid, es[1..]);
    if i > 0 {
      assert es[1..][i - 1] == es[i] && forall j :: 0 <= j < i - 1 ==> es[1..][j] == es[j + 1];
      FirstStored(rows1, sid, es[1..], i - 1);
    }
  }

  lemma InsertedDelivers(rows: map<(Id, Id, int), Envelope>, sid: Id, es: seq<DeviceEnvelope>)
    requires EnvelopesFit(es)
    ensures Delivered(rows, Inserted(rows, sid, es), sid, es)
  {
    var rows' := Inserted(rows, sid, es);
    forall i | 0 <= i < |es|
      ensures var k := (sid, es[i].device, es[i].keyVersion);
              k in rows' && (k !in rows ==> rows'[k] == Envelope(es[i].ciphertext, None))
    {
      assert es[i] in es;
      if (sid, es[i].device, es[i].keyVersion) !in rows { FirstStored(rows, sid, es, i); }
    }
    forall k | k in rows' && k !in rows ensures ListedFor(es, sid, k) {
      var e :| e in es && k == (sid, e.device, e.keyVersion);
      var i :| 0 <= i < |es| && es[i] == e;
    }
  }

  // ---------------------------------------------------------------- what the owner reads back

  predicate Readable(t: Tables, owner: Id, sid: Id) {
    sid in t.shares && t.shares[sid].owner == owner && t.shares[sid].revokedAt.None?
  }

  /** Exactly the envelopes of the share that are not revoked, with their ciphertexts. */
  ghost predicate ReadsExactly(t: Tables, sid: Id, o: Outgoing) {
    && sid in t.shares && o.share == t.shares[sid]
    && forall d, v ::
         && ((d, v) in o.envelopes <==> (sid, d, v) in t.envelopes && t.envelopes[(sid, d, v)].revokedAt.None?)
         && ((d, v) in o.envelopes ==> o.envelopes[(d, v)] == t.envelopes[(sid, d, v)].ciphertext)
  }

  lemma OutgoingExactly(t: Tables, owner: Id, sid: Id)
    ensures OutgoingShare(t, owner, sid).Ok? <==> Readable(t, owner, sid)
    ensures OutgoingShare(t, owner, sid).Err? ==> OutgoingShare(t, owner, sid).error == NotFound
    ensures OutgoingShare(t, owner, sid).Ok? ==> ReadsExactly(t, sid, OutgoingShare(t, owner, sid).value)
  {
    var live := LiveEnvelopes(t.envelopes, sid);
    forall d, v
      ensures (d, v) in live <==> (sid, d, v) in t.envelopes && t.envelopes[(sid, d, v)].revokedAt.None?
      ensures (d, v) in live ==> live[(d, v)] == t.envelopes[(sid, d, v)].ciphertext
    {
      if (sid, d, v) in t.envelopes && t.envelopes[(sid, d, v)].revokedAt.None? {
        assert ((sid, d, v).1, (sid, d, v).2) in live;
      }
    }
  }

  /** Every envelope sent that had no row before is read back with the ciphertext sent. */
  ghost predicate SentComeBack(t: Tables, o: Outgoing, sid: Id, es: seq<DeviceEnvelope>) {
    forall i :: 0 <= i < |es| && (sid, es[i].device, es[i].keyVersion) !in t.envelopes ==>
      && (es[i].device, es[i].keyVersion) in o.envelopes
      && o.envelopes[(es[i].device, es[i].keyVersion)] == es[i].ciphertext
  }

  lemma DeliveredComesBack(t: Tables, t': Tables, o: Outgoing, sid: Id, es: seq<DeviceEnvelope>)
    requires Delivered(t.envelopes, t'.envelopes, sid, es) && ReadsExactly(t', sid, o)
    ensures SentComeBack(t, o, sid, es)
  {
  }

  // ---------------------------------------------------------------- grants

  predicate AlreadyShares(t: Tables, node: Id, target: Id) {
    exists s | s in t.shares.Keys :: t.shares[s].node == node && t.shares[s].target == target
      && t.shares[s].revokedAt.None?
  }

  predicate MayGrant(t: Tables, g: GrantInput, sid: Id) {
    && g.owner != g.target && EnvelopesFit(g.envelopes) && OwnDevice(t, g.owner, g.device)
    && OwnFolder(t, g.owner, g.node) && g.target in t.users && !AlreadyShares(t, g.node, g.target)
    && AllDeliverable(t, g.node, g.target, g.envelopes) && sid !in t.shares
  }

  ghost predicate GrantRefused(t: Tables, g: GrantInput, e: Error) {
    if g.owner == g.target || !EnvelopesFit(g.envelopes) then e == BadInput
    else if !OwnDevice(t, g.owner, g.device) then e == Forbidden
    else if !OwnFolder(t, g.owner, g.node) then e == FolderRefusal(t, g.owner, g.node)
    else if g.target !in t.users then e == TargetNotFound
    else if AlreadyShares(t, g.node, g.target) then e == AlreadyShared
    else if !AllDeliverable(t, g.node, g.target, g.envelopes)
    then DeliveryRefused(t, g.node, g.target, g.envelopes, e)
    else e == AlreadyShared
  }

  lemma ActiveDecides(t: Tables, node: Id, target: Id)
    ensures AlreadyActive(t.shares, node, target) <==> AlreadyShares(t, node, target)
  {
    if AlreadyShares(t, node, target) {
      var s :| s in t.shares.Keys && t.shares[s].node == node && t.shares[s].target == target
               && t.shares[s].revokedAt.None?;
      assert ActiveFor(t.shares, s, target, node);
    }
    if AlreadyActive(t.shares, node, target) {
      assert ShareOn(t.shares, target, node).value in t.shares.Keys;
    }
  }

  lemma GrantAccepted(t: Tables, g: GrantInput, sid: Id, now: Time)
    requires g.operation !in t.processed
    ensures GrantTx(t, g, sid, now).Ok? <==> MayGrant(t, g, sid)
    ensures GrantTx(t, g, sid, now).Err? ==> GrantRefused(t, g, GrantTx(t, g, sid, now).error)
  {
    EnvelopeSizes(g.envelopes);
    ActiveDecides(t, g.node, g.target);
    DeliveryDecides(t, g.node, g.target, g.envelopes);
  }

  ghost predicate Granted(t: Tables, t': Tables, g: GrantInput, sid: Id, now: Time) {
    && t' == t.(shares := t'.shares, envelopes := t'.envelopes, processed := t'.processed)
    && t'.shares == t.shares[sid := Share(g.node, g.owner, g.target, g.permission, None)]
    && t'.processed == t.processed[
         g.operation := Processed(g.owner, g.device, ShareCreate, sid, now + THIRTY_DAYS)]
    && Delivered(t.envelopes, t'.envelopes, sid, g.envelopes)
  }

  /** The statements of a grant once everything is checked. */
  ghost function GrantRows(t: Tables, g: GrantInput, sid: Id, now: Time): Tables {
    var t1 := t.(shares := t.shares[sid := Share(g.node, g.owner, g.target, g.permission, None)]);
    var t2 := t1.(envelopes := Inserted(t1.envelopes, sid, g.envelopes));
    Recorded(t2, g.operation, g.owner, g.device, ShareCreate, sid, now)
  }

  lemma GrantStatements(t: Tables, g: GrantInput, sid: Id, now: Time)
    requires EnvelopesFit(g.envelopes)
    ensures Granted(t, GrantRows(t, g, sid, now), g, sid, now)
  {
    InsertedDelivers(t.envelopes, sid, g.envelopes);
  }

  lemma GrantStored(t: Tables, g: GrantInput, sid: Id, now: Time)
    requires GrantTx(t, g, sid, now).Ok? && g.operation !in t.processed
    ensures GrantTx(t, g, sid, now) == Ok(Committed(GrantRows(t, g, sid, now), sid))
  {
  }

  /** One share row, the sent envelopes and the operation record; nothing else. */
  lemma GrantEffect(t: Tables, g: GrantInput, sid: Id, now: Time)
    requires GrantTx(t, g, sid, now).Ok? && g.operation !in t.processed
    ensures Granted(t, GrantTx(t, g, sid, now).value.tables, g, sid, now) && GrantTx(t, g, sid, now).value.value == sid
  {
    GrantAccepted(t, g, sid, now);
    GrantStored(t, g, sid, now);
    GrantStatements(t, g, sid, now);
  }

  /** The owner reads back the new share, with the ciphertexts sent. */
  lemma GrantAnswer(t: Tables, g: GrantInput, sid: Id, now: Time)
    requires GrantTx(t, g, sid, now).Ok? && g.operation !in t.processed
    ensures var t' := GrantTx(t, g, sid, now).value.tables;
            && OutgoingShare(t', g.owner, sid).Ok?
            && var o := OutgoingShare(t', g.owner, sid).value;
               && o.share == Share(g.node, g.owner, g.target, g.permission, None)
               && ReadsExactly(t', sid, o) && SentComeBack(t, o, sid, g.envelopes)
  {
    var t' := GrantTx(t, g, sid, now).value.tables;
    GrantEffect(t, g, sid, now);
    OutgoingExactly(t', g.owner, sid);
    DeliveredComesBack(t, t', OutgoingShare(t', g.owner, sid).value, sid, g.envelopes);
  }

  /** A recorded grant is answered from its record, and only to the same owner and device. */
  lemma GrantRecorded(t: Tables, g: GrantInput, sid: Id, now: Time)
    requires g.operation in t.processed && g.owner != g.target && EnvelopesFit(g.envelopes)
    ensures var p := t.processed[g.operation];
            GrantTx(t, g, sid, now)
              == if p.user == g.owner && p.device == g.device && p.mutation == ShareCreate
                 then Ok(Committed(t, p.subject)) else Err(OperationReused)
  {
    EnvelopeSizes(g.envelopes);
  }

  // ---------------------------------------------------------------- delivering more envelopes

  predicate MayDeliver(t: Tables, owner: Id, device: Id, sid: Id, es: seq<DeviceEnvelope>) {
    && EnvelopesFit(es) && OwnDevice(t, owner, device) && Readable(t, owner, sid)
    && AllDeliverable(t, t.shares[sid].node, t.shares[sid].target, es)
  }

  lemma DeliveryAccepted(t: Tables, owner: Id, device: Id, sid: Id, es: seq<DeviceEnvelope>)
    ensures AddEnvelopesTx(t, owner, device, sid, es).Ok? <==> MayDeliver(t, owner, device, sid, es)
    ensures AddEnvelopesTx(t, owner, device, sid, es).Err? ==>
              var e := AddEnvelopesTx(t, owner, device, sid, es).error;
              if !EnvelopesFit(es) then e == BadInput
              else if !OwnDevice(t, owner, device) then e == Forbidden
              else if !Readable(t, owner, sid) then e == NotFound
              else DeliveryRefused(t, t.shares[sid].node, t.shares[sid].target, es, e)
  {
    EnvelopeSizes(es);
    if sid in t.shares { DeliveryDecides(t, t.shares[sid].node, t.shares[sid].target, es); }
  }

  lemma DeliveryEffect(t: Tables, owner: Id, device: Id, sid: Id, es: seq<DeviceEnvelope>)
    requires AddEnvelopesTx(t, owner, device, sid, es).Ok?
    ensures var t' := AddEnvelopesTx(t, owner, device, sid, es).value.tables;
            && t' == t.(envelopes := t'.envelopes) && Delivered(t.envelopes, t'.envelopes, sid, es)
            && OutgoingShare(t', owner, sid).Ok?
            && var o := OutgoingShare(t', owner, sid).value;
               ReadsExactly(t', sid, o) && SentComeBack(t, o, sid, es)
  {
    var t' := AddEnvelopesTx(t, owner, device, sid, es).value.tables;
    EnvelopeSizes(es);
    InsertedDelivers(t.envelopes, sid, es);
    OutgoingExactly(t', owner, sid);
    DeliveredComesBack(t, t', OutgoingShare(t', owner, sid).value, sid, es);
  }

  // ---------------------------------------------------------------- revocation

  lemma RevokeAccepted(t: Tables, owner: Id, device: Id, sid: Id, now: Time)
    ensures RevokeTx(t, owner, device, sid, now).Ok? <==>
              OwnDevice(t, owner, device) && sid in t.shares && t.shares[sid].owner == owner
    ensures RevokeTx(t, owner, device, sid, now).Err? ==>
              RevokeTx(t, owner, device, sid, now).error == if OwnDevice(t, owner, device) then NotFound else Forbidden
  {
  }

  /** The share and each of its envelopes are revoked, at their first revocation; the rows of all
      other shares, and everything else, stay. */
  lemma RevokeEffect(t: Tables, owner: Id, device: Id, sid: Id, now: Time)
    requires RevokeTx(t, owner, device, sid, now).Ok?
    ensures var t', first := RevokeTx(t, owner, device, sid, now).value.tables, t.shares[sid].revokedAt.None?;
            && (!first ==> t' == t)
            && t' == t.(shares := t'.shares, envelopes := t'.envelopes)
            && t'.shares == t.shares[sid := t'.shares[sid]]
            && (first ==> t'.shares[sid] == t.shares[sid].(revokedAt := Some(now)))
            && t'.envelopes.Keys == t.envelopes.Keys
            && (forall k :: k in t.envelopes && k.0 != sid ==> t'.envelopes[k] == t.envelopes[k])
            && (first ==> forall k :: k in t.envelopes && k.0 == sid ==>
                  t'.envelopes[k] == if t.envelopes[k].revokedAt.Some? then t.envelopes[k]
                                     else t.envelopes[k].(revokedAt := Some(now)))
  {
    assert t.shares == t.shares[sid := t.shares[sid]];
  }

  /** Afterwards nobody reads the share, and every other share reads as before. */
  lemma RevokedReads(t: Tables, owner: Id, device: Id, sid: Id, now: Time, other: Id, user: Id)
    requires RevokeTx(t, owner, device, sid, now).Ok?
    ensures var t' := RevokeTx(t, owner, device, sid, now).value.tables;
            && OutgoingShare(t', user, sid) == Err(NotFound)
            && (t.shares[sid].revokedAt.None? ==> LiveEnvelopes(t'.envelopes, sid) == map[])
            && (other != sid ==> OutgoingShare(t', user, other) == OutgoingShare(t, user, other))
  {
    var t' := RevokeTx(t, owner, device, sid, now).value.tables;
    RevokeEffect(t, owner, device, sid, now);
    if other != sid { assert LiveEnvelopes(t'.envelopes, other) == LiveEnvelopes(t.envelopes, other); }
  }
}
