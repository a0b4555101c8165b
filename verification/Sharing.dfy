/** The sharing service: folder keys, grants, device envelopes and revocation. */
module Sharing {
  import opened Common
  import opened Schema
  import opened Access
  import opened Nodes

  const MAX_ENVELOPES: nat := 32
  const MAX_ENVELOPE_SIZE: nat := 4096
  const IDENTITY_KEY_LENGTH: nat := 32
  const SIGNATURE_LENGTH: nat := 64

  datatype DeviceEnvelope = DeviceEnvelope(device: Id, keyVersion: int, ciphertext: Bytes, identityKey: Bytes,
        signature: Bytes)

  function RequireOwnedFolder(ns: map<Id, Node>, owner: Id, folder: Id): Check {
    if folder !in ns || ns[folder].owner != owner then Fail(Forbidden)
    else Need(ns[folder].kind == Directory && ns[folder].deletedAt.None?, BadInput)
  }

  // ---------------------------------------------------------------- folder keys

  /** MAX(key_version) over a folder's keys, 0 when there is none. */
  function LatestOf(keys: map<(Id, int), FolderKey>, folder: Id): (v: int)
    ensures forall k :: k in keys && k.0 == folder ==> k.1 <= v
    ensures Keyed(keys, folder) ==> (folder, v) in keys
    ensures !Keyed(keys, folder) ==> v == 0
  {
    var versions: set<int> := set k | k in keys && k.0 == folder :: k.1;
    assert forall k :: k in keys && k.0 == folder ==> k.1 in versions;
    if versions == {} then 0 else MaxOf(versions)
  }

  /** A first key is refused when an ancestor or the subtree already has one. */
  function ForbidNestedScope(ns: map<Id, Node>, keys: map<(Id, int), FolderKey>, folder: Id): Check {
    if folder !in ns then Fail(MissingRow)
    else if ns[folder].parent.Some? && NearestKeyedFolder(ns, keys, ns[folder].parent.value).Some?
      then Fail(NestedSharedFolder)
    else Need(!SubtreeHasKeyedFolder(ns, keys, folder), NestedSharedFolder)
  }

  datatype FolderKeyInput = FolderKeyInput(owner: Id, device: Id, folder: Id, version: int, envelope: Bytes)

  function FolderKeyTx(t: Tables, f: FolderKeyInput): (r: Tx<()>)
    ensures r.Ok? ==> r.value.tables == t.(folderKeys := r.value.tables.folderKeys)
  {
    var key := (f.folder, f.version);
    :- Need(f.version >= 1 && 0 < |f.envelope| <= MAX_ENVELOPE_SIZE, BadInput);
    :- Need(ActiveDevice(t.devices, f.owner, f.device), Forbidden);
    :- RequireOwnedFolder(t.nodes, f.owner, f.folder);
    if key in t.folderKeys then
      :- Need(t.folderKeys[key].envelope == f.envelope, KeyConflict);
      Ok(Committed(t, ()))
    else
      var latest := LatestOf(t.folderKeys, f.folder);
      :- Need(f.version > latest, KeyConflict);
      :- Need(f.version == latest + 1, BadInput);
      :- if latest == 0 then ForbidNestedScope(t.nodes, t.folderKeys, f.folder) else Pass;
      Ok(Committed(t.(folderKeys := t.folderKeys[key := FolderKey(f.owner, f.envelope)]), ()))
  }

  method CreateFolderKey(db: Database, f: FolderKeyInput) returns (r: Result<()>)
    modifies db
    ensures db.tables == After(old(db.tables), FolderKeyTx(old(db.tables), f))
    ensures r == Answer(FolderKeyTx(old(db.tables), f))
  {
    var key := (f.folder, f.version);
    :- Need(f.version >= 1 && 0 < |f.envelope| <= MAX_ENVELOPE_SIZE, BadInput);
    :- Need(ActiveDevice(db.tables.devices, f.owner, f.device), Forbidden);
    :- RequireOwnedFolder(db.tables.nodes, f.owner, f.folder);
    if key in db.tables.folderKeys {
      if db.tables.folderKeys[key].envelope != f.envelope {
        return Err(KeyConflict);
      }
      return Ok(());
    }
    var latest := LatestOf(db.tables.folderKeys, f.folder);
    :- Need(f.version > latest, KeyConflict);
    :- Need(f.version == latest + 1, BadInput);
    if latest == 0 {
      var nested := ForbidNestedScope(db.tables.nodes, db.tables.folderKeys, f.folder);
      :- nested;
    }
    db.tables := db.tables.(folderKeys := db.tables.folderKeys[key := FolderKey(f.owner, f.envelope)]);
    r := Ok(());
  }

  // ---------------------------------------------------------------- envelopes

  predicate WellFormedEnvelope(e: DeviceEnvelope) {
    && e.keyVersion >= 1 && 0 < |e.ciphertext| <= MAX_ENVELOPE_SIZE
    && |e.identityKey| == IDENTITY_KEY_LENGTH && |e.signature| == SIGNATURE_LENGTH
  }

  predicate ValidEnvelopes(es: seq<DeviceEnvelope>) {
    && 0 < |es| <= MAX_ENVELOPES
    && (forall e | e in es :: WellFormedEnvelope(e))
    && (forall i, j | 0 <= i < j < |es| :: (es[i].device, es[i].keyVersion) != (es[j].device, es[j].keyVersion))
  }

  method CheckEnvelopes(es: seq<DeviceEnvelope>) returns (ok: bool)
    ensures ok == ValidEnvelopes(es)
  {
    if |es| == 0 || |es| > MAX_ENVELOPES {
      return false;
    }
    var seen: set<(Id, int)> := {};
    for i := 0 to |es|
      invariant forall k :: k in seen <==> exists j :: 0 <= j < i && (es[j].device, es[j].keyVersion) == k
      invariant forall j :: 0 <= j < i ==> WellFormedEnvelope(es[j])
      invariant forall j, k :: 0 <= j < k < i ==> (es[j].device, es[j].keyVersion) != (es[k].device, es[k].keyVersion)
    {
      var key := (es[i].device, es[i].keyVersion);
      if !WellFormedEnvelope(es[i]) || key in seen {
        return false;
      }
      seen := seen + {key};
    }
    ok := true;
  }

  /** Every envelope is for an active device of the recipient and an existing key version. */
  function EnvelopeTargets(t: Tables, folder: Id, target: Id, es: seq<DeviceEnvelope>): (r: Check)
    ensures r.Pass? <==>
              forall e :: e in es ==>
                ActiveDevice(t.devices, target, e.device) && (folder, e.keyVersion) in t.folderKeys
  {
    if es == [] then Pass
    else if !ActiveDevice(t.devices, target, es[0].device) then Fail(TargetNotFound)
    else if (folder, es[0].keyVersion) !in t.folderKeys then Fail(BadInput)
    else EnvelopeTargets(t, folder, target, es[1..])
  }

  method RequireEnvelopeTargets(t: Tables, folder: Id, target: Id, es: seq<DeviceEnvelope>) returns (r: Check)
    ensures r == EnvelopeTargets(t, folder, target, es)
  {
    for i := 0 to |es|
      invariant EnvelopeTargets(t, folder, target, es) == EnvelopeTargets(t, folder, target, es[i..])
    {
      assert es[i..][1..] == es[i + 1..];
      if !ActiveDevice(t.devices, target, es[i].device) {
        return Fail(TargetNotFound);
      }
      if (folder, es[i].keyVersion) !in t.folderKeys {
        return Fail(BadInput);
      }
    }
    r := Pass;
  }

  /** Insert in order; a row that already exists for the device and version is kept. */
  function Inserted(rows: map<(Id, Id, int), Envelope>, sid: Id,
        es: seq<DeviceEnvelope>): (r: map<(Id, Id, int), Envelope>)
    ensures forall k :: k in r <==> k in rows || exists e :: e in es && k == (sid, e.device, e.keyVersion)
    ensures forall k :: k in rows ==> r[k] == rows[k]
    ensures forall k :: k in r && k !in rows ==> r[k].revokedAt.None?
    decreases |es|
  {
    if es == [] then rows
    else
      var k := (sid, es[0].device, es[0].keyVersion);
      Inserted(if k in rows then rows else rows[k := Envelope(es[0].ciphertext, None)], sid, es[1..])
  }

  method InsertEnvelopes(db: Database, sid: Id, es: seq<DeviceEnvelope>)
    modifies db
    ensures db.tables == old(db.tables).(envelopes := Inserted(old(db.tables.envelopes), sid, es))
  {
    ghost var start := db.tables;
    for i := 0 to |es|
      invariant db.tables == start.(envelopes := db.tables.envelopes)
      invariant Inserted(start.envelopes, sid, es) == Inserted(db.tables.envelopes, sid, es[i..])
    {
      assert es[i..][1..] == es[i + 1..];
      var k := (sid, es[i].device, es[i].keyVersion);
      if k !in db.tables.envelopes {
        db.tables := db.tables.(envelopes := db.tables.envelopes[k := Envelope(es[i].ciphertext, None)]);
      }
    }
  }

  // ---------------------------------------------------------------- what the owner reads back

  datatype Outgoing = Outgoing(share: Share, envelopes: map<(Id, int), Bytes>)

  /** The envelopes of a share that are not revoked, by device and key version. */
  function LiveEnvelopes(rows: map<(Id, Id, int), Envelope>, sid: Id): map<(Id, int), Bytes> {
    map k | k in rows && k.0 == sid && rows[k].revokedAt.None? :: (k.1, k.2) := rows[k].ciphertext
  }

  function OutgoingShare(t: Tables, owner: Id, sid: Id): Result<Outgoing> {
    if sid !in t.shares || t.shares[sid].owner != owner || t.shares[sid].revokedAt.Some? then Err(NotFound)
    else Ok(Outgoing(t.shares[sid], LiveEnvelopes(t.envelopes, sid)))
  }

  /** What a request answers: its transaction's error, or the share read again after it. */
  function ShareReply(t: Tables, owner: Id, r: Result<Id>): Result<Outgoing> {
    var sid :- r;
    OutgoingShare(t, owner, sid)
  }

  // ---------------------------------------------------------------- grants

  datatype GrantInput = GrantInput(
    owner: Id, device: Id, operation: Id, node: Id, target: Id, permission: Permission, envelopes: seq<DeviceEnvelope>)

  function ShareReplay(processed: map<Id, Processed>, g: GrantInput): Replay {
    if g.operation in processed && processed[g.operation].device != g.device then Reused
    else ReplayOf(processed, g.operation, g.owner, ShareCreate)
  }

  predicate AlreadyActive(shares: map<Id, Share>, node: Id, target: Id) {
    ShareOn(shares, target, node).Some?
  }

  /** `sid` is the identifier the server generates for the new share. */
  function GrantTx(t: Tables, g: GrantInput, sid: Id, now: Time): (r: Tx<Id>)
    ensures r.Ok? ==>
              var t' := r.value.tables;
              t' == t.(shares := t'.shares, envelopes := t'.envelopes, processed := t'.processed)
  {
    if g.owner == g.target || !ValidEnvelopes(g.envelopes) then Err(BadInput) else
    match ShareReplay(t.processed, g)
    case Reused => Err(OperationReused)
    case Applied(x) => Ok(Committed(t, x))
    case Fresh =>
      :- Need(ActiveDevice(t.devices, g.owner, g.device), Forbidden);
      :- RequireOwnedFolder(t.nodes, g.owner, g.node);
      :- Need(g.target in t.users, TargetNotFound);
      :- Need(!AlreadyActive(t.shares, g.node, g.target), AlreadyShared);
      :- EnvelopeTargets(t, g.node, g.target, g.envelopes);
      :- Need(sid !in t.shares, AlreadyShared);
      var t1 := t.(shares := t.shares[sid := Share(g.node, g.owner, g.target, g.permission, None)]);
      var t2 := t1.(envelopes := Inserted(t1.envelopes, sid, g.envelopes));
      Ok(Committed(Recorded(t2, g.operation, g.owner, g.device, ShareCreate, sid, now), sid))
  }

  method CreateGrant(db: Database, g: GrantInput, sid: Id, now: Time) returns (r: Result<Outgoing>)
    modifies db
    ensures db.tables == After(old(db.tables), GrantTx(old(db.tables), g, sid, now))
    ensures r == ShareReply(db.tables, g.owner, Answer(GrantTx(old(db.tables), g, sid, now)))
  {
    var valid := CheckEnvelopes(g.envelopes);
    :- Need(g.owner != g.target && valid, BadInput);
    match ShareReplay(db.tables.processed, g) {
      case Reused => return Err(OperationReused);
      case Applied(x) => return OutgoingShare(db.tables, g.owner, x);
      case Fresh =>
    }
    :- Need(ActiveDevice(db.tables.devices, g.owner, g.device), Forbidden);
    :- RequireOwnedFolder(db.tables.nodes, g.owner, g.node);
    :- Need(g.target in db.tables.users, TargetNotFound);
    :- Need(!AlreadyActive(db.tables.shares, g.node, g.target), AlreadyShared);
    var targets := RequireEnvelopeTargets(db.tables, g.node, g.target, g.envelopes);
    :- targets;
    :- Need(sid !in db.tables.shares, AlreadyShared);
    db.tables := db.tables.(shares := db.tables.shares[sid := Share(g.node, g.owner, g.target, g.permission, None)]);
    InsertEnvelopes(db, sid, g.envelopes);
    RecordProcessed(db, g.operation, g.owner, g.device, ShareCreate, sid, now);
    r := OutgoingShare(db.tables, g.owner, sid);
  }

  function AddEnvelopesTx(t: Tables, owner: Id, device: Id, sid: Id, es: seq<DeviceEnvelope>): (r: Tx<()>)
    ensures r.Ok? ==> r.value.tables == t.(envelopes := r.value.tables.envelopes)
  {
    if !ValidEnvelopes(es) then Err(BadInput) else
    :- Need(ActiveDevice(t.devices, owner, device), Forbidden);
    :- Need(sid in t.shares && t.shares[sid].owner == owner && t.shares[sid].revokedAt.None?, NotFound);
    :- EnvelopeTargets(t, t.shares[sid].node, t.shares[sid].target, es);
    Ok(Committed(t.(envelopes := Inserted(t.envelopes, sid, es)), ()))
  }

  method AddEnvelopes(db: Database, owner: Id, device: Id, sid: Id, es: seq<DeviceEnvelope>)
    returns (r: Result<Outgoing>)
    modifies db
    ensures db.tables == After(old(db.tables), AddEnvelopesTx(old(db.tables), owner, device, sid, es))
    ensures r == match AddEnvelopesTx(old(db.tables), owner, device, sid, es)
                 case Ok(_) => OutgoingShare(db.tables, owner, sid)
                 case Err(e) => Err(e)
  {
    var valid := CheckEnvelopes(es);
    :- Need(valid, BadInput);
    :- Need(ActiveDevice(db.tables.devices, owner, device), Forbidden);
    :- Need(sid in db.tables.shares && db.tables.shares[sid].owner == owner
            && db.tables.shares[sid].revokedAt.None?, NotFound);
    var targets := RequireEnvelopeTargets(db.tables, db.tables.shares[sid].node, db.tables.shares[sid].target, es);
    :- targets;
    InsertEnvelopes(db, sid, es);
    r := OutgoingShare(db.tables, owner, sid);
  }

  // ---------------------------------------------------------------- revoke

  function RevokedEnvelopes(rows: map<(Id, Id, int), Envelope>, sid: Id, now: Time): map<(Id, Id, int), Envelope> {
    map k | k in rows :: if k.0 == sid && rows[k].revokedAt.None? then rows[k].(revokedAt := Some(now)) else rows[k]
  }

  function RevokeTx(t: Tables, owner: Id, device: Id, sid: Id, now: Time): (r: Tx<()>)
    ensures r.Ok? ==> var t' := r.value.tables; t' == t.(shares := t'.shares, envelopes := t'.envelopes)
  {
    if !ActiveDevice(t.devices, owner, device) then Err(Forbidden) else
    :- Need(sid in t.shares && t.shares[sid].owner == owner, NotFound);
    if t.shares[sid].revokedAt.Some? then Ok(Committed(t, ()))
    else
      Ok(Committed(t.(shares := t.shares[sid := t.shares[sid].(revokedAt := Some(now))],
                      envelopes := RevokedEnvelopes(t.envelopes, sid, now)), ()))
  }

  method Revoke(db: Database, owner: Id, device: Id, sid: Id, now: Time) returns (r: Result<()>)
    modifies db
    ensures db.tables == After(old(db.tables), RevokeTx(old(db.tables), owner, device, sid, now))
    ensures r == Answer(RevokeTx(old(db.tables), owner, device, sid, now))
  {
    if !ActiveDevice(db.tables.devices, owner, device) {
      return Err(Forbidden);
    }
    if sid !in db.tables.shares || db.tables.shares[sid].owner != owner {
      return Err(NotFound);
    }
    if db.tables.shares[sid].revokedAt.None? {
      db.tables := db.tables.(shares := db.tables.shares[sid := db.tables.shares[sid].(revokedAt := Some(now))]);
      db.tables := db.tables.(envelopes := RevokedEnvelopes(db.tables.envelopes, sid, now));
    }
    r := Ok(());
  }
}
