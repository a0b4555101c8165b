/** The SQLite tables as finite maps, the storage directories, and the transaction that
    either commits a new set of tables or leaves them alone. */
module Schema {
  import opened Common

  datatype Kind = File | Directory

  datatype Permission = Read | ReadWrite

  datatype Operation = Created | Updated | Deleted | Restored | Purged

  datatype Mutation = NodeCreate | NodeUpdate | NodeDelete | NodeRestore | ShareCreate | UploadComplete

  datatype Device = Device(user: Id, revoked: bool)

  /** `metadataScope` is the stored column: None means the owner's personal Vault Key. */
  datatype Node = Node(
    owner: Id,
    parent: Option<Id>,
    kind: Kind,
    metadata: Bytes,
    metadataKeyVersion: int,
    metadataScope: Option<Id>,
    current: Option<Id>,
    revision: nat,
    createdAt: Time,
    updatedAt: Time,
    deletedAt: Option<Time>)

  /** One row of sync_changes; the row at index i carries revision i + 1. */
  datatype Change = Change(user: Id, node: Id, op: Operation, at: Time)

  datatype Processed = Processed(user: Id, device: Id, mutation: Mutation, subject: Id, expiresAt: Time)

  datatype FolderKey = FolderKey(owner: Id, envelope: Bytes)

  datatype Share = Share(node: Id, owner: Id, target: Id, permission: Permission, revokedAt: Option<Time>)

  datatype Envelope = Envelope(ciphertext: Bytes, revokedAt: Option<Time>)

  datatype Version = Version(node: Id, blob: Id, wrappedKey: Bytes, scope: Id, keyVersion: int, createdAt: Time,
        revision: nat)

  datatype BlobRow = BlobRow(size: nat, digest: Digest, chunkCount: nat, createdAt: Time)

  datatype Status = Open | Completed | Aborted | Expired

  datatype Session = Session(
    user: Id,
    device: Id,
    target: Id,
    version: Id,
    blob: Id,
    expectedRevision: nat,
    chunkSize: nat,
    chunkCount: nat,
    metadata: Bytes,
    metadataKeyVersion: int,
    wrappedKey: Bytes,
    status: Status,
    expiresAt: Time)

  datatype Chunk = Chunk(size: nat, digest: Digest)

  datatype Tables = Tables(
    users: set<Id>,
    devices: map<Id, Device>,
    nodes: map<Id, Node>,
    log: seq<Change>,
    processed: map<Id, Processed>,
    folderKeys: map<(Id, int), FolderKey>,
    shares: map<Id, Share>,
    envelopes: map<(Id, Id, int), Envelope>,
    versions: map<Id, Version>,
    blobs: map<Id, BlobRow>,
    sessions: map<Id, Session>,
    chunks: map<(Id, nat), Chunk>,
    blobMarks: map<Id, Time>,
    orphanMarks: map<Id, Time>)

  datatype Committed<+T> = Committed(tables: Tables, value: T)

  /** A transaction commits new tables and a value, or fails and changes nothing. */
  type Tx<+T> = Result<Committed<T>>

  /** The tables after a transaction that started from `t`. */
  function After<T>(t: Tables, tx: Tx<T>): Tables {
    if tx.Ok? then tx.value.tables else t
  }

  /** What the caller of a transaction sees. */
  function Answer<T>(tx: Tx<T>): Result<T> {
    if tx.Ok? then Ok(tx.value.value) else Err(tx.error)
  }

  predicate ActiveDevice(devices: map<Id, Device>, user: Id, device: Id) {
    device in devices && devices[device].user == user && !devices[device].revoked
  }

  /** The database handle that the services share. Each SQL statement replaces one table;
      a rollback puts back the tables the transaction started from. */
  class Database {
    var tables: Tables

    constructor (t: Tables)
      ensures tables == t
    {
      tables := t;
    }
  }

  /** The storage directories: committed ciphertext files by blob ID, and one temporary file
      per upload and chunk number. */
  class Storage {
    var blobFiles: map<Id, Bytes>
    var tempFiles: map<(Id, nat), Bytes>

    constructor (blobFiles: map<Id, Bytes>, tempFiles: map<(Id, nat), Bytes>)
      ensures this.blobFiles == blobFiles && this.tempFiles == tempFiles
    {
      this.blobFiles, this.tempFiles := blobFiles, tempFiles;
    }
  }

  /** The temporary files that remain once the directory of one upload is removed. */
  function WithoutDirectory(files: map<(Id, nat), Bytes>, upload: Id): map<(Id, nat), Bytes> {
    map k | k in files && k.0 != upload :: files[k]
  }
}
