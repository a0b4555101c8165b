/** Vocabulary every module shares: identifiers, time, opaque bytes and digests, and the
    error values that the services return. */
module Common {

  /** A canonical lowercase UUID is one 128-bit number in its only accepted spelling. */
  type Id = nat

  /** Timestamps are whole nanoseconds; stored-text order is taken to be time order. */
  type Time = int

  /** How long an operation record is kept, in nanoseconds. */
  const THIRTY_DAYS: Time := 2_592_000_000_000_000

  newtype Byte = b: int | 0 <= b < 256

  type Bytes = seq<Byte>

  datatype Option<+T> = None | Some(value: T) {
    function GetOr(default: T): T {
      match this
      case Some(v) => v
      case None => default
    }
  }

  datatype Result<+T> = Ok(value: T) | Err(error: Error) {
    predicate IsFailure() {
      Err?
    }

    function PropagateFailure<U>(): Result<U>
      requires Err?
    {
      Err(error)
    }

    function Extract(): T
      requires Ok?
    {
      value
    }
  }

  /** A check that yields no value. */
  datatype Check = Pass | Fail(error: Error) {
    predicate IsFailure() {
      Fail?
    }

    function PropagateFailure<U>(): Result<U>
      requires Fail?
    {
      Err(error)
    }
  }

  function Need(condition: bool, error: Error): Check {
    if condition then Pass else Fail(error)
  }

  /** SHA-256 stands for any digest without collisions, so a digest is the value it digests. */
  datatype Digest = Digest(of: Bytes)

  datatype Error =
    | BadInput
    | NotFound
    | Forbidden
    | RevisionConflict
    | InvalidParent
    | OwnParent
    | MoveCycle
    | TreeTooDeep
    | InTrash
    | NotInTrash
    | OperationReused
    | IdTaken
    | NestedSharedFolder
    | WrongKeyScope
    | UnknownFolderKey
    | StaleFolderKey
    | KeyConflict
    | AlreadyShared
    | TargetNotFound
    | InvalidState
    | ChunkConflict
    | MissingChunks
    | TargetNodeMissing
    | TooManyUploads
    | TooLarge
    | DigestMismatch
    | MissingRow
    | TokenInvalid
    | AccountDisabled
    | DeviceRevoked
    | InvalidCursor
    | CommitFailed

  /** The largest number of a non-empty finite set. */
  function MaxOf(s: set<int>): (m: int)
    requires s != {}
    ensures m in s && forall k :: k in s ==> k <= m
  {
    MaxExists(s);
    var m :| m in s && forall k :: k in s ==> k <= m;
    m
  }

  lemma {:induction false} MaxExists(s: set<int>)
    requires s != {}
    ensures exists m :: m in s && forall k :: k in s ==> k <= m
  {
    if forall x: int :: x !in s { assert false; }
    var x: int :| x in s;
    if s != {x} {
      var rest := s - {x};
      MaxExists(rest);
      var m :| m in rest && forall k :: k in rest ==> k <= m;
      assert forall k :: k in s ==> k == x || k in rest;
      assert (if m < x then x else m) in s;
    }
  }

  /** The rows of a set listed without repetition, in some order. */
  predicate Enumerates<T(==)>(order: seq<T>, s: set<T>) {
    && (forall i :: 0 <= i < |order| ==> order[i] in s)
    && (forall x :: x in s ==> x in order)
    && (forall i, j :: 0 <= i < j < |order| ==> order[i] != order[j])
  }

  lemma AppendAssociative<T>(a: seq<T>, b: seq<T>, c: seq<T>)
    ensures (a + b) + c == a + (b + c)
  {
  }

  /** Removing one more key from what was left after removing `done`. */
  lemma RemoveOneMore<K, V>(m: map<K, V>, done: set<K>, k: K)
    ensures (m - done) - {k} == m - (done + {k})
  {
  }
}
