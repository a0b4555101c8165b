/** The in-memory login limiter: growing waits after consecutive failures, a cap on concurrent
    attempts per key, and a bounded table. */
module Limiter {
  import opened Common

  type Key = string

  const SECOND: Time := 1_000_000_000
  const MAX_ENTRIES: nat := 10_000
  const IDLE_AFTER: Time := 15 * 60 * SECOND

  /** None is the zero time: never blocked, never failed. */
  datatype Entry = Entry(failures: nat, blockedUntil: Option<Time>, lastFailure: Option<Time>, inFlight: nat)

  datatype Backoff = LoginBackoff | AccountBackoff | AddressBackoff {
    function Wait(failures: nat): Time {
      match this
      case LoginBackoff =>
        if failures < 3 then 0 else if failures < 5 then SECOND
        else if failures < 8 then 10 * SECOND else 60 * SECOND
      case AccountBackoff => if failures < 20 then 0 else if failures < 50 then 5 * SECOND else 30 * SECOND
      case AddressBackoff =>
        if failures < 10 then 0 else if failures < 20 then 5 * SECOND
        else if failures < 40 then 30 * SECOND else 300 * SECOND
    }
  }

  /** `maxInFlight` caps concurrent attempts per key; 0 means no cap. */
  datatype Settings = Settings(backoff: Backoff, maxInFlight: nat)

  const EMPTY := Entry(0, None, None, 0)

  predicate Blocked(e: Entry, now: Time) {
    e.blockedUntil.Some? && now < e.blockedUntil.value
  }

  /** An entry that must not be dropped. */
  predicate Busy(e: Entry, now: Time) {
    e.inFlight > 0 || Blocked(e, now)
  }

  predicate Idle(e: Entry, now: Time) {
    e.lastFailure.None? || now - e.lastFailure.value > IDLE_AFTER
  }

  function Stale(m: map<Key, Entry>, now: Time): set<Key> {
    set k | k in m && !Busy(m[k], now) && Idle(m[k], now)
  }

  /** Entries that may make room although they are not idle. */
  function Candidates(m: map<Key, Entry>, now: Time): set<Key> {
    set k | k in m && !Busy(m[k], now) && !Idle(m[k], now)
  }

  predicate FailedBefore(a: Entry, b: Entry) {
    b.lastFailure.Some? && (a.lastFailure.None? || a.lastFailure.value < b.lastFailure.value)
  }

  /** A candidate that failed least recently. */
  predicate Oldest(m: map<Key, Entry>, now: Time, victim: Key) {
    victim in Candidates(m, now) && forall k | k in Candidates(m, now) :: !FailedBefore(m[k], m[victim])
  }

  function Pruned(m: map<Key, Entry>, now: Time): map<Key, Entry> {
    m - Stale(m, now)
  }

  predicate NeedsVictim(m: map<Key, Entry>, now: Time) {
    |m| >= MAX_ENTRIES && |Pruned(m, now)| >= MAX_ENTRIES && Candidates(m, now) != {}
  }

  /** Ties between equally old candidates are broken by the map's iteration order: `victim`. */
  predicate VictimOk(m: map<Key, Entry>, now: Time, victim: Key) {
    NeedsVictim(m, now) ==> Oldest(m, now, victim)
  }

  function Room(m: map<Key, Entry>, now: Time, victim: Key): map<Key, Entry> {
    if |m| < MAX_ENTRIES then m
    else if NeedsVictim(m, now) then Pruned(m, now) - {victim}
    else Pruned(m, now)
  }

  function Inserted(m: map<Key, Entry>, key: Key, e: Entry, now: Time, victim: Key): map<Key, Entry> {
    Room(m, now, victim)[key := e]
  }

  predicate Accepts(cfg: Settings, m: map<Key, Entry>, key: Key, now: Time) {
    key in m ==> !Blocked(m[key], now) && (cfg.maxInFlight > 0 ==> m[key].inFlight < cfg.maxInFlight)
  }

  function Begun(m: map<Key, Entry>, key: Key, now: Time, victim: Key): map<Key, Entry> {
    if key in m then m[key := m[key].(inFlight := m[key].inFlight + 1)]
    else Inserted(m, key, EMPTY.(inFlight := 1), now, victim)
  }

  function Ended(m: map<Key, Entry>, key: Key): map<Key, Entry> {
    if key !in m then m
    else
      var left: nat := if m[key].inFlight > 0 then m[key].inFlight - 1 else 0;
      if left == 0 && m[key].failures == 0 then m - {key} else m[key := m[key].(inFlight := left)]
  }

  function FailedEntry(cfg: Settings, e: Entry, now: Time): Entry {
    Entry(e.failures + 1, Some(now + cfg.backoff.Wait(e.failures + 1)), Some(now), e.inFlight)
  }

  function Failed(cfg: Settings, m: map<Key, Entry>, key: Key, now: Time, victim: Key): map<Key, Entry> {
    if key in m then m[key := FailedEntry(cfg, m[key], now)]
    else Inserted(m, key, FailedEntry(cfg, EMPTY, now), now, victim)
  }

  function Succeeded(m: map<Key, Entry>, key: Key): map<Key, Entry> {
    if key !in m then m
    else if m[key].inFlight == 0 then m - {key}
    else m[key := m[key].(failures := 0, blockedUntil := None)]
  }

  /** The best candidate among the entries already visited. */
  ghost predicate OldestSeen(m: map<Key, Entry>, now: Time, rest: set<Key>, oldest: Option<Key>) {
    match oldest
    case None => Candidates(m, now) <= rest
    case Some(o) =>
      o in Candidates(m, now) - rest
      && forall k :: k in Candidates(m, now) - rest ==> !FailedBefore(m[k], m[o])
  }

  lemma DropNext(m: map<Key, Entry>, now: Time, rest: set<Key>, k: Key)
    requires k in rest && rest <= m.Keys
    ensures k in m - (Stale(m, now) - rest) && (m - (Stale(m, now) - rest))[k] == m[k]
    ensures m - (Stale(m, now) - (rest - {k}))
         == if k in Stale(m, now) then m - (Stale(m, now) - rest) - {k} else m - (Stale(m, now) - rest)
  {
  }

  lemma OldestKept(m: map<Key, Entry>, now: Time, rest: set<Key>, oldest: Option<Key>)
    requires OldestSeen(m, now, rest, oldest)
    ensures oldest.Some? ==>
              oldest.value in m - (Stale(m, now) - rest)
              && (m - (Stale(m, now) - rest))[oldest.value] == m[oldest.value]
  {
  }

  // ---------------------------------------------------------------- the limiter

  class AttemptLimiter {
    var entries: map<Key, Entry>
    const cfg: Settings

    constructor (cfg: Settings)
      ensures this.cfg == cfg && entries == map[]
    {
      this.cfg, entries := cfg, map[];
    }

    /** One pass over the table: idle entries go, the least recently failed of the other entries
        that are neither blocked nor in flight is remembered. */
    method Scan(now: Time) returns (oldest: Option<Key>)
      modifies this`entries
      ensures entries == Pruned(old(entries), now)
      ensures match oldest
              case None => Candidates(old(entries), now) == {}
              case Some(o) => Oldest(old(entries), now, o)
    {
      ghost var before := entries;
      var rest := entries.Keys;
      oldest := None;
      assert before - (Stale(before, now) - rest) == before;
      while rest != {}
        invariant rest <= before.Keys
        invariant entries == before - (Stale(before, now) - rest)
        invariant OldestSeen(before, now, rest, oldest)
        decreases rest
      {
        var k :| k in rest;
        DropNext(before, now, rest, k);
        var row := entries[k];
        if !Busy(row, now) && Idle(row, now) {
          entries := entries - {k};
        } else if !Busy(row, now) {
          OldestKept(before, now, rest, oldest);
          if oldest.None? || FailedBefore(row, entries[oldest.value]) {
            oldest := Some(k);
          }
        }
        rest := rest - {k};
      }
      assert Stale(before, now) - {} == Stale(before, now);
    }

    /** Adds an entry, first pruning idle ones and then the least recently failed one. */
    method Insert(key: Key, e: Entry, now: Time) returns (ghost victim: Key)
      modifies this`entries
      ensures VictimOk(old(entries), now, victim)
      ensures entries == Inserted(old(entries), key, e, now, victim)
    {
      victim := "";
      if |entries| >= MAX_ENTRIES {
        var oldest := Scan(now);
        if |entries| >= MAX_ENTRIES && oldest.Some? {
          victim := oldest.value;
          entries := entries - {oldest.value};
        }
      }
      entries := entries[key := e];
    }

    /** Reserves an attempt; an empty key is never limited. */
    method Begin(key: Key, now: Time) returns (ok: bool, ghost victim: Key)
      modifies this`entries
      ensures VictimOk(old(entries), now, victim) || key == "" || key in old(entries)
      ensures key == "" ==> ok && entries == old(entries)
      ensures key != "" ==> ok == Accepts(cfg, old(entries), key, now)
      ensures key != "" ==> entries == if ok then Begun(old(entries), key, now, victim) else old(entries)
    {
      victim := "";
      if key == "" {
        return true, victim;
      }
      if key in entries && Blocked(entries[key], now) {
        return false, victim;
      }
      if key in entries && cfg.maxInFlight > 0 && entries[key].inFlight >= cfg.maxInFlight {
        return false, victim;
      }
      if key !in entries {
        victim := Insert(key, EMPTY, now);
      }
      entries := entries[key := entries[key].(inFlight := entries[key].inFlight + 1)];
      ok := true;
    }

    method End(key: Key)
      modifies this`entries
      ensures entries == if key == "" then old(entries) else Ended(old(entries), key)
    {
      if key == "" || key !in entries {
        return;
      }
      if entries[key].inFlight > 0 {
        entries := entries[key := entries[key].(inFlight := entries[key].inFlight - 1)];
      }
      if entries[key].inFlight == 0 && entries[key].failures == 0 {
        entries := entries - {key};
      }
    }

    method RecordFailure(key: Key, now: Time) returns (ghost victim: Key)
      modifies this`entries
      ensures VictimOk(old(entries), now, victim) || key == "" || key in old(entries)
      ensures entries == if key == "" then old(entries) else Failed(cfg, old(entries), key, now, victim)
    {
      victim := "";
      if key == "" {
        return;
      }
      if key !in entries {
        victim := Insert(key, EMPTY, now);
      }
      var row := entries[key].(failures := entries[key].failures + 1, lastFailure := Some(now));
      entries := entries[key := row.(blockedUntil := Some(now + cfg.backoff.Wait(row.failures)))];
    }

    method RecordSuccess(key: Key)
      modifies this`entries
      ensures entries == if key == "" then old(entries) else Succeeded(old(entries), key)
    {
      if key == "" || key !in entries {
        return;
      }
      if entries[key].inFlight == 0 {
        entries := entries - {key};
      } else {
        entries := entries[key := entries[key].(failures := 0, blockedUntil := None)];
      }
    }
  }

  // ---------------------------------------------------------------- the bounded table

  /** Making room never drops a blocked key or one with attempts in flight. */
  lemma BusyNeverDropped(m: map<Key, Entry>, now: Time, victim: Key, k: Key)
    requires VictimOk(m, now, victim) && k in m && Busy(m[k], now)
    ensures k in Room(m, now, victim) && Room(m, now, victim)[k] == m[k]
  {
  }

  lemma Smaller<K, V>(m: map<K, V>, gone: set<K>)
    ensures |m - gone| <= |m|
    ensures forall k :: k in gone && k in m ==> |m - gone| < |m|
  {
    var kept := m - gone;
    assert m.Keys == kept.Keys + (m.Keys * gone);
    assert |m.Keys| == |kept.Keys| + |m.Keys * gone|;
    forall k | k in gone && k in m ensures |m - gone| < |m| { assert k in m.Keys * gone; }
  }

  lemma RoomShrinks(m: map<Key, Entry>, now: Time, victim: Key, k: Key)
    requires VictimOk(m, now, victim) && |m| >= MAX_ENTRIES && k in m && !Busy(m[k], now)
    ensures |Room(m, now, victim)| < |m|
  {
    Smaller(m, Stale(m, now));
    Smaller(Pruned(m, now), {victim});
    assert k in Stale(m, now) || k in Candidates(m, now);
    assert NeedsVictim(m, now) ==> victim in Pruned(m, now);
  }

  /** The table grows past its cap only when every entry it holds is blocked or in flight. */
  lemma GrowsOnlyWhenBusy(m: map<Key, Entry>, key: Key, e: Entry, now: Time, victim: Key)
    requires VictimOk(m, now, victim) && key !in m
    requires |Inserted(m, key, e, now, victim)| > MAX_ENTRIES && |Inserted(m, key, e, now, victim)| > |m|
    ensures forall k :: k in m ==> Busy(m[k], now)
  {
    var room := Room(m, now, victim);
    assert room[key := e].Keys == room.Keys + {key};
    Smaller(m, Stale(m, now));
    Smaller(Pruned(m, now), {victim});
    if k :| k in m && !Busy(m[k], now) { RoomShrinks(m, now, victim, k); }
  }

  // ---------------------------------------------------------------- runs

  /** An attempt in flight: the time it read on entry, and whether its outcome is recorded. */
  datatype Attempt = Attempt(now: Time, done: bool)

  datatype System = System(entries: map<Key, Entry>, open: map<Key, multiset<Attempt>>)

  function OpenOf(s: System, k: Key): multiset<Attempt> {
    if k in s.open then s.open[k] else multiset{}
  }

  datatype Call =
    | Begin(key: Key, now: Time, victim: Key)
    | Fail(key: Key, now: Time, victim: Key)
    | Succeed(key: Key, now: Time)
    | End(key: Key, attempt: Attempt)

  /** An attempt records at most one outcome, at the time it read on entry, and then ends. */
  predicate Legal(s: System, c: Call) {
    match c
    case Begin(k, now, victim) => k != "" && (k in s.entries || VictimOk(s.entries, now, victim))
    case Fail(k, now, victim) => k != "" && Attempt(now, false) in OpenOf(s, k)
      && (k in s.entries || VictimOk(s.entries, now, victim))
    case Succeed(k, now) => k != "" && Attempt(now, false) in OpenOf(s, k)
    case End(k, a) => k != "" && a in OpenOf(s, k)
  }

  function Recorded(s: System, k: Key, now: Time): map<Key, multiset<Attempt>> {
    s.open[k := OpenOf(s, k) - multiset{Attempt(now, false)} + multiset{Attempt(now, true)}]
  }

  function Step(cfg: Settings, s: System, c: Call): System {
    match c
    case Begin(k, now, victim) =>
      if Accepts(cfg, s.entries, k, now)
      then System(Begun(s.entries, k, now, victim), s.open[k := OpenOf(s, k) + multiset{Attempt(now, false)}])
      else s
    case Fail(k, now, victim) => System(Failed(cfg, s.entries, k, now, victim), Recorded(s, k, now))
    case Succeed(k, now) => System(Succeeded(s.entries, k), Recorded(s, k, now))
    case End(k, a) => System(Ended(s.entries, k), s.open[k := OpenOf(s, k) - multiset{a}])
  }

  function Run(cfg: Settings, s: System, cs: seq<Call>): System
    decreases |cs|
  {
    if cs == [] then s else Step(cfg, Run(cfg, s, cs[..|cs| - 1]), cs[|cs| - 1])
  }

  ghost predicate LegalRun(cfg: Settings, s: System, cs: seq<Call>)
    decreases |cs|
  {
    cs != [] ==> LegalRun(cfg, s, cs[..|cs| - 1]) && Legal(Run(cfg, s, cs[..|cs| - 1]), cs[|cs| - 1])
  }

  function InFlight(m: map<Key, Entry>, k: Key): nat {
    if k in m then m[k].inFlight else 0
  }

  ghost predicate Counted(s: System, k: Key) {
    |OpenOf(s, k)| == InFlight(s.entries, k)
  }

  /** Attempts in flight of a key are exactly its begins that have not ended. */
  ghost predicate InFlightCounts(s: System) {
    forall k :: Counted(s, k)
  }

  lemma OwnCount(cfg: Settings, s: System, c: Call)
    requires Counted(s, c.key) && Legal(s, c)
    ensures Counted(Step(cfg, s, c), c.key)
  {
  }

  lemma InsertKeepsCount(m: map<Key, Entry>, key: Key, now: Time, victim: Key, k: Key)
    requires VictimOk(m, now, victim) && k != key && key !in m
    ensures forall e :: InFlight(Inserted(m, key, e, now, victim), k) == InFlight(m, k)
  {
    if k in m && Busy(m[k], now) { BusyNeverDropped(m, now, victim, k); }
  }

  lemma OtherCount(cfg: Settings, s: System, c: Call, k: Key)
    requires Counted(s, k) && Legal(s, c) && k != c.key
    ensures Counted(Step(cfg, s, c), k)
  {
    assert OpenOf(Step(cfg, s, c), k) == OpenOf(s, k);
    match c {
      case Begin(key, now, victim) => if key !in s.entries { InsertKeepsCount(s.entries, key, now, victim, k); }
      case Fail(key, now, victim) => if key !in s.entries { InsertKeepsCount(s.entries, key, now, victim, k); }
      case Succeed(key, now) =>
      case End(key, a) =>
    }
  }

  lemma StepCounts(cfg: Settings, s: System, c: Call)
    requires InFlightCounts(s) && Legal(s, c)
    ensures InFlightCounts(Step(cfg, s, c))
  {
    forall k ensures Counted(Step(cfg, s, c), k) {
      assert Counted(s, k);
      if k == c.key { OwnCount(cfg, s, c); } else { OtherCount(cfg, s, c, k); }
    }
  }

  lemma {:induction false} RunCounts(cfg: Settings, s: System, cs: seq<Call>)
    requires InFlightCounts(s) && LegalRun(cfg, s, cs)
    ensures InFlightCounts(Run(cfg, s, cs))
    decreases |cs|
  {
    if cs != [] {
      RunCounts(cfg, s, cs[..|cs| - 1]);
      StepCounts(cfg, Run(cfg, s, cs[..|cs| - 1]), cs[|cs| - 1]);
    }
  }

  // ---------------------------------------------------------------- how fast one key can fail

  /** The times of the failures recorded for a key. */
  function FailTimes(cs: seq<Call>, k: Key): seq<Time>
    decreases |cs|
  {
    if cs == [] then []
    else
      var c := cs[|cs| - 1];
      FailTimes(cs[..|cs| - 1], k) + if c.Fail? && c.key == k then [c.now] else []
  }

  /** No success is recorded for the key, and no failing entry of it makes room for another. */
  ghost predicate Undisturbed(cfg: Settings, s: System, cs: seq<Call>, k: Key)
    decreases |cs|
  {
    cs != [] ==>
      var m, c := Run(cfg, s, cs[..|cs| - 1]), cs[|cs| - 1];
      && Undisturbed(cfg, s, cs[..|cs| - 1], k)
      && !(c.Succeed? && c.key == k)
      && (k in m.entries && m.entries[k].failures > 0 ==> k in Step(cfg, m, c).entries)
  }

  ghost predicate SpacedAt(cfg: Settings, f: seq<Time>, i: nat)
    requires i + 1 < |f|
  {
    f[i + 1] >= f[i] + cfg.backoff.Wait(i + 1)
  }

  ghost predicate Spaced(cfg: Settings, f: seq<Time>) {
    forall i: nat {:trigger SpacedAt(cfg, f, i)} :: i + 1 < |f| ==> SpacedAt(cfg, f, i)
  }

  /** The entry of the key holds exactly the failures in f, and the attempt in flight, if its
      outcome is open, began after the wait that they imposed. */
  ghost predicate KeyInv(cfg: Settings, s: System, k: Key, f: seq<Time>) {
    && Spaced(cfg, f)
    && (f == [] ==> (k in s.entries ==> s.entries[k].failures == 0 && s.entries[k].blockedUntil.None?))
    && (f != [] ==>
          k in s.entries && s.entries[k].failures == |f|
          && s.entries[k].blockedUntil == Some(f[|f| - 1] + cfg.backoff.Wait(|f|)))
    && |OpenOf(s, k)| <= 1
    && (forall t :: Attempt(t, false) in OpenOf(s, k) && f != [] ==> t >= f[|f| - 1] + cfg.backoff.Wait(|f|))
  }

  lemma MoreSpaced(cfg: Settings, f: seq<Time>, t: Time)
    requires Spaced(cfg, f) && (f != [] ==> t >= f[|f| - 1] + cfg.backoff.Wait(|f|))
    ensures Spaced(cfg, f + [t])
  {
    forall i: nat | i + 1 < |f + [t]| ensures SpacedAt(cfg, f + [t], i) {
      if i + 1 < |f| { assert SpacedAt(cfg, f, i); }
    }
  }

  /** A multiset of at most one element holds nothing but a known element. */
  lemma OnlyOne(m: multiset<Attempt>, a: Attempt)
    requires |m| <= 1 && a in m
    ensures m == multiset{a}
  {
    assert m == multiset{a} + (m - multiset{a});
    assert |m - multiset{a}| == 0;
  }

  lemma BeginStep(cfg: Settings, s: System, k: Key, now: Time, victim: Key, f: seq<Time>)
    requires cfg.maxInFlight == 1 && Counted(s, k) && KeyInv(cfg, s, k, f)
    ensures KeyInv(cfg, Step(cfg, s, Begin(k, now, victim)), k, f)
  {
    if Accepts(cfg, s.entries, k, now) { assert OpenOf(s, k) == multiset{}; }
  }

  lemma FailStep(cfg: Settings, s: System, k: Key, now: Time, victim: Key, f: seq<Time>)
    requires KeyInv(cfg, s, k, f) && Counted(s, k) && Attempt(now, false) in OpenOf(s, k)
    ensures KeyInv(cfg, Step(cfg, s, Call.Fail(k, now, victim)), k, f + [now])
  {
    OnlyOne(OpenOf(s, k), Attempt(now, false));
    MoreSpaced(cfg, f, now);
    var s' := Step(cfg, s, Call.Fail(k, now, victim));
    assert OpenOf(s', k) == multiset{Attempt(now, true)};
  }

  lemma EndStep(cfg: Settings, s: System, k: Key, a: Attempt, f: seq<Time>)
    requires KeyInv(cfg, s, k, f) && Counted(s, k) && a in OpenOf(s, k)
    ensures KeyInv(cfg, Step(cfg, s, End(k, a)), k, f)
  {
    OnlyOne(OpenOf(s, k), a);
    assert OpenOf(Step(cfg, s, End(k, a)), k) == multiset{};
  }

  lemma KeyStep(cfg: Settings, s: System, c: Call, k: Key, f: seq<Time>)
    requires cfg.maxInFlight == 1 && InFlightCounts(s) && Legal(s, c) && KeyInv(cfg, s, k, f) && c.key == k
    requires !c.Succeed?
    ensures KeyInv(cfg, Step(cfg, s, c), k, if c.Fail? then f + [c.now] else f)
  {
    assert Counted(s, k);
    match c {
      case Begin(_, now, victim) => BeginStep(cfg, s, k, now, victim, f);
      case Fail(_, now, victim) => FailStep(cfg, s, k, now, victim, f);
      case End(_, a) => EndStep(cfg, s, k, a, f);
    }
  }

  lemma OtherKeyStep(cfg: Settings, s: System, c: Call, k: Key, f: seq<Time>)
    requires Legal(s, c) && KeyInv(cfg, s, k, f) && c.key != k
    requires k in s.entries && s.entries[k].failures > 0 ==> k in Step(cfg, s, c).entries
    ensures KeyInv(cfg, Step(cfg, s, c), k, f)
  {
    var s' := Step(cfg, s, c);
    assert k in s'.entries ==> k in s.entries && s'.entries[k] == s.entries[k];
    assert OpenOf(s', k) == OpenOf(s, k);
  }

  lemma {:induction false} RunKeyInv(cfg: Settings, s: System, cs: seq<Call>, k: Key)
    requires cfg.maxInFlight == 1 && InFlightCounts(s) && k !in s.entries
    requires LegalRun(cfg, s, cs) && Undisturbed(cfg, s, cs, k)
    ensures KeyInv(cfg, Run(cfg, s, cs), k, FailTimes(cs, k))
    decreases |cs|
  {
    if cs == [] {
      assert Counted(s, k);
    } else {
      var before, c := cs[..|cs| - 1], cs[|cs| - 1];
      var m, f := Run(cfg, s, before), FailTimes(before, k);
      RunKeyInv(cfg, s, before, k);
      RunCounts(cfg, s, before);
      if c.key == k {
        KeyStep(cfg, m, c, k, f);
        if !c.Fail? { assert f + [] == f; }
      } else {
        OtherKeyStep(cfg, m, c, k, f);
        assert f + [] == f;
      }
    }
  }

  /** The waits of the login limiter add up: 0, 0, 1, 1, 10, 10, 10, then 60 seconds each. */
  lemma {:induction false} WaitsAddUp(cfg: Settings, f: seq<Time>, n: nat)
    requires cfg.backoff == LoginBackoff && Spaced(cfg, f) && 8 <= n <= |f|
    ensures f[n - 1] - f[0] >= (32 + 60 * (n - 8)) * SECOND
    decreases n
  {
    assert SpacedAt(cfg, f, n - 2);
    if n > 8 {
      WaitsAddUp(cfg, f, n - 1);
    } else {
      assert SpacedAt(cfg, f, 0) && SpacedAt(cfg, f, 1) && SpacedAt(cfg, f, 2) && SpacedAt(cfg, f, 3)
             && SpacedAt(cfg, f, 4) && SpacedAt(cfg, f, 5);
    }
  }

  /** With one attempt in flight per key and no success or eviction, n failed logins of a key take
      at least 32 + 60 (n - 8) seconds, whatever is tried with other keys. */
  lemma LoginSpacing(cfg: Settings, s: System, cs: seq<Call>, k: Key)
    requires cfg == Settings(LoginBackoff, 1) && InFlightCounts(s) && k !in s.entries
    requires LegalRun(cfg, s, cs) && Undisturbed(cfg, s, cs, k)
    ensures var f := FailTimes(cs, k); |f| >= 8 ==> f[|f| - 1] - f[0] >= (32 + 60 * (|f| - 8)) * SECOND
  {
    RunKeyInv(cfg, s, cs, k);
    var f := FailTimes(cs, k);
    if |f| >= 8 { WaitsAddUp(cfg, f, |f|); }
  }
}
