/** What each limiter call does to its key and to all others, in numbers. */
module LimiterRules {
  import opened Common
  import opened Limiter

  // ---------------------------------------------------------------- waits

  /** The wait after n consecutive failures, in nanoseconds. */
  lemma Waits(n: nat)
    ensures LoginBackoff.Wait(n) == if n >= 8 then 60_000_000_000 else if n >= 5 then 10_000_000_000
                                    else if n >= 3 then 1_000_000_000 else 0
    ensures AccountBackoff.Wait(n) == if n >= 50 then 30_000_000_000 else if n >= 20 then 5_000_000_000 else 0
    ensures AddressBackoff.Wait(n) == if n >= 40 then 300_000_000_000 else if n >= 20 then 30_000_000_000
                                      else if n >= 10 then 5_000_000_000 else 0
  {
  }

  // ---------------------------------------------------------------- eviction

  /** The key may be dropped: nothing is in flight and its block is over. */
  predicate Droppable(e: Entry, now: Time) {
    e.inFlight == 0 && (e.blockedUntil.Some? ==> e.blockedUntil.value <= now)
  }

  /** Its last failure, if any, is more than fifteen minutes ago. */
  predicate LongAgo(e: Entry, now: Time) {
    e.lastFailure.Some? ==> now - e.lastFailure.value > 900_000_000_000
  }

  function StaleKeys(m: map<Key, Entry>, now: Time): set<Key> {
    set k | k in m && Droppable(m[k], now) && LongAgo(m[k], now)
  }

  /** Nothing else that may be dropped has failed less recently. */
  predicate LeastRecent(m: map<Key, Entry>, now: Time, victim: Key) {
    && victim in m && Droppable(m[victim], now) && !LongAgo(m[victim], now)
    && forall k | k in m.Keys :: Droppable(m[k], now) && m[k].lastFailure.Some? ==>
         LongAgo(m[k], now) || m[k].lastFailure.value >= m[victim].lastFailure.value
  }

  lemma StaleIsDroppable(m: map<Key, Entry>, now: Time)
    ensures Stale(m, now) == StaleKeys(m, now)
    ensures Candidates(m, now) == set k | k in m && Droppable(m[k], now) && !LongAgo(m[k], now)
  {
  }

  lemma OldestIsLeastRecent(m: map<Key, Entry>, now: Time, victim: Key)
    requires Oldest(m, now, victim)
    ensures LeastRecent(m, now, victim)
  {
    StaleIsDroppable(m, now);
    forall k | k in m.Keys && Droppable(m[k], now) && m[k].lastFailure.Some? && !LongAgo(m[k], now)
      ensures m[k].lastFailure.value >= m[victim].lastFailure.value
    {
      assert k in Candidates(m, now) && !FailedBefore(m[k], m[victim]);
    }
  }

  /** A table that is not full keeps every key. A full one drops its stale keys, and if it is still full
      the least recently failed one of the others that may go, if any may. */
  lemma RoomExactly(m: map<Key, Entry>, now: Time, victim: Key)
    requires VictimOk(m, now, victim)
    ensures var rest := m - StaleKeys(m, now);
            if |m| < 10_000 then Room(m, now, victim) == m
            else if |rest| < 10_000 || forall k :: k in rest ==> !Droppable(rest[k], now)
            then Room(m, now, victim) == rest
            else Room(m, now, victim) == rest - {victim} && LeastRecent(m, now, victim)
  {
    StaleIsDroppable(m, now);
    if NeedsVictim(m, now) {
      OldestIsLeastRecent(m, now, victim);
      assert victim in m - StaleKeys(m, now);
    } else if k :| k in m - StaleKeys(m, now) && Droppable(m[k], now) {
      assert k in Candidates(m, now) || |m| < 10_000 || |m - StaleKeys(m, now)| < 10_000;
    }
  }

  // ---------------------------------------------------------------- the calls

  lemma AcceptsExactly(cfg: Settings, m: map<Key, Entry>, key: Key, now: Time)
    ensures Accepts(cfg, m, key, now) <==>
              (key in m ==>
                 && (m[key].blockedUntil.Some? ==> m[key].blockedUntil.value <= now)
                 && (cfg.maxInFlight == 0 || m[key].inFlight < cfg.maxInFlight))
  {
  }

  /** An attempt counts for its key; a known key changes nothing else, a new one starts clean. */
  lemma BeginEffect(m: map<Key, Entry>, key: Key, now: Time, victim: Key)
    ensures var m' := Begun(m, key, now, victim);
            && key in m'
            && (key in m ==> m' == m[key := m'[key]])
            && (key !in m ==> m' == Room(m, now, victim)[key := m'[key]])
            && m'[key].inFlight == (if key in m then m[key].inFlight else 0) + 1
            && m'[key].failures == (if key in m then m[key].failures else 0)
            && m'[key].blockedUntil == (if key in m then m[key].blockedUntil else None)
            && m'[key].lastFailure == (if key in m then m[key].lastFailure else None)
  {
  }

  /** An ended attempt is taken off; the entry goes when it holds neither failures nor attempts. */
  lemma EndEffect(m: map<Key, Entry>, key: Key)
    ensures var m' := Ended(m, key);
            && (forall k :: k != key ==> (k in m' <==> k in m))
            && (forall k :: k != key && k in m ==> m'[k] == m[k])
            && (key in m' <==> key in m && (m[key].inFlight > 1 || m[key].failures > 0))
            && (key in m' ==>
                  m'[key] == m[key].(inFlight := if m[key].inFlight == 0 then 0 else m[key].inFlight - 1))
  {
  }

  /** A failure counts, is remembered, and blocks its key for the wait it has earned. */
  lemma FailureEffect(cfg: Settings, m: map<Key, Entry>, key: Key, now: Time, victim: Key)
    ensures var m' := Failed(cfg, m, key, now, victim);
            && key in m'
            && (key in m ==> m' == m[key := m'[key]])
            && (key !in m ==> m' == Room(m, now, victim)[key := m'[key]])
            && var n := if key in m then m[key].failures + 1 else 1;
               && m'[key].failures == n && m'[key].blockedUntil == Some(now + cfg.backoff.Wait(n))
               && m'[key].lastFailure == Some(now) && m'[key].inFlight == if key in m then m[key].inFlight else 0
  {
  }

  /** A success clears failures and block; attempts in flight stay counted. */
  lemma SuccessEffect(m: map<Key, Entry>, key: Key)
    ensures var m' := Succeeded(m, key);
            && (forall k :: k != key ==> (k in m' <==> k in m))
            && (forall k :: k != key && k in m ==> m'[k] == m[k])
            && (key in m' <==> key in m && m[key].inFlight > 0)
            && (key in m' ==>
                  && m'[key].failures == 0 && m'[key].blockedUntil.None? && m'[key].inFlight == m[key].inFlight
                  && m'[key].lastFailure == m[key].lastFailure)
  {
  }
}
