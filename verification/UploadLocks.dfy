/** The keyed mutex: one lock per upload ID, created on demand and dropped once no caller holds
    or waits for it. Threads interleave between any two of its operations. */
module UploadLocks {
  import opened Common

  type Thread = nat

  /** Entries are numbered as they are created, so a dropped and re-created entry is a different
      one with a different mutex. `refs` is the counter stored in each entry. */
  datatype Registry = Registry(table: map<Id, nat>, refs: map<nat, nat>, created: nat)

  /** The table lists only entries that were created, each under one ID. */
  ghost predicate WellFormed(r: Registry) {
    && (forall id :: id in r.table ==> r.table[id] < r.created && r.table[id] in r.refs)
    && (forall a, b :: a in r.table && b in r.table && a != b ==> r.table[a] != r.table[b])
  }

  /** Find or create the entry of an ID and count one more user. */
  function Register(r: Registry, id: Id): Registry {
    var e := EntryFor(r, id);
    Registry(r.table[id := e], r.refs[e := (if id in r.table && e in r.refs then r.refs[e] else 0) + 1],
             if id in r.table then r.created else r.created + 1)
  }

  function EntryFor(r: Registry, id: Id): nat {
    if id in r.table then r.table[id] else r.created
  }

  /** Count one user less; the last one takes the ID out of the table. */
  function Deregister(r: Registry, id: Id, e: nat): Registry {
    var left: nat := if e in r.refs && r.refs[e] > 0 then r.refs[e] - 1 else 0;
    Registry(if left == 0 then r.table - {id} else r.table, r.refs[e := left], r.created)
  }

  class LockTable {
    var table: map<Id, nat>
    var refs: map<nat, nat>
    var created: nat

    function Contents(): Registry
      reads this
    {
      Registry(table, refs, created)
    }

    constructor ()
      ensures Contents() == Registry(map[], map[], 0)
    {
      table, refs, created := map[], map[], 0;
    }

    /** The first critical section of lock. */
    method Enter(id: Id) returns (e: nat)
      requires WellFormed(Contents())
      modifies this
      ensures Contents() == Register(old(Contents()), id) && e == EntryFor(old(Contents()), id)
      ensures WellFormed(Contents())
    {
      if id in table {
        e := table[id];
      } else {
        e := created;
        table, refs, created := table[id := e], refs[e := 0], created + 1;
      }
      refs := refs[e := refs[e] + 1];
    }

    /** The critical section of the returned unlock function. */
    method Leave(id: Id, e: nat)
      requires WellFormed(Contents()) && e in refs && refs[e] > 0
      modifies this
      ensures Contents() == Deregister(old(Contents()), id, e) && WellFormed(Contents())
    {
      refs := refs[e := refs[e] - 1];
      if refs[e] == 0 {
        table := table - {id};
      }
    }
  }

  // ---------------------------------------------------------------- the protocol

  /** Where a thread is between two operations. */
  datatype Pc =
    | Idle
    | AtTable(id: Id)
    | Entering(id: Id)
    | Entered(id: Id, e: nat)
    | Waiting(id: Id, e: nat)
    | Holding(id: Id, e: nat)
    | Released(id: Id, e: nat)
    | Leaving(id: Id, e: nat)
    | Left

  /** `tableOwner` holds the mutex of the table, `holder` the mutex of each entry. */
  datatype System = System(reg: Registry, tableOwner: Option<Thread>, holder: map<nat, Thread>, pcs: map<Thread, Pc>)

  function PcOf(s: System, t: Thread): Pc {
    if t in s.pcs then s.pcs[t] else Idle
  }

  /** Thread t performs its next operation if it can; an idle thread calls lock(id). */
  datatype Move = Move(t: Thread, id: Id)

  function Step(s: System, m: Move): System {
    var t := m.t;
    match PcOf(s, t)
    case Idle => s.(pcs := s.pcs[t := AtTable(m.id)])
    case AtTable(id) => if s.tableOwner.None? then s.(tableOwner := Some(t), pcs := s.pcs[t := Entering(id)]) else s
    case Entering(id) => s.(reg := Register(s.reg, id), pcs := s.pcs[t := Entered(id, EntryFor(s.reg, id))])
    case Entered(id, e) => s.(tableOwner := None, pcs := s.pcs[t := Waiting(id, e)])
    case Waiting(id, e) =>
      if e !in s.holder then s.(holder := s.holder[e := t], pcs := s.pcs[t := Holding(id, e)]) else s
    case Holding(id, e) => s.(holder := s.holder - {e}, pcs := s.pcs[t := Released(id, e)])
    case Released(id, e) =>
      if s.tableOwner.None? then s.(tableOwner := Some(t), pcs := s.pcs[t := Leaving(id, e)]) else s
    case Leaving(id, e) => s.(reg := Deregister(s.reg, id, e), pcs := s.pcs[t := Left])
    case Left => s.(tableOwner := None, pcs := s.pcs[t := Idle])
  }

  function Run(s: System, ms: seq<Move>): System
    decreases |ms|
  {
    if ms == [] then s else Step(Run(s, ms[..|ms| - 1]), ms[|ms| - 1])
  }

  function Start(): System {
    System(Registry(map[], map[], 0), None, map[], map[])
  }

  // ---------------------------------------------------------------- invariant

  /** The thread is counted in the entry: from its registration to its deregistration. */
  predicate Counted(pc: Pc) {
    pc.Entered? || pc.Waiting? || pc.Holding? || pc.Released? || pc.Leaving?
  }

  predicate Uses(pc: Pc, id: Id) {
    Counted(pc) && pc.id == id
  }

  /** The threads counted for an ID. */
  function Users(pcs: map<Thread, Pc>, id: Id): set<Thread> {
    set t | t in pcs && Uses(pcs[t], id)
  }

  predicate InTable(pc: Pc) {
    pc.Entering? || pc.Entered? || pc.Leaving? || pc.Left?
  }

  /** The counter of a listed entry is the number of threads counted for its ID, and an ID is
      listed exactly as long as there are any. */
  ghost predicate RefsCount(s: System, id: Id) {
    && (id in s.reg.table <==> Users(s.pcs, id) != {})
    && (id in s.reg.table ==> s.reg.table[id] in s.reg.refs && s.reg.refs[s.reg.table[id]] == |Users(s.pcs, id)|)
  }

  ghost predicate ThreadOk(s: System, t: Thread) {
    var pc := PcOf(s, t);
    && (Counted(pc) ==> pc.id in s.reg.table && s.reg.table[pc.id] == pc.e)
    && (pc.Holding? ==> pc.e in s.holder && s.holder[pc.e] == t)
    && (InTable(pc) <==> s.tableOwner == Some(t))
  }

  ghost predicate Inv(s: System) {
    && WellFormed(s.reg)
    && (forall id :: RefsCount(s, id))
    && (forall t :: ThreadOk(s, t))
    && (forall e :: e in s.holder ==> s.holder[e] in s.pcs && s.pcs[s.holder[e]].Holding? && s.pcs[s.holder[e]].e == e)
  }

  lemma StartInv()
    ensures Inv(Start())
  {
  }

  /** A step of one thread that leaves what is counted alone. */
  lemma UncountedStep(s: System, t: Thread, pc: Pc)
    requires Inv(s) && !Counted(PcOf(s, t)) && !Counted(pc)
    ensures forall id :: Users(s.pcs[t := pc], id) == Users(s.pcs, id)
  {
  }

  lemma SameUsers(s: System, t: Thread, pc: Pc)
    requires t in s.pcs && Counted(s.pcs[t]) && Counted(pc) && s.pcs[t].id == pc.id
    ensures forall id :: Users(s.pcs[t := pc], id) == Users(s.pcs, id)
  {
  }

  lemma EnterStep(s: System, t: Thread, id: Id)
    requires Inv(s) && PcOf(s, t) == Entering(id)
    ensures Inv(Step(s, Move(t, id)))
  {
    var s' := Step(s, Move(t, id));
    forall x ensures RefsCount(s', x) { EnterCount(s, t, id, x); }
    forall u ensures ThreadOk(s', u) { EnterThread(s, t, id, u); }
  }

  lemma EnterCount(s: System, t: Thread, id: Id, x: Id)
    requires WellFormed(s.reg) && RefsCount(s, x) && RefsCount(s, id) && PcOf(s, t) == Entering(id)
    ensures RefsCount(Step(s, Move(t, id)), x)
  {
    var s' := Step(s, Move(t, id));
    if x == id { assert Users(s'.pcs, x) == Users(s.pcs, x) + {t} && t !in Users(s.pcs, x); }
    else { assert Users(s'.pcs, x) == Users(s.pcs, x); }
  }

  lemma EnterThread(s: System, t: Thread, id: Id, u: Thread)
    requires Inv(s) && PcOf(s, t) == Entering(id)
    ensures ThreadOk(Step(s, Move(t, id)), u)
  {
    assert ThreadOk(s, u) && ThreadOk(s, t) && RefsCount(s, id);
  }

  lemma LeaveStep(s: System, t: Thread, id: Id, e: nat)
    requires Inv(s) && PcOf(s, t) == Leaving(id, e)
    ensures Inv(Step(s, Move(t, id)))
  {
    var s' := Step(s, Move(t, id));
    assert ThreadOk(s, t) && RefsCount(s, id);
    var before, after := Users(s.pcs, id), Users(s'.pcs, id);
    assert after == before - {t} && t in before;
    assert |after| == |before| - 1;
    assert after == {} <==> |after| == 0;
    forall x ensures RefsCount(s', x) {
      assert RefsCount(s, x);
      if x != id { assert Users(s'.pcs, x) == Users(s.pcs, x); }
    }
    forall u ensures ThreadOk(s', u) {
      assert ThreadOk(s, u);
      if u != t && Counted(PcOf(s, u)) && PcOf(s, u).id == id { assert u in after; }
    }
  }

  /** The steps that touch neither the table nor the counters. */
  lemma MutexStep(s: System, m: Move)
    requires Inv(s) && !PcOf(s, m.t).Entering? && !PcOf(s, m.t).Leaving?
    ensures Inv(Step(s, m))
  {
    var s', t := Step(s, m), m.t;
    if Counted(PcOf(s, t)) { SameUsers(s, t, PcOf(s', t)); } else { UncountedStep(s, t, PcOf(s', t)); }
    forall id ensures RefsCount(s', id) { assert RefsCount(s, id) && Users(s'.pcs, id) == Users(s.pcs, id); }
    forall u ensures ThreadOk(s', u) { MutexThread(s, m, u); }
    assert ThreadOk(s, t);
  }

  lemma MutexThread(s: System, m: Move, u: Thread)
    requires Inv(s) && !PcOf(s, m.t).Entering? && !PcOf(s, m.t).Leaving?
    ensures ThreadOk(Step(s, m), u)
  {
    assert ThreadOk(s, u) && ThreadOk(s, m.t);
  }

  lemma StepInv(s: System, m: Move)
    requires Inv(s)
    ensures Inv(Step(s, m))
  {
    match PcOf(s, m.t) {
      case Entering(id) => EnterStep(s, m.t, id);
      case Leaving(id, e) => LeaveStep(s, m.t, id, e);
      case _ => MutexStep(s, m);
    }
  }

  lemma {:induction false} RunInv(ms: seq<Move>)
    ensures Inv(Run(Start(), ms))
    decreases |ms|
  {
    if ms == [] { StartInv(); } else {
      RunInv(ms[..|ms| - 1]);
      StepInv(Run(Start(), ms[..|ms| - 1]), ms[|ms| - 1]);
    }
  }

  // ---------------------------------------------------------------- what the protocol guarantees

  lemma OneHolder(s: System, t: Thread, u: Thread)
    requires Inv(s) && PcOf(s, t).Holding? && PcOf(s, u).Holding? && PcOf(s, t).id == PcOf(s, u).id
    ensures t == u
  {
    assert ThreadOk(s, t) && ThreadOk(s, u);
  }

  /** For any number of threads and any interleaving, two threads never hold the same upload. */
  lemma MutualExclusion(ms: seq<Move>, t: Thread, u: Thread)
    requires var s := Run(Start(), ms); PcOf(s, t).Holding? && PcOf(s, u).Holding? && PcOf(s, t).id == PcOf(s, u).id
    ensures t == u
  {
    RunInv(ms);
    OneHolder(Run(Start(), ms), t, u);
  }

  /** The counter of an entry is the number of threads that hold it, wait for it, or have not yet
      been counted out; an ID is listed exactly when there is such a thread. */
  lemma EntryLivesWhileUsed(ms: seq<Move>, id: Id)
    ensures var s := Run(Start(), ms);
            if Users(s.pcs, id) == {} then id !in s.reg.table
            else
              id in s.reg.table && s.reg.table[id] in s.reg.refs
              && s.reg.refs[s.reg.table[id]] == |Users(s.pcs, id)| > 0
  {
    RunInv(ms);
    var s := Run(Start(), ms);
    assert RefsCount(s, id);
    if Users(s.pcs, id) != {} {
      var t :| t in Users(s.pcs, id);
      assert Users(s.pcs, id) == {t} + (Users(s.pcs, id) - {t});
    }
  }

  /** The protocol never blocks as a whole: while any thread is on its way, some thread on its way
      can move. */
  lemma NeverStuck(ms: seq<Move>, t: Thread) returns (u: Thread)
    requires !PcOf(Run(Start(), ms), t).Idle?
    ensures !PcOf(Run(Start(), ms), u).Idle? && forall id :: Step(Run(Start(), ms), Move(u, id)) != Run(Start(), ms)
  {
    RunInv(ms);
    var s := Run(Start(), ms);
    assert ThreadOk(s, t);
    if s.tableOwner.Some? {
      u := s.tableOwner.value;
      assert ThreadOk(s, u);
    } else if PcOf(s, t).Waiting? && PcOf(s, t).e in s.holder {
      u := s.holder[PcOf(s, t).e];
    } else {
      u := t;
    }
    forall id ensures PcOf(Step(s, Move(u, id)), u) != PcOf(s, u) {}
  }
}
