/** Server and keyed mutex together: threads that complete uploads only between lock and unlock
    meet the assumption that one upload is completed by one caller at a time. */
module LockedRuns {
  import opened Common
  import opened Server
  import L = UploadLocks

  /** `busy` says which completion a thread has begun and not yet finished. */
  datatype World = World(locks: L.System, server: State, busy: map<L.Thread, Id>)

  /** A thread performs an operation of the mutex, or an event of the server. */
  datatype Act = Lock(move: L.Move) | Do(thread: L.Thread, event: Event)

  /** What Complete obeys: the blob file is written while holding the upload's lock, the same
      thread then commits, and it does not unlock in between. Everything else is free. */
  predicate Legal(w: World, a: Act) {
    match a
    case Lock(m) => L.PcOf(w.locks, m.t).Holding? ==> m.t !in w.busy
    case Do(t, e) =>
      match e.action
      case OnCompletion(WriteBlobFile(c)) =>
        L.PcOf(w.locks, t).Holding? && L.PcOf(w.locks, t).id == c.upload && t !in w.busy
      case OnCompletion(CommitBlob(u)) => t in w.busy && w.busy[t] == u
      case _ => true
  }

  /** A crash ends every thread and its locks. */
  function Perform(cfg: Config, w: World, a: Act): World {
    match a
    case Lock(m) => w.(locks := L.Step(w.locks, m))
    case Do(t, e) =>
      var server := Step(cfg, w.server, e);
      match e.action
      case OnCompletion(WriteBlobFile(c)) =>
        w.(server := server, busy := if c.upload in server.writing then w.busy[t := c.upload] else w.busy)
      case OnCompletion(CommitBlob(u)) => w.(server := server, busy := w.busy - {t})
      case Crash => World(L.Start(), server, map[])
      case _ => w.(server := server)
  }

  function Play(cfg: Config, w: World, acts: seq<Act>): World
    decreases |acts|
  {
    if acts == [] then w else Perform(cfg, Play(cfg, w, acts[..|acts| - 1]), acts[|acts| - 1])
  }

  ghost predicate LegalPlay(cfg: Config, w: World, acts: seq<Act>)
    decreases |acts|
  {
    acts != [] ==>
      LegalPlay(cfg, w, acts[..|acts| - 1]) && Legal(Play(cfg, w, acts[..|acts| - 1]), acts[|acts| - 1])
  }

  /** The server's events, in the order in which they happened. */
  function Events(acts: seq<Act>): seq<Event>
    decreases |acts|
  {
    if acts == [] then []
    else
      var a := acts[|acts| - 1];
      Events(acts[..|acts| - 1]) + if a.Do? then [a.event] else []
  }

  // ---------------------------------------------------------------- invariant

  ghost predicate Held(w: World, t: L.Thread) {
    t in w.busy ==> L.PcOf(w.locks, t).Holding? && L.PcOf(w.locks, t).id == w.busy[t]
  }

  ghost predicate Begun(w: World, u: Id) {
    u in w.server.writing ==> exists t :: t in w.busy && w.busy[t] == u
  }

  /** Every completion in flight belongs to a thread that holds its upload. */
  ghost predicate Guarded(w: World) {
    L.Inv(w.locks) && (forall t :: Held(w, t)) && (forall u :: Begun(w, u))
  }

  /** Which completions an event leaves in flight. */
  lemma WritingAfter(cfg: Config, s: State, e: Event)
    ensures match e.action
            case OnCompletion(WriteBlobFile(c)) => Step(cfg, s, e).writing.Keys <= s.writing.Keys + {c.upload}
            case OnCompletion(CommitBlob(u)) => Step(cfg, s, e).writing.Keys == s.writing.Keys - {u}
            case Crash => Step(cfg, s, e).writing.Keys == {}
            case _ => Step(cfg, s, e).writing.Keys == s.writing.Keys
  {
    match e.action {
      case OnRetention(a) => RetentionLeavesWriting(s, a, e.now);
      case _ =>
    }
  }

  lemma RetentionLeavesWriting(s: State, a: RetentionAction, now: Time)
    ensures ApplyRetention(s, a, now).writing == s.writing
  {
  }

  /** In a guarded world nobody else is completing the upload that a thread starts to complete. */
  lemma GuardedMeets(w: World, t: L.Thread, e: Event)
    requires Guarded(w) && Legal(w, Do(t, e))
    ensures Meets(LockedUploads, w.server, e)
  {
    match e.action {
      case OnCompletion(WriteBlobFile(c)) =>
        if c.upload in w.server.writing {
          assert Begun(w, c.upload);
          var v :| v in w.busy && w.busy[v] == c.upload;
          assert Held(w, v);
          L.OneHolder(w.locks, t, v);
        }
      case _ =>
    }
  }

  lemma LockStaysGuarded(cfg: Config, w: World, m: L.Move)
    requires Guarded(w) && Legal(w, Lock(m))
    ensures Guarded(Perform(cfg, w, Lock(m)))
  {
    var w' := Perform(cfg, w, Lock(m));
    L.StepInv(w.locks, m);
    forall t ensures Held(w', t) {
      assert Held(w, t);
      if t in w.busy { assert t != m.t && L.PcOf(w'.locks, t) == L.PcOf(w.locks, t); }
    }
    forall u ensures Begun(w', u) { assert Begun(w, u); }
  }

  lemma EventStaysGuarded(cfg: Config, w: World, t: L.Thread, e: Event)
    requires Guarded(w) && Legal(w, Do(t, e))
    ensures Guarded(Perform(cfg, w, Do(t, e)))
  {
    var w' := Perform(cfg, w, Do(t, e));
    WritingAfter(cfg, w.server, e);
    L.StartInv();
    forall v ensures Held(w', v) { assert Held(w, v); }
    forall u ensures Begun(w', u) { BegunAfter(cfg, w, t, e, u); }
  }

  lemma BegunAfter(cfg: Config, w: World, t: L.Thread, e: Event, u: Id)
    requires Guarded(w) && Legal(w, Do(t, e))
    ensures Begun(Perform(cfg, w, Do(t, e)), u)
  {
    var w' := Perform(cfg, w, Do(t, e));
    WritingAfter(cfg, w.server, e);
    if u in w'.server.writing {
      if u in w.server.writing {
        assert Begun(w, u);
        var v :| v in w.busy && w.busy[v] == u;
        assert v in w'.busy && w'.busy[v] == u;
      } else {
        assert t in w'.busy && w'.busy[t] == u;
      }
    }
  }

  lemma {:induction false} PlayStaysGuarded(cfg: Config, w: World, acts: seq<Act>)
    requires Guarded(w) && LegalPlay(cfg, w, acts)
    ensures Guarded(Play(cfg, w, acts)) && Play(cfg, w, acts).server == Run(cfg, w.server, Events(acts))
    decreases |acts|
  {
    if acts != [] {
      var before, a := acts[..|acts| - 1], acts[|acts| - 1];
      PlayStaysGuarded(cfg, w, before);
      match a {
        case Lock(m) =>
          LockStaysGuarded(cfg, Play(cfg, w, before), m);
          assert Events(acts) == Events(before);
        case Do(t, e) =>
          EventStaysGuarded(cfg, Play(cfg, w, before), t, e);
          assert Events(acts)[..|Events(before)|] == Events(before);
      }
    }
  }

  // ---------------------------------------------------------------- the assumption discharged

  predicate AllowedUnlocked(s: State, e: Event) {
    && Meets(ForwardClock, s, e) && Meets(NewNodeIds, s, e) && Meets(NewUploadIds, s, e) && Meets(OrphansApart, s, e)
  }

  /** The run meets every assumption but perhaps the one on locked uploads. */
  ghost predicate UnlockedRun(cfg: Config, s: State, es: seq<Event>)
    decreases |es|
  {
    es != [] ==>
      UnlockedRun(cfg, s, es[..|es| - 1]) && AllowedUnlocked(Run(cfg, s, es[..|es| - 1]), es[|es| - 1])
  }

  /** No thread is on its way and no completion is in flight, as when the server starts. */
  predicate AtRest(w: World) {
    w.locks == L.Start() && w.busy == map[] && w.server.writing == map[]
  }

  /** Whatever the threads do, with any number of them and any interleaving, their events form an
      allowed run as soon as they meet the other four assumptions. */
  lemma {:induction false} LocksSuffice(cfg: Config, w: World, acts: seq<Act>)
    requires AtRest(w) && LegalPlay(cfg, w, acts) && UnlockedRun(cfg, w.server, Events(acts))
    ensures AllowedRun(cfg, w.server, Events(acts))
    decreases |acts|
  {
    if acts != [] {
      var before, a := acts[..|acts| - 1], acts[|acts| - 1];
      L.StartInv();
      assert Guarded(w);
      if a.Do? {
        assert Events(acts)[..|Events(before)|] == Events(before);
        LocksSuffice(cfg, w, before);
        PlayStaysGuarded(cfg, w, before);
        GuardedMeets(Play(cfg, w, before), a.thread, a.event);
      } else {
        assert Events(acts) == Events(before);
        LocksSuffice(cfg, w, before);
      }
    }
  }
}
