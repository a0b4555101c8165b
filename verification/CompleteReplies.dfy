/** What a repeated completion answers: it reads the stored version again, and this module says
    exactly when the answer is the first one. */
module CompleteReplies {
  import opened Common
  import opened Schema
  import opened Nodes
  import opened Uploads
  import opened Server
  import opened ChangeLog
  import opened AccessLaws
  import opened Durability

  // ---------------------------------------------------------------- the session

  /** No session is opened under the identifier again. */
  ghost predicate NotReopened(es: seq<Event>, u: Id) {
    forall e :: e in es ==> !Reopens(e, u)
  }

  predicate Reopens(e: Event, u: Id) {
    e.action.OnSessions? && e.action.session.OpenUpload? && e.action.session.session == u
  }

  /** The completed session, if it is still there, is unchanged, and none appears. */
  ghost predicate CompletedKept(sessions: map<Id, Session>, sessions': map<Id, Session>, u: Id) {
    u in sessions' ==> u in sessions && sessions'[u] == sessions[u]
  }

  lemma SessionActionKeeps(cfg: Config, s: State, a: SessionAction, now: Time, u: Id)
    requires u in s.tables.sessions ==> s.tables.sessions[u].status == Completed
    requires !Reopens(Event(now, OnSessions(a)), u)
    ensures CompletedKept(s.tables.sessions, ApplySession(cfg, s, a, now).tables.sessions, u)
  {
    match a {
      case OpenUpload(input, uid) => ReserveOnly(s.tables, input, uid, now, cfg.limit, cfg.lifetime);
      case StoreChunkFile(p) =>
      case RecordChunk(p) =>
      case AbortUpload(user, device, v) =>
      case ExpireUpload(v) =>
      case RemoveUploadFiles(v) =>
      case DropUpload(v) =>
    }
  }

  lemma ReserveOnly(t: Tables, input: UploadInput, uid: Id, now: Time, limit: nat, lifetime: Time)
    ensures var sessions := After(t, ReserveTx(t, input, uid, now, limit, lifetime)).sessions;
            forall u :: u != uid ==> CompletedKept(t.sessions, sessions, u)
  {
  }

  lemma CompletionKeepsCompleted(cfg: Config, s: State, a: CompletionAction, now: Time, u: Id)
    requires u in s.tables.sessions ==> s.tables.sessions[u].status == Completed
    ensures CompletedKept(s.tables.sessions, ApplyCompletion(cfg, s, a, now).tables.sessions, u)
  {
    if a.CommitBlob? && a.session in s.writing { CommitEffect(s, a.session, now); }
  }

  lemma RetentionKeepsSessions(s: State, a: RetentionAction, now: Time, u: Id)
    ensures CompletedKept(s.tables.sessions, ApplyRetention(s, a, now).tables.sessions, u)
  {
  }

  lemma OthersLeaveSessions(cfg: Config, s: State, e: Event)
    requires !e.action.OnSessions? && !e.action.OnCompletion? && !e.action.OnRetention?
    ensures Step(cfg, s, e).tables.sessions == s.tables.sessions
  {
    match e.action {
      case OnNodes(a) => NodesFrame(s.tables, a, e.now);
      case _ =>
    }
  }

  lemma StepKeepsCompleted(cfg: Config, s: State, e: Event, u: Id)
    requires (u in s.tables.sessions ==> s.tables.sessions[u].status == Completed) && !Reopens(e, u)
    ensures CompletedKept(s.tables.sessions, Step(cfg, s, e).tables.sessions, u)
  {
    match e.action {
      case OnSessions(a) => SessionActionKeeps(cfg, s, a, e.now, u);
      case OnCompletion(a) => CompletionKeepsCompleted(cfg, s, a, e.now, u);
      case OnRetention(a) => RetentionKeepsSessions(s, a, e.now, u);
      case _ => OthersLeaveSessions(cfg, s, e);
    }
  }

  lemma {:induction false} RunKeepsCompleted(cfg: Config, s: State, es: seq<Event>, u: Id)
    requires (u in s.tables.sessions ==> s.tables.sessions[u].status == Completed) && NotReopened(es, u)
    ensures CompletedKept(s.tables.sessions, Run(cfg, s, es).tables.sessions, u)
    decreases |es|
  {
    if es != [] {
      assert es[|es| - 1] in es;
      RunKeepsCompleted(cfg, s, es[..|es| - 1], u);
      StepKeepsCompleted(cfg, Run(cfg, s, es[..|es| - 1]), es[|es| - 1], u);
    }
  }

  // ---------------------------------------------------------------- the version

  /** A version keeps blob and revision, and a new one carries a revision above all earlier ones. */
  ghost predicate VersionKept(t: Tables, t': Tables, v: Id) {
    v in t'.versions ==>
      if v in t.versions
      then t'.versions[v].blob == t.versions[v].blob && t'.versions[v].revision == t.versions[v].revision
      else t'.versions[v].revision > |t.log|
  }

  lemma {:induction false} RewrapKeepsVersions(t: Tables, actor: Id, owner: Id, node: Id, vs: seq<RekeyVersion>, v: Id)
    requires Rewrapped(t, actor, owner, node, vs).Ok?
    ensures var t' := Rewrapped(t, actor, owner, node, vs).value;
            v in t'.versions ==>
              && v in t.versions
              && t'.versions[v].blob == t.versions[v].blob && t'.versions[v].revision == t.versions[v].revision
    decreases |vs|
  {
    if vs != [] {
      var r := vs[0];
      var row := t.versions[r.id].(wrappedKey := r.wrappedKey, scope := r.scope, keyVersion := r.version);
      RewrapKeepsVersions(t.(versions := t.versions[r.id := row]), actor, owner, node, vs[1..], v);
    }
  }

  lemma {:induction false} RekeyKeepsVersions(t: Tables, actor: Id, items: seq<RekeyItem>, now: Time, v: Id)
    requires RekeyAll(t, actor, items, now).Ok?
    ensures var t' := RekeyAll(t, actor, items, now).value;
            v in t'.versions ==>
              && v in t.versions
              && t'.versions[v].blob == t.versions[v].blob && t'.versions[v].revision == t.versions[v].revision
    decreases |items|
  {
    if items != [] {
      RewrapKeepsVersions(t, actor, t.nodes[items[0].node].owner, items[0].node, items[0].versions, v);
      RekeyKeepsVersions(RekeyOne(t, actor, items[0], now).value, actor, items[1..], now, v);
    }
  }

  lemma NodesKeepVersions(t: Tables, a: NodeAction, now: Time, v: Id)
    ensures VersionKept(t, NodeTables(t, a, now), v)
  {
    NodesFrame(t, a, now);
    if a.RekeyNodes? && RekeyTx(t, a.rekey, now).Ok? { RekeyKeepsVersions(t, a.rekey.actor, a.rekey.items, now, v); }
  }

  lemma CommitKeepsVersions(t: Tables, w: Written, now: Time, v: Id)
    ensures VersionKept(t, After(t, CommitTx(t, w, now)), v)
  {
  }

  lemma RetentionKeepsVersions(s: State, a: RetentionAction, now: Time, v: Id)
    ensures VersionKept(s.tables, ApplyRetention(s, a, now).tables, v)
  {
  }

  lemma CompletionKeepsVersions(cfg: Config, s: State, a: CompletionAction, now: Time, v: Id)
    ensures VersionKept(s.tables, ApplyCompletion(cfg, s, a, now).tables, v)
  {
    if a.CommitBlob? && a.session in s.writing { CommitKeepsVersions(s.tables, s.writing[a.session], now, v); }
  }

  lemma OthersLeaveVersions(cfg: Config, s: State, e: Event)
    requires !e.action.OnNodes? && !e.action.OnCompletion? && !e.action.OnRetention?
    ensures Step(cfg, s, e).tables.versions == s.tables.versions
  {
    match e.action {
      case OnShares(a) => assert SharingTables(s.tables, a, e.now).versions == s.tables.versions;
      case OnSessions(a) => assert ApplySession(cfg, s, a, e.now).tables.versions == s.tables.versions;
      case OnBlobs(a) => assert ApplyCollection(cfg, s, a, e.now).tables.versions == s.tables.versions;
      case ChangeAccounts(users, devices) =>
      case Crash =>
    }
  }

  lemma StepKeepsVersions(cfg: Config, s: State, e: Event, v: Id)
    ensures VersionKept(s.tables, Step(cfg, s, e).tables, v)
  {
    match e.action {
      case OnNodes(a) => NodesKeepVersions(s.tables, a, e.now, v);
      case OnCompletion(a) => CompletionKeepsVersions(cfg, s, a, e.now, v);
      case OnRetention(a) => RetentionKeepsVersions(s, a, e.now, v);
      case _ => OthersLeaveVersions(cfg, s, e);
    }
  }

  /** A version that is there with an old revision has been there all the time. */
  lemma {:induction false} OldVersionLasted(cfg: Config, s: State, es: seq<Event>, v: Id)
    requires TreeAndLog(s.tables) && v in s.tables.versions && s.tables.versions[v].revision <= |s.tables.log|
    requires v in Run(cfg, s, es).tables.versions && Run(cfg, s, es).tables.versions[v].revision <= |s.tables.log|
    ensures Lasts(cfg, s, es, v)
    decreases |es|
  {
    if es != [] {
      RunKeepsTreeAndLog(cfg, s, es[..|es| - 1]);
      StepKeepsVersions(cfg, Run(cfg, s, es[..|es| - 1]), es[|es| - 1], v);
      OldVersionLasted(cfg, s, es[..|es| - 1], v);
    }
  }

  lemma {:induction false} LastingVersionKept(cfg: Config, s: State, es: seq<Event>, v: Id)
    requires Lasts(cfg, s, es, v)
    ensures v in s.tables.versions && v in Run(cfg, s, es).tables.versions
    ensures var before, after := s.tables.versions[v], Run(cfg, s, es).tables.versions[v];
            after.blob == before.blob && after.revision == before.revision
    decreases |es|
  {
    if es != [] {
      LastingVersionKept(cfg, s, es[..|es| - 1], v);
      StepKeepsVersions(cfg, Run(cfg, s, es[..|es| - 1]), es[|es| - 1], v);
    }
  }

  // ---------------------------------------------------------------- the answer

  lemma StoredReply(s: State, u: Id, now: Time)
    requires u in s.writing && s.writing[u].request.upload == u && StoredRows(CommitTx(s.tables, s.writing[u], now))
    requires s.writing[u].request.keyVersion >= 1
    requires var w := s.writing[u]; OwnsSession(s.tables, w.request.user, w.request.device, u)
    requires s.tables.sessions[u].version == s.writing[u].session.version
    ensures var w, t, r := s.writing[u], BlobCommitted(s, u, now).tables, |s.tables.log| + 1;
            && u in t.sessions && t.sessions[u].status == Completed && t.sessions[u].version == w.session.version
            && CompleteReply(t, w.request) == Ok(CompleteResult(w.session.blob, w.session.version, r))
            && AsStored(t, w.request, w.session.version) && r == |t.log|
  {
  }

  /** A completed upload, as its commit left it. */
  ghost predicate AsStored(t: Tables, c: CompleteInput, v: Id) {
    && c.keyVersion >= 1 && OwnsSession(t, c.user, c.device, c.upload)
    && t.sessions[c.upload].status == Completed && t.sessions[c.upload].version == v
    && v in t.versions && t.versions[v].revision <= |t.log|
  }

  lemma AnswersAlikeExactly(cfg: Config, s: State, c: CompleteInput, v: Id, es: seq<Event>)
    requires BlobInv(s) && TreeAndLog(s.tables) && AllowedRun(cfg, s, es) && NotReopened(es, c.upload)
    requires AsStored(s.tables, c, v)
    ensures var t := Run(cfg, s, es).tables;
            && (c.upload in t.sessions ==> t.sessions[c.upload].status == Completed)
            && (CompleteReply(t, c) == CompleteReply(s.tables, c) <==> c.upload in t.sessions && Lasts(cfg, s, es, v))
  {
    RunKeepsBlobs(cfg, s, es);
    RunKeepsCompleted(cfg, s, es, c.upload);
    var t := Run(cfg, s, es).tables;
    if Lasts(cfg, s, es, v) {
      LastingVersionKept(cfg, s, es, v);
    } else if v in t.versions && t.versions[v].revision <= |s.tables.log| {
      OldVersionLasted(cfg, s, es, v);
    }
  }

  /** A stored completion is answered with its version, and the same request sent again at any point
      of any run is answered the same exactly when its session, which goes only with its target, and
      its version, which goes with the target or by pruning, have lasted. */
  lemma CompleteAnswersAlikeExactly(cfg: Config, s: State, u: Id, now: Time, s1: State, es: seq<Event>)
    requires BlobInv(s) && TreeAndLog(s.tables) && Allowed(s, Event(now, OnCompletion(CommitBlob(u))))
    requires u in s.writing && StoredRows(CommitTx(s.tables, s.writing[u], now))
    requires var c := s.writing[u].request; c.keyVersion >= 1 && OwnsSession(s.tables, c.user, c.device, u)
    requires s1 == Step(cfg, s, Event(now, OnCompletion(CommitBlob(u))))
    requires AllowedRun(cfg, s1, es) && NotReopened(es, u)
    ensures var w, t := s.writing[u], Run(cfg, s1, es).tables;
            && AsStored(s1.tables, w.request, w.session.version)
            && CompleteReply(s1.tables, w.request)
               == Ok(CompleteResult(w.session.blob, w.session.version, |s1.tables.log|))
            && (u in t.sessions ==> t.sessions[u].status == Completed)
            && (CompleteReply(t, w.request) == CompleteReply(s1.tables, w.request) <==>
                  u in t.sessions && Lasts(cfg, s1, es, w.session.version))
  {
    var e := Event(now, OnCompletion(CommitBlob(u)));
    assert InFlightOk(s, u);
    StoredReply(s, u, now);
    StepKeepsTreeAndLog(cfg, s, e);
    StepKeepsBlobs(cfg, s, e);
    AnswersAlikeExactly(cfg, s1, s.writing[u].request, s.writing[u].session.version, es);
  }
}
