/** What a repeated mutation answers: the code reads the node again, and this module says exactly
    when the answer is the one given before. */
module Replies {
  import opened Common
  import opened Schema
  import opened Access
  import opened Nodes
  import opened Server
  import opened ChangeLog
  import opened Retries
  import opened Outcomes
  import opened Scenarios

  // ---------------------------------------------------------------- the same row again

  /** The owner's feed names the node no more since entry `since`, and the user, if not the owner,
      still reaches it. */
  ghost predicate StillReads(t: Tables, since: nat, owner: Id, user: Id, x: Id) {
    && !NamedSince(t.log, since, owner, x)
    && (owner == user || ShareGrant(t.nodes, t.shares, user, x).Some?)
  }

  /** A node that the user can read is read again with the same content exactly when the owner's
      feed has not named it since and the user still reaches it. */
  lemma ReadAgainExactly(cfg: Config, s: State, es: seq<Event>, user: Id, x: Id)
    requires TreeAndLog(s.tables) && Get(s.tables, user, x).Ok?
    ensures var t := Run(cfg, s, es).tables;
            Get(t, user, x) == Get(s.tables, user, x) <==>
              StillReads(t, |s.tables.log|, s.tables.nodes[x].owner, user, x)
  {
    var t, n := Run(cfg, s, es).tables, s.tables.nodes[x];
    RunKeepsTreeAndLog(cfg, s, es);
    assert LastNamed(s.tables.log, x, n.owner, n.revision);
    if x in t.nodes && t.nodes[x] == n {
      assert LastNamed(t.log, x, n.owner, n.revision);
    } else {
      assert OwnedRow(t.nodes, n.owner, x) != OwnedRow(s.tables.nodes, n.owner, x);
    }
  }

  // ---------------------------------------------------------------- create, update, restore

  /** A committed create is answered with the new node, and its repetition within the lifetime of
      the record is answered the same exactly when the node is unnamed since and still reached. */
  lemma CreateAnswersAlikeExactly(cfg: Config, s: State, c: CreateInput, now: Time, es: seq<Event>, later: Time)
    requires TreeAndLog(s.tables) && CreateTx(s.tables, c, now).Ok?
    requires ReplayOf(s.tables.processed, c.operation, c.actor, NodeCreate).Fresh?
    requires forall e :: e in es ==> e.now < now + THIRTY_DAYS
    ensures var s1 := Step(cfg, s, Event(now, OnNodes(CreateNode(c))));
            var t := Run(cfg, s1, es).tables;
            var first := Reply(s1.tables, c.actor, Answer(CreateTx(s.tables, c, now)));
            && first.Ok?
            && (Reply(t, c.actor, Answer(CreateTx(t, c, later))) == first <==>
                  StillReads(t, |s1.tables.log|, first.value.owner, c.actor, c.id))
  {
    var e := Event(now, OnNodes(CreateNode(c)));
    StepKeepsTreeAndLog(cfg, s, e);
    CreateThenGet(s.tables, c, now);
    RepeatedCreate(cfg, s, c, now, es, later);
    ReadAgainExactly(cfg, Step(cfg, s, e), es, c.actor, c.id);
  }

  lemma UpdateAnswersAlikeExactly(cfg: Config, s: State, u: UpdateInput, now: Time, es: seq<Event>, later: Time)
    requires TreeAndLog(s.tables) && UpdateTx(s.tables, u, now).Ok?
    requires ReplayOf(s.tables.processed, u.operation, u.actor, NodeUpdate).Fresh?
    requires forall e :: e in es ==> e.now < now + THIRTY_DAYS
    ensures var s1 := Step(cfg, s, Event(now, OnNodes(UpdateNode(u))));
            var t := Run(cfg, s1, es).tables;
            var first := Reply(s1.tables, u.actor, Answer(UpdateTx(s.tables, u, now)));
            && first.Ok?
            && (Reply(t, u.actor, Answer(UpdateTx(t, u, later))) == first <==>
                  StillReads(t, |s1.tables.log|, first.value.owner, u.actor, u.node))
  {
    var e := Event(now, OnNodes(UpdateNode(u)));
    StepKeepsTreeAndLog(cfg, s, e);
    UpdateThenGet(s.tables, u, now);
    RepeatedUpdate(cfg, s, u, now, es, later);
    ReadAgainExactly(cfg, Step(cfg, s, e), es, u.actor, u.node);
  }

  /** Only owners restore, so nothing but the feed matters. */
  lemma RestoreAnswersAlikeExactly(cfg: Config, s: State, q: NodeRequest, now: Time, es: seq<Event>, later: Time)
    requires TreeAndLog(s.tables) && RestoreTx(s.tables, q, now).Ok?
    requires ReplayOf(s.tables.processed, q.operation, q.actor, NodeRestore).Fresh?
    requires forall e :: e in es ==> e.now < now + THIRTY_DAYS
    ensures var s1 := Step(cfg, s, Event(now, OnNodes(RestoreNode(q))));
            var t := Run(cfg, s1, es).tables;
            var first := Reply(s1.tables, q.actor, Answer(RestoreTx(s.tables, q, now)));
            && first.Ok?
            && (Reply(t, q.actor, Answer(RestoreTx(t, q, later))) == first <==>
                  !NamedSince(t.log, |s1.tables.log|, q.actor, q.node))
  {
    var e := Event(now, OnNodes(RestoreNode(q)));
    StepKeepsTreeAndLog(cfg, s, e);
    RestoreThenGet(s.tables, q, now);
    RepeatedRestore(cfg, s, q, now, es, later);
    ReadAgainExactly(cfg, Step(cfg, s, e), es, q.actor, q.node);
  }

  lemma RestoreThenGet(t: Tables, q: NodeRequest, now: Time)
    requires RestoreTx(t, q, now).Ok? && ReplayOf(t.processed, q.operation, q.actor, NodeRestore).Fresh?
    ensures var t' := RestoreTx(t, q, now).value.tables;
            && q.node in t.nodes && t.nodes[q.node].owner == q.actor
            && Get(t', q.actor, q.node) == Ok(RestoredNode(t.nodes, t.nodes[q.node], |t'.log|, now))
  {
  }

  // ---------------------------------------------------------------- a different answer

  const RENAME := Event(0, OnNodes(UpdateNode(UpdateInput(1, 3, 102, 5, 1, [1], 1, None, false, None))))

  lemma RenameStep()
    ensures var t := Step(CONFIG, CreatedState(), RENAME).tables;
            && t.nodes.Keys == {5} && t.nodes[5] == FILE_ROW.(metadata := [1], revision := 2)
            && 100 in t.processed && t.processed[100] == CREATED
    ensures Allowed(CreatedState(), RENAME)
  {
    var t := CreatedState().tables;
    assert 5 in t.nodes && CheckedUpdate(t, RENAME.action.node.update) == Ok(None);
    assert UpdateTx(t, RENAME.action.node.update, 0).Ok?;
  }

  /** On an empty server a file is created, renamed, and its creation sent again: both answers name
      the file, with different contents. */
  lemma CreateAnswersDiffer()
    ensures var c, es := CREATE.action.node.create, [CREATE] + [RENAME];
            var t1, t2 := Step(CONFIG, Start(), CREATE).tables, Run(CONFIG, Start(), es).tables;
            var first := Reply(t1, 1, Answer(CreateTx(Start().tables, c, 0)));
            var again := Reply(t2, 1, Answer(CreateTx(t2, c, 1)));
            && AllowedRun(CONFIG, Start(), es)
            && first.Ok? && again.Ok? && first.value.metadata == [0] && again.value.metadata == [1]
  {
    CreateStep();
    RenameStep();
    assert ([CREATE] + [RENAME])[..1] == [CREATE] && [CREATE][..0] == [];
    assert Run(CONFIG, Start(), [CREATE]) == CreatedState();
    assert AllowedRun(CONFIG, Start(), []) && AllowedRun(CONFIG, Start(), [CREATE]);
  }
}
