/** A node that refused a run before acceptance is not offered it again while its evidence stands. */
module DispatchRuns {
  import opened Common
  import opened HealthScoring
  import opened HealthTables
  import opened Dispatch

  // ----- how the log changes -----

  ghost predicate About(e: Evidence, x: AttemptId) { e.attempt == Some(x) }

  /** Rows stay in place, and only ambiguous ones are ever retracted. */
  ghost predicate Grows(log: seq<Evidence>, log': seq<Evidence>) {
    && |log| <= |log'|
    && forall i :: 0 <= i < |log| ==> log'[i] == log[i] || (log[i].class_ == Ambiguous && log'[i] == log[i].(retracted := true))
  }

  /** The last row of `log'` is the inserted evidence, whether or not it was retracted at once. */
  ghost predicate Adds(log: seq<Evidence>, log': seq<Evidence>, e: Evidence) {
    && |log'| == |log| + 1 && log'[|log|].(retracted := false) == e.(retracted := false)
    && (log'[|log|].retracted ==> e.class_ == Ambiguous)
  }

  lemma RecordLog(s: Tables, e: Evidence, required: nat, s': Tables)
    requires VerdictStored(s, e, required, s')
    ensures Grows(s.log, s'.log)
    ensures if Known(s.log, e.attempt) then |s'.log| == |s.log| else Adds(s.log, s'.log, e)
  {
    var log := Inserted(s.log, e);
    forall i | 0 <= i < |s.log| ensures log[i] == s.log[i] {
    }
    var retracted := Retract(log, e.key);
    forall i | 0 <= i < |log| ensures retracted[i] == RetractOne(log[i], e.key) {
    }
  }

  /** Every row about `x` describes the refusal of this run by `agent`. */
  ghost predicate RowsTell(log: seq<Evidence>, x: AttemptId, run: string, agent: AgentId, code: FailureCode) {
    forall i :: 0 <= i < |log| && About(log[i], x) ==>
      && log[i].run == run && log[i].agent == agent && log[i].code == Some(code)
      && log[i].class_ == Classify(code).class_ && (log[i].retracted ==> code == AssignmentRejected)
  }

  /** The evidence about `x` is recorded and all of it retracted. */
  ghost predicate Withdrawn(log: seq<Evidence>, x: AttemptId) {
    Known(log, Some(x)) && forall i :: 0 <= i < |log| && About(log[i], x) ==> log[i].retracted
  }

  ghost predicate LogStep(log: seq<Evidence>, log': seq<Evidence>, w: World, run: string) {
    Grows(log, log') && (|log'| == |log| || exists e :: Adds(log, log', e) && !Known(log, e.attempt) && Describes(w, run, e))
  }

  lemma HealthLog(w: World, run: string, op: Op, tables: Tables)
    requires Step(w.tables, op, tables) && (op.Record? ==> Describes(w, run, op.e))
    ensures LogStep(w.tables.log, tables.log, w, run)
  {
    if op.Record? {
      RecordLog(w.tables, op.e, op.required, tables);
    }
  }

  lemma KnownStays(log: seq<Evidence>, log': seq<Evidence>, x: AttemptId)
    requires Grows(log, log') && Known(log, Some(x))
    ensures Known(log', Some(x))
  {
    var i :| 0 <= i < |log| && log[i].attempt == Some(x);
    assert log'[i].attempt == Some(x);
  }

  lemma WithdrawnStays(w: World, run: string, log': seq<Evidence>, x: AttemptId)
    requires LogStep(w.tables.log, log', w, run) && Withdrawn(w.tables.log, x)
    ensures Withdrawn(log', x)
  {
    var log := w.tables.log;
    KnownStays(log, log', x);
    forall i | 0 <= i < |log'| && About(log'[i], x) ensures log'[i].retracted {
      if i < |log| {
        assert About(log[i], x);
      }
    }
  }

  lemma RowsKeepTelling(w: World, run: string, log': seq<Evidence>, x: AttemptId, agent: AgentId, code: FailureCode)
    requires LogStep(w.tables.log, log', w, run) && RowsTell(w.tables.log, x, run, agent, code)
    requires x in w.attempts && w.attempts[x] == Attempt(agent, Phase.Rejected(code)) && Rejection(code)
    ensures RowsTell(log', x, run, agent, code)
  {
    var log := w.tables.log;
    forall i | 0 <= i < |log'| && About(log'[i], x)
      ensures && log'[i].run == run && log'[i].agent == agent && log'[i].code == Some(code)
              && log'[i].class_ == Classify(code).class_ && (log'[i].retracted ==> code == AssignmentRejected)
    {
      if i < |log| {
        assert About(log[i], x);
      } else {
        var e :| Adds(log, log', e) && !Known(log, e.attempt) && Describes(w, run, e);
        assert e.attempt == Some(x);
      }
    }
  }

  // ----- the invariant -----

  ghost predicate NoneLive(w: World) {
    forall a :: a in w.attempts ==> !Live(w.attempts[a].phase)
  }

  /** One attempt is out while the run is running, at most one after a cancel, and otherwise none. */
  ghost predicate OneOffer(w: World) {
    && (w.dispatcher != Idle || w.run == Queued || w.run == RunFailed || w.run == RunSucceeded ==> NoneLive(w))
    && (w.run == Running ==> exists a :: a in w.attempts && Live(w.attempts[a].phase))
    && forall a, b :: a in w.attempts && b in w.attempts && Live(w.attempts[a].phase) && Live(w.attempts[b].phase) ==> a == b
  }

  /** What the dispatcher has read so far keeps it away from the node that refused `x`. */
  ghost predicate Heeds(w: World, x: AttemptId)
    requires x in w.attempts
  {
    var log, agent := w.tables.log, w.attempts[x].agent;
    match w.dispatcher
    case Idle => true
    case Listed => Known(log, Some(x))
    case Avoiding(avoided) => Known(log, Some(x)) && (Withdrawn(log, x) || agent in avoided)
    case Choosing(avoided, alternative) => Withdrawn(log, x) || (agent in avoided && alternative)
    case Reserved(chosen) => agent == chosen ==> Withdrawn(log, x)
  }

  ghost predicate AttemptOk(w: World, run: string, x: AttemptId) {
    && (x in w.rejections <==> x in w.attempts && w.attempts[x].phase.Rejected?)
    && (x in w.attempts && Live(w.attempts[x].phase) ==> !Known(w.tables.log, Some(x)))
    && (x in w.attempts && w.attempts[x].phase.Rejected? ==>
          var a := w.attempts[x];
          && Rejection(a.phase.code) && RowsTell(w.tables.log, x, run, a.agent, a.phase.code)
          && Heeds(w, x))
  }

  /** A node that has refused the run holds a new offer only if the evidence was withdrawn. */
  ghost predicate OfferOk(w: World, x: AttemptId, y: AttemptId) {
    (&& x in w.rejections && x in w.attempts && y in w.attempts && Live(w.attempts[y].phase)
     && w.attempts[x].agent == w.attempts[y].agent) ==> Withdrawn(w.tables.log, x)
  }

  lemma UnheardIsRead(w: World, run: string, x: AttemptId)
    requires AttemptOk(w, run, x) && x in w.rejections && Known(w.tables.log, Some(x)) && !Withdrawn(w.tables.log, x)
    ensures w.attempts[x].agent in AvoidedAgents(w.tables.log, run) && RequiresAlternative(w.tables.log, run)
  {
    var log := w.tables.log;
    var i :| 0 <= i < |log| && About(log[i], x) && !log[i].retracted;
    assert Avoids(log[i], run);
  }

  /** Whatever else changes, a step of the log alone keeps what is known of an attempt. */
  lemma LogStepKeepsAttempt(w: World, run: string, w': World, x: AttemptId)
    requires LogStep(w.tables.log, w'.tables.log, w, run) && AttemptOk(w, run, x)
    requires w'.attempts == w.attempts && w'.dispatcher == w.dispatcher && w'.rejections == w.rejections
    ensures AttemptOk(w', run, x)
  {
    var log, log' := w.tables.log, w'.tables.log;
    if x in w.attempts && w.attempts[x].phase.Rejected? {
      RowsKeepTelling(w, run, log', x, w.attempts[x].agent, w.attempts[x].phase.code);
      if Known(log, Some(x)) {
        KnownStays(log, log', x);
      }
      if Withdrawn(log, x) {
        WithdrawnStays(w, run, log', x);
      }
    } else if x in w.attempts && Live(w.attempts[x].phase) {
      StillUnknown(w, run, log', x);
    }
  }

  lemma HealthKeepsAttempt(w: World, run: string, op: Op, tables: Tables, x: AttemptId)
    requires Enabled(w, run, Health(op, tables)) && AttemptOk(w, run, x)
    ensures AttemptOk(Apply(w, run, Health(op, tables)), run, x)
  {
    HealthLog(w, run, op, tables);
    LogStepKeepsAttempt(w, run, Apply(w, run, Health(op, tables)), x);
  }

  lemma StillUnknown(w: World, run: string, log': seq<Evidence>, x: AttemptId)
    requires LogStep(w.tables.log, log', w, run) && !Known(w.tables.log, Some(x))
    requires x in w.attempts && Live(w.attempts[x].phase)
    ensures !Known(log', Some(x))
  {
    var log := w.tables.log;
    forall i | 0 <= i < |log'| ensures log'[i].attempt != Some(x) {
      if i < |log| {
        assert log[i].attempt != Some(x);
      } else {
        var e :| Adds(log, log', e) && !Known(log, e.attempt) && Describes(w, run, e);
      }
    }
  }

  predicate OfDispatcher(act: Action) {
    act.List? || act.ReadAvoided? || act.ReadAlternative? || act.Reserve? || act.GiveUp? || act.Create?
  }

  lemma DispatcherKeepsAttempt(w: World, run: string, act: Action, x: AttemptId)
    requires Enabled(w, run, act) && OneOffer(w) && AttemptOk(w, run, x)
    requires OfDispatcher(act)
    ensures AttemptOk(Apply(w, run, act), run, x)
  {
    if x in w.rejections && Known(w.tables.log, Some(x)) && !Withdrawn(w.tables.log, x) {
      UnheardIsRead(w, run, x);
    }
    assert act.List? && x in w.attempts ==> !Unclassified(w, x);
  }

  lemma OthersKeepAttempt(w: World, run: string, act: Action, x: AttemptId)
    requires Enabled(w, run, act) && OneOffer(w) && AttemptOk(w, run, x)
    requires !OfDispatcher(act) && !act.Health?
    ensures AttemptOk(Apply(w, run, act), run, x)
  {
    if act.Reject? {
      assert w.dispatcher == Idle;
      assert forall i :: 0 <= i < |w.tables.log| && x == act.attempt ==> !About(w.tables.log[i], x);
    }
  }

  lemma StepKeepsAttempt(w: World, run: string, act: Action, x: AttemptId)
    requires Enabled(w, run, act) && OneOffer(w) && AttemptOk(w, run, x)
    ensures AttemptOk(Apply(w, run, act), run, x)
  {
    if act.Health? {
      HealthKeepsAttempt(w, run, act.op, act.tables, x);
    } else if OfDispatcher(act) {
      DispatcherKeepsAttempt(w, run, act, x);
    } else {
      OthersKeepAttempt(w, run, act, x);
    }
  }

  /** An attempt that is out stays out, unless the step ends it and the run with it. */
  lemma LiveStays(w: World, run: string, act: Action, a: AttemptId)
    requires Enabled(w, run, act) && OneOffer(w) && a in w.attempts && Live(w.attempts[a].phase)
    requires Apply(w, run, act).run == Running
    ensures a in Apply(w, run, act).attempts && Live(Apply(w, run, act).attempts[a].phase)
  {
  }

  lemma StepKeepsRunningOut(w: World, run: string, act: Action)
    requires Enabled(w, run, act) && OneOffer(w) && Apply(w, run, act).run == Running
    ensures var w' := Apply(w, run, act); exists a :: a in w'.attempts && Live(w'.attempts[a].phase)
  {
    var w' := Apply(w, run, act);
    if w.run == Running {
      var a :| a in w.attempts && Live(w.attempts[a].phase);
      LiveStays(w, run, act, a);
    } else {
      assert act.Create? && Live(w'.attempts[act.attempt].phase);
    }
  }

  lemma DispatcherKeepsOneOffer(w: World, run: string, act: Action)
    requires Enabled(w, run, act) && OneOffer(w) && OfDispatcher(act)
    ensures OneOffer(Apply(w, run, act))
  {
    if Apply(w, run, act).run == Running {
      StepKeepsRunningOut(w, run, act);
    }
  }

  lemma OthersKeepOneOffer(w: World, run: string, act: Action)
    requires Enabled(w, run, act) && OneOffer(w) && !OfDispatcher(act)
    ensures OneOffer(Apply(w, run, act))
  {
    if Apply(w, run, act).run == Running {
      StepKeepsRunningOut(w, run, act);
    }
  }

  lemma StepKeepsOneOffer(w: World, run: string, act: Action)
    requires Enabled(w, run, act) && OneOffer(w)
    ensures OneOffer(Apply(w, run, act))
  {
    if OfDispatcher(act) {
      DispatcherKeepsOneOffer(w, run, act);
    } else {
      OthersKeepOneOffer(w, run, act);
    }
  }

  lemma StepWithdrawn(w: World, run: string, act: Action, x: AttemptId)
    requires Enabled(w, run, act) && Withdrawn(w.tables.log, x)
    ensures Withdrawn(Apply(w, run, act).tables.log, x)
  {
    if act.Health? {
      HealthLog(w, run, act.op, act.tables);
      WithdrawnStays(w, run, act.tables.log, x);
    }
  }

  /** A live attempt was live before, with the same agent, unless it has just been created. */
  lemma LiveBefore(w: World, run: string, act: Action, y: AttemptId)
    requires Enabled(w, run, act) && act != Create(y)
    requires y in Apply(w, run, act).attempts && Live(Apply(w, run, act).attempts[y].phase)
    ensures y in w.attempts && Live(w.attempts[y].phase) && w.attempts[y].agent == Apply(w, run, act).attempts[y].agent
  {
  }

  /** A refused attempt was refused before, unless it is being refused now. */
  lemma RejectedBefore(w: World, run: string, act: Action, x: AttemptId)
    requires Enabled(w, run, act) && AttemptOk(w, run, x)
    requires x in Apply(w, run, act).rejections && x in Apply(w, run, act).attempts && !(act.Reject? && act.attempt == x)
    ensures x in w.rejections && x in w.attempts && w.attempts[x].agent == Apply(w, run, act).attempts[x].agent
  {
  }

  lemma StepKeepsOffer(w: World, run: string, act: Action, x: AttemptId, y: AttemptId)
    requires Enabled(w, run, act) && OneOffer(w) && AttemptOk(w, run, x) && OfferOk(w, x, y)
    ensures OfferOk(Apply(w, run, act), x, y)
  {
    if Withdrawn(w.tables.log, x) {
      StepWithdrawn(w, run, act, x);
    }
    var w' := Apply(w, run, act);
    if x in w'.rejections && x in w'.attempts && y in w'.attempts && Live(w'.attempts[y].phase) && w'.attempts[x].agent == w'.attempts[y].agent {
      if act == Create(y) {
        RejectedBefore(w, run, act, x);
        assert Withdrawn(w.tables.log, x);
      } else {
        LiveBefore(w, run, act, y);
        if !(act.Reject? && act.attempt == x) {
          RejectedBefore(w, run, act, x);
          assert Withdrawn(w.tables.log, x);
        }
      }
    }
  }

  // ----- whole runs -----

  /** Of two refusals by one node, the earlier one's evidence has been withdrawn. */
  ghost predicate OrderOk(w: World) {
    forall i, j :: 0 <= i < j < |w.rejections| && w.rejections[i] in w.attempts && w.rejections[j] in w.attempts
      && w.attempts[w.rejections[i]].agent == w.attempts[w.rejections[j]].agent
      ==> Withdrawn(w.tables.log, w.rejections[i])
  }

  ghost predicate Good(w: World, run: string) {
    && OneOffer(w) && OrderOk(w)
    && (forall x :: AttemptOk(w, run, x))
    && (forall x, y :: OfferOk(w, x, y))
  }

  /** The refusals so far stay where they are, with their nodes. */
  lemma RejectionsStay(w: World, run: string, act: Action, i: nat)
    requires Enabled(w, run, act) && i < |w.rejections| && AttemptOk(w, run, w.rejections[i])
    ensures var w' := Apply(w, run, act);
            && |w.rejections| <= |w'.rejections| <= |w.rejections| + 1 && w'.rejections[i] == w.rejections[i]
            && w.rejections[i] in w.attempts && w.rejections[i] in w'.attempts
            && w'.attempts[w.rejections[i]].agent == w.attempts[w.rejections[i]].agent
  {
  }

  /** A refusal just added was an offer before. */
  lemma NewRejectionWasOffered(w: World, run: string, act: Action)
    requires Enabled(w, run, act) && |w.rejections| < |Apply(w, run, act).rejections|
    ensures var w' := Apply(w, run, act);
            var y := w'.rejections[|w.rejections|];
            && y in w.attempts && Live(w.attempts[y].phase) && y in w'.attempts && w'.attempts[y].agent == w.attempts[y].agent
  {
  }

  lemma StepKeepsOrder(w: World, run: string, act: Action)
    requires Good(w, run) && Enabled(w, run, act)
    ensures OrderOk(Apply(w, run, act))
  {
    var w' := Apply(w, run, act);
    forall i, j | 0 <= i < j < |w'.rejections| && w'.rejections[i] in w'.attempts && w'.rejections[j] in w'.attempts
      && w'.attempts[w'.rejections[i]].agent == w'.attempts[w'.rejections[j]].agent
      ensures Withdrawn(w'.tables.log, w'.rejections[i])
    {
      StepKeepsPair(w, run, act, i, j);
    }
  }

  lemma StepKeepsPair(w: World, run: string, act: Action, i: nat, j: nat)
    requires Good(w, run) && Enabled(w, run, act) && i < j < |Apply(w, run, act).rejections|
    requires var w' := Apply(w, run, act);
             && w'.rejections[i] in w'.attempts && w'.rejections[j] in w'.attempts
             && w'.attempts[w'.rejections[i]].agent == w'.attempts[w'.rejections[j]].agent
    ensures Withdrawn(Apply(w, run, act).tables.log, Apply(w, run, act).rejections[i])
  {
    var w' := Apply(w, run, act);
    assert |w'.rejections| <= |w.rejections| + 1;
    var x, y := w.rejections[i], w'.rejections[j];
    assert AttemptOk(w, run, x);
    RejectionsStay(w, run, act, i);
    if j < |w.rejections| {
      assert AttemptOk(w, run, w.rejections[j]);
      RejectionsStay(w, run, act, j);
    } else {
      NewRejectionWasOffered(w, run, act);
      assert OfferOk(w, x, y);
    }
    StepWithdrawn(w, run, act, x);
  }

  lemma StepKeepsGood(w: World, run: string, act: Action)
    requires Good(w, run) && Enabled(w, run, act)
    ensures Good(Apply(w, run, act), run)
  {
    StepKeepsOneOffer(w, run, act);
    StepKeepsOrder(w, run, act);
    forall x ensures AttemptOk(Apply(w, run, act), run, x) {
      StepKeepsAttempt(w, run, act, x);
    }
    forall x, y ensures OfferOk(Apply(w, run, act), x, y) {
      StepKeepsOffer(w, run, act, x, y);
    }
  }

  lemma {:induction false} RunStaysGood(worlds: seq<World>, run: string, acts: seq<Action>, n: nat)
    requires IsDispatchRun(worlds, run, acts) && n <= |acts|
    ensures Good(worlds[n], run)
  {
    if n > 0 {
      RunStaysGood(worlds, run, acts, n - 1);
      assert worlds[n - 1 + 1] == Apply(worlds[n - 1], run, acts[n - 1]);
      StepKeepsGood(worlds[n - 1], run, acts[n - 1]);
    }
  }

  /** While evidence of a refusal stands, no reservation for the run returns the node that refused it. */
  lemma RefusingNodeIsNotReserved(worlds: seq<World>, run: string, acts: seq<Action>, n: nat, x: AttemptId)
    requires IsDispatchRun(worlds, run, acts) && n < |acts| && acts[n].Reserve?
    requires x in worlds[n].rejections && !Withdrawn(worlds[n].tables.log, x)
    ensures x in worlds[n].attempts && worlds[n].attempts[x].agent != acts[n].agent
  {
    RunStaysGood(worlds, run, acts, n);
    assert AttemptOk(worlds[n], run, x);
  }

  /**
  A node refuses a run before acceptance a second time only if the evidence of
  its first refusal was withdrawn; a refusal over parameter bindings never is,
  so it is the node's last.
   */
  lemma RefusedOncePerNode(worlds: seq<World>, run: string, acts: seq<Action>, n: nat, i: nat, j: nat)
    requires IsDispatchRun(worlds, run, acts) && n <= |acts| && i < j < |worlds[n].rejections|
    ensures var w := worlds[n];
            var x, y := w.rejections[i], w.rejections[j];
            && x in w.attempts && y in w.attempts
            && (w.attempts[x].agent == w.attempts[y].agent ==>
                  Withdrawn(w.tables.log, x) && w.attempts[x].phase == Phase.Rejected(AssignmentRejected))
  {
    RunStaysGood(worlds, run, acts, n);
    var w := worlds[n];
    var x, y := w.rejections[i], w.rejections[j];
    assert AttemptOk(w, run, x) && AttemptOk(w, run, y);
    if w.attempts[x].agent == w.attempts[y].agent {
      var k :| 0 <= k < |w.tables.log| && w.tables.log[k].attempt == Some(x);
      assert About(w.tables.log[k], x);
    }
  }
}
