/** A second refusal of one run by one node: what must come in between, and runs in which it happens. */
module SecondRefusals {
  import opened Common
  import opened HealthScoring
  import opened HealthTables
  import opened Dispatch
  import opened DispatchRuns

  /** An offer of the run is out at another node than the one that refused `x`. */
  ghost predicate OutElsewhere(w: World, x: AttemptId) {
    x in w.attempts && exists y :: y in w.attempts && Live(w.attempts[y].phase) && w.attempts[y].agent != w.attempts[x].agent
  }

  /** A retry after the evidence about `x` was withdrawn, or its withdrawal while the run is out elsewhere. */
  ghost predicate Reopens(w: World, act: Action, w': World, x: AttemptId) {
    || (act.Retry? && Withdrawn(w.tables.log, x))
    || (act.Health? && !Withdrawn(w.tables.log, x) && Withdrawn(w'.tables.log, x) && OutElsewhere(w, x))
  }

  ghost predicate Reopened(worlds: seq<World>, acts: seq<Action>, n: nat, x: AttemptId)
    requires n <= |acts| < |worlds|
  {
    exists k :: 0 <= k < n && Reopens(worlds[k], acts[k], worlds[k + 1], x)
  }

  predicate Wanted(w: World) { w.run == Queued || w.run == Running }

  // ----- a withdrawal fails the waiting run -----

  lemma RetractionConfirms(s: Tables, e: Evidence, required: nat, s': Tables, i: nat)
    requires VerdictStored(s, e, required, s')
    requires i < |s'.log| && s'.log[i].retracted && (i < |s.log| ==> !s.log[i].retracted)
    ensures IsConfirmed(s', e.key) && s'.log[i].key == e.key
  {
    assert Inserted(s.log, e)[i].retracted ==> i < |s.log|;
  }

  lemma FreshlyWithdrawn(log: seq<Evidence>, log': seq<Evidence>, x: AttemptId) returns (i: nat)
    requires Grows(log, log') && !Withdrawn(log, x) && Withdrawn(log', x)
    ensures i < |log'| && About(log'[i], x) && log'[i].retracted && (i < |log| ==> !log[i].retracted)
  {
    if Known(log, Some(x)) {
      i :| 0 <= i < |log| && About(log[i], x) && !log[i].retracted;
      assert About(log'[i], x);
    } else {
      i :| 0 <= i < |log'| && log'[i].attempt == Some(x);
      assert About(log'[i], x);
      assert i < |log| ==> log[i].attempt == Some(x);
    }
  }

  lemma WithdrawalFences(w: World, run: string, op: Op, tables: Tables, x: AttemptId)
    requires Enabled(w, run, Health(op, tables)) && AttemptOk(w, run, x) && x in w.rejections
    requires !Withdrawn(w.tables.log, x) && Withdrawn(tables.log, x)
    ensures Fences(op, tables, run)
  {
    HealthLog(w, run, op, tables);
    var i := FreshlyWithdrawn(w.tables.log, tables.log, x);
    RowsKeepTelling(w, run, tables.log, x, w.attempts[x].agent, w.attempts[x].phase.code);
    RetractionConfirms(w.tables, op.e, op.required, tables, i);
  }

  /** While the evidence of a refusal stands, a running run is out at another node. */
  lemma StandingMeansElsewhere(w: World, x: AttemptId)
    requires OneOffer(w) && w.run == Running && x in w.rejections && x in w.attempts && !Withdrawn(w.tables.log, x)
    requires forall y :: OfferOk(w, x, y)
    ensures OutElsewhere(w, x)
  {
    var y :| y in w.attempts && Live(w.attempts[y].phase);
    assert OfferOk(w, x, y);
  }

  /** The run may be asked for although the evidence about `x` is withdrawn. */
  ghost predicate Asked(w: World, x: AttemptId) { x in w.rejections && Withdrawn(w.tables.log, x) && Wanted(w) }

  lemma AskedByHealth(w: World, run: string, op: Op, tables: Tables, x: AttemptId)
    requires Enabled(w, run, Health(op, tables)) && OneOffer(w) && AttemptOk(w, run, x) && forall y :: OfferOk(w, x, y)
    requires Asked(Apply(w, run, Health(op, tables)), x) && !Withdrawn(w.tables.log, x)
    ensures OutElsewhere(w, x)
  {
    WithdrawalFences(w, run, op, tables, x);
    StandingMeansElsewhere(w, x);
  }

  lemma AskedBefore(w: World, run: string, act: Action, x: AttemptId)
    requires Enabled(w, run, act) && OneOffer(w) && AttemptOk(w, run, x) && forall y :: OfferOk(w, x, y)
    requires Asked(Apply(w, run, act), x)
    ensures Reopens(w, act, Apply(w, run, act), x) || Asked(w, x)
  {
    if act.Health? && !Withdrawn(w.tables.log, x) {
      AskedByHealth(w, run, act.op, act.tables, x);
    }
  }

  // ----- whole runs -----

  lemma Knows(worlds: seq<World>, run: string, acts: seq<Action>, n: nat, x: AttemptId)
    requires IsDispatchRun(worlds, run, acts) && n <= |acts|
    ensures OneOffer(worlds[n]) && AttemptOk(worlds[n], run, x) && forall y :: OfferOk(worlds[n], x, y)
  {
    RunStaysGood(worlds, run, acts, n);
  }

  /** What does not hold at first and later does has a cause on the way. */
  lemma {:induction false} SomeCause(holds: nat -> bool, cause: nat -> bool, n: nat)
    requires holds(n) && !holds(0)
    requires forall k: nat :: k < n && holds(k + 1) ==> cause(k) || holds(k)
    ensures exists k: nat :: k < n && cause(k)
  {
    if !cause(n - 1) {
      SomeCause(holds, cause, n - 1);
    }
  }

  lemma ReopenedEarlier(worlds: seq<World>, acts: seq<Action>, m: nat, n: nat, x: AttemptId)
    requires m <= n <= |acts| < |worlds| && Reopened(worlds, acts, m, x)
    ensures Reopened(worlds, acts, n, x)
  {
  }

  lemma AskedStep(worlds: seq<World>, run: string, acts: seq<Action>, k: nat, x: AttemptId)
    requires IsDispatchRun(worlds, run, acts) && k < |acts| && Asked(worlds[k + 1], x)
    ensures Reopens(worlds[k], acts[k], worlds[k + 1], x) || Asked(worlds[k], x)
  {
    assert worlds[k + 1] == Apply(worlds[k], run, acts[k]);
    Knows(worlds, run, acts, k, x);
    AskedBefore(worlds[k], run, acts[k], x);
  }

  lemma AskedOnlyIfReopened(worlds: seq<World>, run: string, acts: seq<Action>, n: nat, x: AttemptId)
    requires IsDispatchRun(worlds, run, acts) && n <= |acts| && Asked(worlds[n], x)
    ensures Reopened(worlds, acts, n, x)
  {
    var holds := (k: nat) => k <= |acts| && Asked(worlds[k], x);
    var cause := (k: nat) => k < |acts| && Reopens(worlds[k], acts[k], worlds[k + 1], x);
    forall k: nat | k < n && holds(k + 1) ensures cause(k) || holds(k) {
      AskedStep(worlds, run, acts, k, x);
    }
    SomeCause(holds, cause, n);
  }

  /** The node that refused as `x` holds the offer `y`. */
  predicate AtRefuser(w: World, x: AttemptId, y: AttemptId) {
    && x in w.rejections && x in w.attempts && y in w.attempts
    && Live(w.attempts[y].phase) && w.attempts[x].agent == w.attempts[y].agent
  }

  lemma AtRefuserBefore(w: World, run: string, act: Action, x: AttemptId, y: AttemptId)
    requires Enabled(w, run, act) && OneOffer(w) && AttemptOk(w, run, x) && act != Create(y)
    requires AtRefuser(Apply(w, run, act), x, y)
    ensures AtRefuser(w, x, y)
  {
    LiveBefore(w, run, act, y);
  }

  lemma OfferedWhenAsked(w: World, run: string, x: AttemptId, y: AttemptId)
    requires Enabled(w, run, Create(y)) && AttemptOk(w, run, x)
    requires AtRefuser(Apply(w, run, Create(y)), x, y) && OfferOk(Apply(w, run, Create(y)), x, y)
    ensures Asked(w, x)
  {
  }

  lemma OfferedStep(worlds: seq<World>, run: string, acts: seq<Action>, k: nat, x: AttemptId, y: AttemptId)
    requires IsDispatchRun(worlds, run, acts) && k < |acts| && AtRefuser(worlds[k + 1], x, y)
    ensures Asked(worlds[k], x) || AtRefuser(worlds[k], x, y)
  {
    assert worlds[k + 1] == Apply(worlds[k], run, acts[k]);
    Knows(worlds, run, acts, k, x);
    if acts[k] == Create(y) {
      Knows(worlds, run, acts, k + 1, x);
      OfferedWhenAsked(worlds[k], run, x, y);
    } else {
      AtRefuserBefore(worlds[k], run, acts[k], x, y);
    }
  }

  lemma OfferedAfterAsked(worlds: seq<World>, run: string, acts: seq<Action>, n: nat, x: AttemptId, y: AttemptId) returns (k: nat)
    requires IsDispatchRun(worlds, run, acts) && n <= |acts| && AtRefuser(worlds[n], x, y)
    ensures k < n && Asked(worlds[k], x)
  {
    var holds := (k: nat) => k <= |acts| && AtRefuser(worlds[k], x, y);
    var cause := (k: nat) => k < |acts| && Asked(worlds[k], x);
    forall k: nat | k < n && holds(k + 1) ensures cause(k) || holds(k) {
      OfferedStep(worlds, run, acts, k, x, y);
    }
    SomeCause(holds, cause, n);
    k :| k < n && cause(k);
  }

  /** Refusals `i` and `j` are `x` and `y`, by one node. */
  predicate SameNode(w: World, i: nat, j: nat, x: AttemptId, y: AttemptId) {
    && i < j < |w.rejections| && w.rejections[i] == x && w.rejections[j] == y
    && x in w.attempts && y in w.attempts && w.attempts[x].agent == w.attempts[y].agent
  }

  lemma RefusalBefore(w: World, run: string, act: Action, i: nat, j: nat, x: AttemptId, y: AttemptId)
    requires Enabled(w, run, act) && SameNode(Apply(w, run, act), i, j, x, y)
    requires forall z :: AttemptOk(w, run, z)
    ensures AtRefuser(w, x, y) || SameNode(w, i, j, x, y)
  {
    assert AttemptOk(w, run, w.rejections[i]);
    RejectionsStay(w, run, act, i);
    if j < |w.rejections| {
      assert AttemptOk(w, run, w.rejections[j]);
      RejectionsStay(w, run, act, j);
    } else {
      NewRejectionWasOffered(w, run, act);
    }
  }

  lemma RefusedStep(worlds: seq<World>, run: string, acts: seq<Action>, k: nat, i: nat, j: nat, x: AttemptId, y: AttemptId)
    requires IsDispatchRun(worlds, run, acts) && k < |acts| && SameNode(worlds[k + 1], i, j, x, y)
    ensures AtRefuser(worlds[k], x, y) || SameNode(worlds[k], i, j, x, y)
  {
    assert worlds[k + 1] == Apply(worlds[k], run, acts[k]);
    RunStaysGood(worlds, run, acts, k);
    RefusalBefore(worlds[k], run, acts[k], i, j, x, y);
  }

  lemma RefusedAfterOffered(worlds: seq<World>, run: string, acts: seq<Action>, n: nat, i: nat, j: nat,
                            x: AttemptId, y: AttemptId) returns (k: nat)
    requires IsDispatchRun(worlds, run, acts) && n <= |acts| && SameNode(worlds[n], i, j, x, y)
    ensures k < n && AtRefuser(worlds[k], x, y)
  {
    var holds := (k: nat) => k <= |acts| && SameNode(worlds[k], i, j, x, y);
    var cause := (k: nat) => k < |acts| && AtRefuser(worlds[k], x, y);
    forall k: nat | k < n && holds(k + 1) ensures cause(k) || holds(k) {
      RefusedStep(worlds, run, acts, k, i, j, x, y);
    }
    SomeCause(holds, cause, n);
    k :| k < n && cause(k);
  }

  /**
  Between two refusals of the run by one node the run was retried with the first
  one's evidence withdrawn, or that evidence was withdrawn while the run was out
  at another node.
   */
  lemma SecondRefusalNeedsReopening(worlds: seq<World>, run: string, acts: seq<Action>, n: nat, i: nat, j: nat,
                                    x: AttemptId, y: AttemptId)
    requires IsDispatchRun(worlds, run, acts) && n <= |acts| && SameNode(worlds[n], i, j, x, y)
    ensures Reopened(worlds, acts, n, x)
  {
    var offered := RefusedAfterOffered(worlds, run, acts, n, i, j, x, y);
    var asked := OfferedAfterAsked(worlds, run, acts, offered, x, y);
    AskedOnlyIfReopened(worlds, run, acts, asked, x);
    ReopenedEarlier(worlds, acts, asked, n, x);
  }

  // ----- both happen -----

  datatype Trace = Trace(worlds: seq<World>, acts: seq<Action>)

  ghost predicate Runs(t: Trace, run: string) { IsDispatchRun(t.worlds, run, t.acts) }

  ghost predicate EndsIn(t: Trace, run: string, w: World) { Runs(t, run) && t.worlds[|t.acts|] == w }

  predicate NeverRetried(t: Trace) { forall k :: 0 <= k < |t.acts| ==> !t.acts[k].Retry? }

  lemma Then(t: Trace, run: string, w: World, act: Action) returns (t': Trace)
    requires EndsIn(t, run, w) && Enabled(w, run, act)
    ensures EndsIn(t', run, Apply(w, run, act))
    ensures NeverRetried(t) && !act.Retry? ==> NeverRetried(t')
  {
    t' := Trace(t.worlds + [Apply(w, run, act)], t.acts + [act]);
    forall i | 0 <= i < |t'.acts|
      ensures Enabled(t'.worlds[i], run, t'.acts[i]) && t'.worlds[i + 1] == Apply(t'.worlds[i], run, t'.acts[i])
    {
      if i < |t.acts| {
        assert t'.worlds[i] == t.worlds[i] && t'.worlds[i + 1] == t.worlds[i + 1] && t'.acts[i] == t.acts[i];
      } else {
        assert t'.worlds[i] == w && t'.acts[i] == act;
      }
    }
  }

  /** The queue lists the run and its evidence does not speak against the node. */
  ghost predicate Ready(w: World, run: string, agent: AgentId, a: AttemptId) {
    && w.dispatcher == Idle && w.run == Queued && (forall b :: b in w.attempts ==> !Unclassified(w, b))
    && a !in w.attempts && !Known(w.tables.log, Some(a)) && agent !in AvoidedAgents(w.tables.log, run)
  }

  function OfferedWorld(w: World, agent: AgentId, a: AttemptId): World {
    w.(run := Running, attempts := w.attempts[a := Attempt(agent, Offered)])
  }

  lemma Offer(t: Trace, run: string, w: World, agent: AgentId, a: AttemptId) returns (t': Trace)
    requires EndsIn(t, run, w) && Ready(w, run, agent, a)
    ensures EndsIn(t', run, OfferedWorld(w, agent, a)) && (NeverRetried(t) ==> NeverRetried(t'))
  {
    var avoided, alternative := AvoidedAgents(w.tables.log, run), RequiresAlternative(w.tables.log, run);
    t' := Then(t, run, w, List);
    t' := Then(t', run, w.(dispatcher := Listed), ReadAvoided);
    t' := Then(t', run, w.(dispatcher := Avoiding(avoided)), ReadAlternative);
    t' := Then(t', run, w.(dispatcher := Choosing(avoided, alternative)), Reserve(agent));
    t' := Then(t', run, w.(dispatcher := Reserved(agent)), Create(a));
  }

  function RefusedWorld(w: World, agent: AgentId, a: AttemptId): World {
    w.(attempts := w.attempts[a := Attempt(agent, Phase.Rejected(AssignmentRejected))], rejections := w.rejections + [a])
  }

  lemma OfferRefused(t: Trace, run: string, w: World, agent: AgentId, a: AttemptId) returns (t': Trace)
    requires EndsIn(t, run, w) && Ready(w, run, agent, a)
    ensures EndsIn(t', run, RefusedWorld(w, agent, a)) && (NeverRetried(t) ==> NeverRetried(t'))
  {
    var offered := OfferedWorld(w, agent, a);
    t' := Offer(t, run, w, agent, a);
    t' := Then(t', run, offered, Reject(a, AssignmentRejected));
    assert Apply(offered, run, Reject(a, AssignmentRejected)) == RefusedWorld(w, agent, a);
  }

  function Refusal(attempt: AttemptId, run: string, agent: AgentId, key: Key): Evidence {
    Evidence(Some(attempt), run, "", agent, key, Ambiguous, ProcessLaunch, Some(AssignmentRejected), true, false, false, 0)
  }

  /** One node's failures are not enough to confirm the input. */
  lemma OneNodeOnlySuspects(s: Tables, e: Evidence, s': Tables)
    requires s.log == [] && VerdictStored(s, e, 2, s') && !e.retracted
    ensures !IsConfirmed(s', e.key) && s'.log == [e]
  {
    var log := Inserted(s.log, e);
    assert log == [e];
    var failures := Failures(InputLog(log, e.key));
    forall f ensures |NodesOf(failures, f)| < 2 {
      SubsetSize(NodesOf(failures, f), {e.agent});
    }
    ConfirmedExactlyWhen(failures, 2, s'.inputs[e.key].verdict);
  }

  predicate SameFailure(e: Evidence, f: Evidence) {
    && e.key == f.key && e.class_ == f.class_ == Ambiguous && e.family == f.family
    && e.nodeWasHealthy && f.nodeWasHealthy && e.attempt != f.attempt && e.agent != f.agent
  }

  lemma BothNodesCount(e: Evidence, f: Evidence)
    requires SameFailure(e, f)
    ensures |NodesOf(Failures(InputLog([e, f], e.key)), e.family)| >= 2
  {
    var log := InputLog([e, f], e.key);
    assert [e, f][0] == e && [e, f][1] == f;
    assert log == {InputView(e), InputView(f)};
    var failures := Failures(log);
    assert Counts(InputView(e), log) && Counts(InputView(f), log);
    assert (e.family, e.agent) in failures && (e.family, f.agent) in failures;
    SubsetSize({e.agent, f.agent}, NodesOf(failures, e.family));
  }

  /** The same failure on two nodes is. */
  lemma TwoNodesConfirm(s: Tables, e: Evidence, f: Evidence, s': Tables)
    requires s.log == [e] && VerdictStored(s, f, 2, s') && SameFailure(e, f) && !f.retracted
    ensures IsConfirmed(s', e.key) && s'.log == [e.(retracted := true), f.(retracted := true)]
  {
    assert s.log[0] == e;
    assert Inserted(s.log, f) == [e, f];
    BothNodesCount(e, f);
    ConfirmedExactlyWhen(Failures(InputLog([e, f], e.key)), 2, s'.inputs[e.key].verdict);
    assert Retract([e, f], e.key) == [e.(retracted := true), f.(retracted := true)];
  }

  predicate RefusedTwiceBy(w: World, agent: AgentId) {
    && w.rejections == ["x", "y"] && "x" in w.attempts && "y" in w.attempts
    && w.attempts["x"].agent == agent && w.attempts["y"].agent == agent
  }

  lemma FirstRecord(e: Evidence) returns (tables: Tables)
    requires !e.retracted
    ensures Step(Tables([], map[], map[]), Record(e, 2, 0), tables) && tables.log == [e] && !IsConfirmed(tables, e.key)
  {
    var s := Tables([], map[], map[]);
    tables := RecordHasAnOutcome(s, e, 2, 0);
    OneNodeOnlySuspects(s, e, tables);
  }

  lemma RecordUnconfirmed(t: Trace, run: string, w: World, e: Evidence, tables: Tables) returns (t': Trace)
    requires EndsIn(t, run, w) && Describes(w, run, e)
    requires Step(w.tables, Record(e, 2, 0), tables) && !IsConfirmed(tables, e.key)
    ensures EndsIn(t', run, w.(tables := tables)) && (NeverRetried(t) ==> NeverRetried(t'))
  {
    t' := Then(t, run, w, Health(Record(e, 2, 0), tables));
  }

  const START := World(Tables([], map[], map[]), Queued, map[], Idle, [])

  lemma FirstOffer(run: string) returns (t: Trace)
    ensures EndsIn(t, run, RefusedWorld(START, "a", "x")) && NeverRetried(t)
  {
    t := OfferRefused(Trace([START], []), run, START, "a", "x");
  }

  lemma FirstRefusal(run: string, key: Key) returns (t: Trace, w: World)
    ensures EndsIn(t, run, w) && NeverRetried(t)
    ensures w.run == Queued && w.dispatcher == Idle && w.rejections == ["x"] && w.tables.log == [Refusal("x", run, "a", key)]
    ensures w.attempts == map["x" := Attempt("a", Phase.Rejected(AssignmentRejected))]
  {
    t := FirstOffer(run);
    w := RefusedWorld(START, "a", "x");
    var e := Refusal("x", run, "a", key);
    var tables := FirstRecord(e);
    t := RecordUnconfirmed(t, run, w, e, tables);
    w := w.(tables := tables);
  }

  lemma ReadyElsewhere(w: World, run: string, key: Key, agent: AgentId, a: AttemptId)
    requires w.run == Queued && w.dispatcher == Idle && a != "x" && agent != "a"
    requires w.attempts == map["x" := Attempt("a", Phase.Rejected(AssignmentRejected))]
    requires w.tables.log == [Refusal("x", run, "a", key)]
    ensures Ready(w, run, agent, a)
  {
    assert w.tables.log[0].attempt == Some("x");
  }

  /** The same failure of another run at another node withdraws what stood against the first node. */
  lemma OtherRunConfirms(t: Trace, run: string, w: World, key: Key, other: string) returns (t': Trace, tables: Tables)
    requires EndsIn(t, run, w) && w.tables.log == [Refusal("x", run, "a", key)] && "z" !in w.attempts
    ensures EndsIn(t', run, w.(tables := tables, run := if w.run == Queued then RunFailed else w.run))
    ensures NeverRetried(t) ==> NeverRetried(t')
    ensures |tables.log| == 2 && tables.log[0].retracted && tables.log[1].retracted
    ensures tables.log[0].attempt == Some("x") && tables.log[1].attempt == Some("z")
  {
    var e, f := Refusal("x", run, "a", key), Refusal("z", other, "b", key);
    tables := RecordHasAnOutcome(w.tables, f, 2, 0);
    TwoNodesConfirm(w.tables, e, f, tables);
    assert tables.log[0].run == run && tables.log[0].key == key;
    t' := Then(t, run, w, Health(Record(f, 2, 0), tables));
  }

  /** With the evidence withdrawn the first node is asked again. */
  lemma ReadyAgain(w: World, run: string)
    requires w.dispatcher == Idle && w.run == Queued && |w.tables.log| == 2
    requires w.tables.log[0].retracted && w.tables.log[1].retracted
    requires w.tables.log[0].attempt == Some("x") && w.tables.log[1].attempt == Some("z") && "y" !in w.attempts
    requires forall b :: b in w.attempts && b != "x" ==> w.attempts[b].phase == OfferFailed
    ensures Ready(w, run, "a", "y")
  {
    assert Known(w.tables.log, Some("x"));
  }

  /** A run fails with the confirmed input, is retried, and is refused by the same node again. */
  lemma RetriedRunIsRefusedAgain(run: string, other: string, key: Key) returns (t: Trace, w: World)
    ensures EndsIn(t, run, w) && RefusedTwiceBy(w, "a")
  {
    t, w := FirstRefusal(run, key);
    var tables;
    t, tables := OtherRunConfirms(t, run, w, key, other);
    w := w.(tables := tables, run := RunFailed);
    t := Then(t, run, w, Retry);
    w := w.(run := Queued);
    ReadyAgain(w, run);
    t := OfferRefused(t, run, w, "a", "y");
    w := RefusedWorld(w, "a", "y");
  }

  /** The confirmation finds the run out at a second node; when that offer fails, the first refuses it again. */
  lemma RunOutElsewhereIsRefusedAgain(run: string, other: string, key: Key) returns (t: Trace, w: World)
    ensures EndsIn(t, run, w) && NeverRetried(t) && RefusedTwiceBy(w, "a")
  {
    t, w := FirstRefusal(run, key);
    ReadyElsewhere(w, run, key, "c", "o");
    t := Offer(t, run, w, "c", "o");
    w := OfferedWorld(w, "c", "o");
    var tables;
    t, tables := OtherRunConfirms(t, run, w, key, other);
    w := w.(tables := tables);
    t := Then(t, run, w, Release("o"));
    w := Put(w, "o", OfferFailed).(run := Queued);
    ReadyAgain(w, run);
    t := OfferRefused(t, run, w, "a", "y");
    w := RefusedWorld(w, "a", "y");
  }
}
