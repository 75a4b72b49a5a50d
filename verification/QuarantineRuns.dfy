/**
Quarantine over every run of the health tables: the only way out is an
administrator's reset, and the only way on from there is proven work.
 */
module QuarantineRuns {
  import opened Common
  import opened HealthScoring
  import opened NodeScoring
  import opened HealthTables

  // ----- what the log shows about a node since a moment -----

  predicate Shows(e: Evidence, agent: AgentId, since: int) {
    e.agent == agent && since <= e.at && !e.retracted && !e.suppressed
  }

  predicate ShowsWork(e: Evidence, agent: AgentId, since: int) { Shows(e, agent, since) && e.class_ == Functional }

  function WorkRows(log: seq<Evidence>, agent: AgentId, since: int): set<int> {
    set i | 0 <= i < |log| && ShowsWork(log[i], agent, since)
  }

  function WorkInputs(log: seq<Evidence>, agent: AgentId, since: int): set<string> {
    set i | 0 <= i < |log| && ShowsWork(log[i], agent, since) :: log[i].key.input
  }

  ghost predicate NoFailureShown(log: seq<Evidence>, agent: AgentId, since: int) {
    forall i :: 0 <= i < |log| && Shows(log[i], agent, since) ==>
                  log[i].class_ != Ambiguous && log[i].class_ != StrongNodeLocal
  }

  /** Five functional results over three inputs since `since`, and no usable failure since then. */
  ghost predicate Proven(log: seq<Evidence>, agent: AgentId, since: int) {
    && |WorkRows(log, agent, since)| >= 5 && |WorkInputs(log, agent, since)| >= 3
    && NoFailureShown(log, agent, since)
  }

  ghost function Shown(log: seq<Evidence>, agent: AgentId, since: int): seq<NodeObservation> {
    UsableOnly(NodeLog(log, agent, since))
  }

  lemma ShownSplit(log: seq<Evidence>, agent: AgentId, since: int)
    requires log != []
    ensures var front, last := log[..|log| - 1], log[|log| - 1];
            Shown(log, agent, since) ==
              if Shows(last, agent, since) then Shown(front, agent, since) + [NodeView(last)] else Shown(front, agent, since)
  {
    var last, before := log[|log| - 1], NodeLog(log[..|log| - 1], agent, since);
    assert before + [] == before;
    var more := before + [NodeView(last)];
    assert more[..|more| - 1] == before;
    assert UsableOnly(before) + [] == UsableOnly(before);
  }

  lemma {:induction false} FailuresShown(log: seq<Evidence>, agent: AgentId, since: int)
    ensures SomeFailure(Shown(log, agent, since)) <==> !NoFailureShown(log, agent, since)
  {
    if log != [] {
      var front, last := log[..|log| - 1], log[|log| - 1];
      FailuresShown(front, agent, since);
      ShownSplit(log, agent, since);
      FailureAppend(Shown(front, agent, since), NodeView(last));
      NoFailureAppend(log, agent, since);
    }
  }

  lemma NoFailureAppend(log: seq<Evidence>, agent: AgentId, since: int)
    requires log != []
    ensures var n := |log| - 1;
            NoFailureShown(log, agent, since) <==>
              NoFailureShown(log[..n], agent, since) && (Shows(log[n], agent, since) ==> !IsFailure(NodeView(log[n])))
  {
    var front := log[..|log| - 1];
    assert forall i :: 0 <= i < |front| ==> front[i] == log[i];
  }

  lemma FailureAppend(s: seq<NodeObservation>, o: NodeObservation)
    ensures SomeFailure(s + [o]) <==> SomeFailure(s) || IsFailure(o)
  {
    var t := s + [o];
    assert forall i :: 0 <= i < |s| ==> t[i] == s[i];
    assert t[|s|] == o;
  }

  lemma FunctionalAppend(s: seq<NodeObservation>, o: NodeObservation)
    ensures FunctionalOnly(s + [o]) == if o.class_ == Functional then FunctionalOnly(s) + [o] else FunctionalOnly(s)
    ensures InputsOf(Elements(s + [o])) == InputsOf(Elements(s)) + {o.input}
  {
    assert (s + [o])[..|s|] == s;
    assert FunctionalOnly(s) + [] == FunctionalOnly(s);
    ElementsAppend(s, [o]);
    assert Elements([o]) == {o};
  }

  lemma {:induction false} FunctionalRows(log: seq<Evidence>, agent: AgentId, since: int)
    ensures |FunctionalOnly(Shown(log, agent, since))| == |WorkRows(log, agent, since)|
    ensures InputsOf(Elements(FunctionalOnly(Shown(log, agent, since)))) == WorkInputs(log, agent, since)
  {
    if log != [] {
      var front, last := log[..|log| - 1], log[|log| - 1];
      FunctionalRows(front, agent, since);
      ShownSplit(log, agent, since);
      WorkAppend(log, agent, since);
      FunctionalAppend(Shown(front, agent, since), NodeView(last));
      FunctionalAppend(FunctionalOnly(Shown(front, agent, since)), NodeView(last));
    }
  }

  lemma WorkAppend(log: seq<Evidence>, agent: AgentId, since: int)
    requires log != []
    ensures var n := |log| - 1;
            var work := ShowsWork(log[n], agent, since);
            && |WorkRows(log, agent, since)| == |WorkRows(log[..n], agent, since)| + (if work then 1 else 0)
            && WorkInputs(log, agent, since) == WorkInputs(log[..n], agent, since) + (if work then {log[n].key.input} else {})
  {
    var n := |log| - 1;
    var front := log[..n];
    assert forall i :: 0 <= i < n ==> front[i] == log[i];
    var rows := WorkRows(front, agent, since);
    assert n !in rows;
    assert WorkRows(log, agent, since) == rows + if ShowsWork(log[n], agent, since) then {n} else {};
  }

  // ----- one step -----

  /** What scoring may do with a row, given what the log shows. */
  ghost predicate RowMove(row: NodeRow, log: seq<Evidence>, agent: AgentId, row': NodeRow) {
    && (Quarantined(row.state) ==> row' == row)
    && (row'.state == Probation ==> row' == row)
    && (row.state == Probation && !Quarantined(row'.state) && row' != row ==>
          row'.state == Healthy && Proven(log, agent, row.since))
  }

  lemma ScoringMovesRow(row: NodeRow, log: seq<Evidence>, agent: AgentId, now: int, decision: Decision)
    ensures RowMove(row, log, agent,
                    Moved(row, ApplyEvaluation(row.state, decision, NodeLog(log, agent, ScoringSince(row, now))), now))
  {
    FailuresShown(log, agent, row.since);
    FunctionalRows(log, agent, row.since);
  }

  lemma RescoreStep(row: NodeRow, log: seq<Evidence>, agent: AgentId, now: int, row': NodeRow)
    requires Rescored(row, log, agent, now, row')
    ensures RowMove(row, log, agent, row')
  {
    var observations := NodeLog(log, agent, ScoringSince(row, now));
    var recent :| Considered(recent, Elements(observations), now) &&
      row' == Moved(row, ApplyEvaluation(row.state, Score(recent, now).decision, observations), now);
    ScoringMovesRow(row, log, agent, now, Score(recent, now).decision);
  }

  ghost predicate IsReset(op: Op, agent: AgentId) { op.SetQuarantine? && op.agent == agent && !op.on }

  /** All the moves one transaction can make with one node. */
  ghost predicate NodeMove(s: Tables, op: Op, s': Tables, agent: AgentId) {
    && (Quarantined(StateOf(s, agent)) && !Quarantined(StateOf(s', agent)) ==>
          IsReset(op, agent) && StateOf(s', agent) == Probation)
    && (StateOf(s', agent) == Probation ==>
          || (IsReset(op, agent) && Quarantined(StateOf(s, agent)) && s'.nodes[agent] == NodeRow(Probation, op.now))
          || (StateOf(s, agent) == Probation && s'.nodes[agent] == s.nodes[agent]))
    && (StateOf(s, agent) == Probation && StateOf(s', agent) != Probation && !Quarantined(StateOf(s', agent)) ==>
          StateOf(s', agent) == Healthy && Proven(s'.log, agent, s.nodes[agent].since))
  }

  lemma NodeStep(s: Tables, op: Op, s': Tables, agent: AgentId)
    requires Step(s, op, s')
    ensures NodeMove(s, op, s', agent)
  {
    if op.Record? {
      var agents := ToRescore(s, op.e, IsConfirmed(s', op.e.key));
      if agent in agents {
        RescoreStep(NodeOf(s.nodes, agent, op.now), s'.log, agent, op.now, s'.nodes[agent]);
      }
    }
  }

  // ----- whole runs -----

  /** What a run looks like to someone who watches one node. */
  ghost predicate Watched(states: seq<Tables>, ops: seq<Op>, agent: AgentId) {
    && |states| == |ops| + 1 && StateOf(states[0], agent) == Healthy
    && forall i :: 0 <= i < |ops| ==> NodeMove(states[i], ops[i], states[i + 1], agent)
  }

  lemma RunIsWatched(states: seq<Tables>, ops: seq<Op>, agent: AgentId)
    requires IsRun(states, ops)
    ensures Watched(states, ops, agent)
  {
    forall i | 0 <= i < |ops| ensures NodeMove(states[i], ops[i], states[i + 1], agent) {
      NodeStep(states[i], ops[i], states[i + 1], agent);
    }
  }

  lemma QuarantineLeftOnlyByReset(states: seq<Tables>, ops: seq<Op>, agent: AgentId, i: nat)
    requires IsRun(states, ops) && i < |ops|
    requires Quarantined(StateOf(states[i], agent)) && !Quarantined(StateOf(states[i + 1], agent))
    ensures IsReset(ops[i], agent) && states[i + 1].nodes[agent] == NodeRow(Probation, ops[i].now)
  {
    NodeStep(states[i], ops[i], states[i + 1], agent);
  }

  /** The node has been on probation since the reset at step `r`, up to state `k`. */
  ghost predicate ProbationSince(states: seq<Tables>, ops: seq<Op>, agent: AgentId, r: nat, k: nat)
    requires |states| == |ops| + 1
  {
    && r < k <= |ops| && IsReset(ops[r], agent) && Quarantined(StateOf(states[r], agent))
    && forall m :: r < m <= k ==> agent in states[m].nodes && states[m].nodes[agent] == NodeRow(Probation, ops[r].now)
  }

  lemma {:induction false} ProbationBeganWithReset(states: seq<Tables>, ops: seq<Op>, agent: AgentId, k: nat) returns (r: nat)
    requires Watched(states, ops, agent) && k <= |ops| && StateOf(states[k], agent) == Probation
    ensures ProbationSince(states, ops, agent, r, k)
  {
    assert k > 0;
    assert NodeMove(states[k - 1], ops[k - 1], states[k - 1 + 1], agent);
    if StateOf(states[k - 1], agent) == Probation {
      r := ProbationBeganWithReset(states, ops, agent, k - 1);
    } else {
      r := k - 1;
    }
  }

  lemma {:induction false} ProvenAfterQuarantine(states: seq<Tables>, ops: seq<Op>, agent: AgentId, i: nat, j: nat)
    returns (k: nat)
    requires Watched(states, ops, agent) && i < j <= |ops|
    requires Quarantined(StateOf(states[i], agent))
    requires StateOf(states[j], agent) == Healthy || StateOf(states[j], agent) == Suspect
    ensures i < k < j && StateOf(states[k], agent) == Probation
    ensures StateOf(states[k + 1], agent) == Healthy && Proven(states[k + 1].log, agent, states[k].nodes[agent].since)
    decreases j
  {
    assert NodeMove(states[j - 1], ops[j - 1], states[j - 1 + 1], agent);
    if StateOf(states[j - 1], agent) == Probation {
      k := j - 1;
    } else {
      k := ProvenAfterQuarantine(states, ops, agent, i, j - 1);
    }
  }

  /**
  A node that was quarantined and now takes full work went through an
  administrator's reset and then, still on that probation, proved itself: five
  functional results over three inputs since the reset and no usable failure.
   */
  lemma RecoveredOnlyByProvenProbation(states: seq<Tables>, ops: seq<Op>, agent: AgentId, i: nat, j: nat)
    returns (r: nat, k: nat)
    requires IsRun(states, ops) && i < j <= |ops|
    requires Quarantined(StateOf(states[i], agent))
    requires StateOf(states[j], agent) == Healthy || StateOf(states[j], agent) == Suspect
    ensures i <= r < k < j && ProbationSince(states, ops, agent, r, k)
    ensures StateOf(states[k + 1], agent) == Healthy && Proven(states[k + 1].log, agent, ops[r].now)
  {
    RunIsWatched(states, ops, agent);
    k := ProvenAfterQuarantine(states, ops, agent, i, j);
    r := ProbationBeganWithReset(states, ops, agent, k);
    assert states[k].nodes[agent] == NodeRow(Probation, ops[r].now);
  }
}
