/** The store's health transactions, each proved to be one step of the tables. */
module HealthStore {
  import opened Common
  import opened HealthScoring
  import opened NodeScoring
  import opened HealthTables

  method SelectInput(log: seq<Evidence>, key: Key) returns (r: seq<InputObservation>)
    ensures Elements(r) == InputLog(log, key)
  {
    r := [];
    for i := 0 to |log|
      invariant forall o :: o in r ==> o in InputLog(log, key)
      invariant forall k :: 0 <= k < i && log[k].key == key ==> InputView(log[k]) in r
    {
      if log[i].key == key {
        r := r + [InputView(log[i])];
      }
    }
  }

  method SelectNode(log: seq<Evidence>, agent: AgentId, since: int) returns (r: seq<NodeObservation>)
    ensures r == NodeLog(log, agent, since)
  {
    r := [];
    for i := 0 to |log|
      invariant r == NodeLog(log[..i], agent, since)
    {
      assert log[..i + 1][..i] == log[..i];
      if log[i].agent == agent && since <= log[i].at {
        r := r + [NodeView(log[i])];
      }
    }
    assert log[..|log|] == log;
  }

  class Store {
    var log: seq<Evidence>
    var inputs: map<Key, InputRow>
    var nodes: map<AgentId, NodeRow>

    function State(): Tables
      reads this
    {
      Tables(log, inputs, nodes)
    }

    constructor ()
      ensures State() == Tables([], map[], map[])
    {
      log, inputs, nodes := [], map[], map[];
    }

    method Rescore(agent: AgentId, now: int)
      modifies this`nodes
      ensures agent in nodes && Rescored(NodeOf(old(nodes), agent, now), log, agent, now, nodes[agent])
      ensures nodes == old(nodes)[agent := nodes[agent]]
    {
      var current := NodeOf(nodes, agent, now);
      var observations := SelectNode(log, agent, ScoringSince(current, now));
      var evaluation := EvaluateNodeHealth(observations, now);
      var next := ApplyEvaluation(current.state, evaluation.decision, observations);
      nodes := nodes[agent := Moved(current, next, now)];
    }

    /** Scores one more agent; `start` is the table before the first. */
    method RescoreNext(agent: AgentId, now: int, ghost start: map<AgentId, NodeRow>, ghost done: set<AgentId>)
      requires UpdatedBy(ScoringRule(start, log, now), start, done, nodes) && agent !in done
      modifies this`nodes
      ensures UpdatedBy(ScoringRule(start, log, now), start, done + {agent}, nodes)
    {
      ghost var before := nodes;
      assert NodeOf(before, agent, now) == NodeOf(start, agent, now);
      Rescore(agent, now);
      UpdateOneMore(ScoringRule(start, log, now), start, done, before, agent, nodes[agent]);
    }

    method RescoreAll(agents: set<AgentId>, now: int)
      modifies this`nodes
      ensures UpdatedBy(ScoringRule(old(nodes), log, now), old(nodes), agents, nodes)
    {
      var todo := agents;
      ghost var done: set<AgentId> := {};
      while todo != {}
        invariant Splits(agents, done, todo)
        invariant UpdatedBy(ScoringRule(old(nodes), log, now), old(nodes), done, nodes)
        decreases |todo|
      {
        var agent :| agent in todo;
        MoveOne(agents, done, todo, agent);
        RescoreNext(agent, now, old(nodes), done);
        todo, done := todo - {agent}, done + {agent};
      }
      assert done == agents;
    }

    /** Stores the new evidence and the verdict it gives, and returns the agents to score again. */
    method StoreVerdict(e: Evidence, required: nat) returns (agents: set<AgentId>)
      modifies this`log, this`inputs
      ensures VerdictStored(old(State()), e, required, State())
      ensures agents == ToRescore(old(State()), e, IsConfirmed(State(), e.key))
    {
      log := Inserted(log, e);
      var observations := SelectInput(log, e.key);
      var verdict := EvaluateInputHealth(observations, required);
      inputs := inputs[e.key := InputRow(verdict, verdict.state == Confirmed && e.key in inputs && inputs[e.key].probe)];
      agents := {e.agent};
      if verdict.state == Confirmed {
        agents := agents + AmbiguousAgents(log, e.key);
        log := Retract(log, e.key);
      }
    }

    method RecordEvidence(e: Evidence, required: nat, now: int)
      modifies this
      ensures Step(old(State()), Record(e, required, now), State())
    {
      var agents := StoreVerdict(e, required);
      ghost var stored := State();
      RescoreAll(agents, now);
      assert VerdictStored(old(State()), e, required, State()) by {
        assert State() == stored.(nodes := nodes);
      }
    }

    method GrantInputProbe(key: Key) returns (ok: bool)
      modifies this`inputs
      ensures Step(old(State()), Grant(key), State()) && ok == old(IsConfirmed(State(), key))
    {
      ok := key in inputs && inputs[key].verdict.state == Confirmed;
      if ok {
        inputs := inputs[key := inputs[key].(probe := true)];
      }
    }

    method ConsumeProbeOrIsHeld(key: Key) returns (held: bool)
      modifies this`inputs
      ensures Step(old(State()), Consume(key), State()) && held == old(Held(State(), key))
    {
      if key !in inputs || inputs[key].verdict.state != Confirmed {
        held := false;
      } else if inputs[key].probe {
        inputs := inputs[key := inputs[key].(probe := false)];
        held := false;
      } else {
        held := true;
      }
    }

    method SetNodeManualQuarantine(agent: AgentId, on: bool, now: int) returns (ok: bool)
      modifies this`nodes
      ensures Step(old(State()), SetQuarantine(agent, on, now), State())
      ensures ok == (on || old(Quarantined(StateOf(State(), agent))))
    {
      var current := NodeOf(nodes, agent, now);
      ok := on || Quarantined(current.state);
      if ok {
        nodes := nodes[agent := NodeRow(if on then ManualQuarantined else Probation, now)];
      }
    }
  }
}
