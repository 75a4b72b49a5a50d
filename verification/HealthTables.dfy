/**
The health tables of the store and what each transaction does to them: an
append-only evidence log whose ambiguous entries can be retracted, one verdict
per input derived from the log, and one placement state per node.
 */
module HealthTables {
  import opened Common
  import opened HealthScoring
  import opened NodeScoring

  type AgentId = string

  datatype Key = Key(digest: string, input: string)

  datatype Evidence = Evidence(
    attempt: Option<string>, run: string, schedule: string, agent: AgentId, key: Key,
    class_: Class, family: Family, code: Option<FailureCode>,
    nodeWasHealthy: bool, suppressed: bool, retracted: bool, at: int)

  datatype InputRow = InputRow(verdict: InputEvaluation, probe: bool)

  datatype NodeState = Healthy | Suspect | AutoQuarantined | ManualQuarantined | Probation

  datatype NodeRow = NodeRow(state: NodeState, since: int)

  datatype Tables = Tables(log: seq<Evidence>, inputs: map<Key, InputRow>, nodes: map<AgentId, NodeRow>)

  // ----- the evidence log -----

  predicate Known(log: seq<Evidence>, attempt: Option<string>) {
    attempt.Some? && exists i :: 0 <= i < |log| && log[i].attempt == attempt
  }

  /** `INSERT OR IGNORE` under the unique index on attempts that are not null. */
  function Inserted(log: seq<Evidence>, e: Evidence): seq<Evidence> {
    if Known(log, e.attempt) then log else log + [e.(retracted := false)]
  }

  function RetractOne(e: Evidence, key: Key): Evidence {
    if e.key == key && e.class_ == Ambiguous then e.(retracted := true) else e
  }

  function Retract(log: seq<Evidence>, key: Key): seq<Evidence> {
    seq(|log|, i requires 0 <= i < |log| => RetractOne(log[i], key))
  }

  function InputView(e: Evidence): InputObservation {
    InputObservation(e.agent, e.at, e.class_, e.family, e.nodeWasHealthy)
  }

  function InputLog(log: seq<Evidence>, key: Key): set<InputObservation> {
    set i | 0 <= i < |log| && log[i].key == key :: InputView(log[i])
  }

  function NodeView(e: Evidence): NodeObservation {
    NodeObservation(e.schedule, e.key.input, e.at, e.class_, e.retracted, e.suppressed)
  }

  function NodeLog(log: seq<Evidence>, agent: AgentId, since: int): seq<NodeObservation> {
    if log == [] then [] else
      var last := log[|log| - 1];
      NodeLog(log[..|log| - 1], agent, since) + if last.agent == agent && since <= last.at then [NodeView(last)] else []
  }

  /** Every ambiguous observation of `key` has been withdrawn from node scoring. */
  ghost predicate AllRetracted(log: seq<Evidence>, key: Key) {
    forall i :: 0 <= i < |log| && log[i].key == key && log[i].class_ == Ambiguous ==> log[i].retracted
  }

  function AmbiguousAgents(log: seq<Evidence>, key: Key): set<AgentId> {
    set i | 0 <= i < |log| && log[i].key == key && log[i].class_ == Ambiguous :: log[i].agent
  }

  // ----- node placement states -----

  predicate Quarantined(state: NodeState) { state == AutoQuarantined || state == ManualQuarantined }

  function UsableOnly(observations: seq<NodeObservation>): seq<NodeObservation> {
    if observations == [] then [] else
      var last := observations[|observations| - 1];
      UsableOnly(observations[..|observations| - 1]) + if !last.retracted && !last.suppressed then [last] else []
  }

  function FunctionalOnly(observations: seq<NodeObservation>): seq<NodeObservation> {
    if observations == [] then [] else
      var last := observations[|observations| - 1];
      FunctionalOnly(observations[..|observations| - 1]) + if last.class_ == Functional then [last] else []
  }

  predicate SomeFailure(observations: seq<NodeObservation>) {
    exists i :: 0 <= i < |observations| && IsFailure(observations[i])
  }

  function ApplyEvaluation(current: NodeState, decision: Decision, observations: seq<NodeObservation>): NodeState {
    if current == ManualQuarantined then current
    else if current == AutoQuarantined then current
    else if current == Probation then
      var usable := UsableOnly(observations);
      if SomeFailure(usable) then AutoQuarantined
      else
        var functional := FunctionalOnly(usable);
        if |functional| >= 5 && |InputsOf(Elements(functional))| >= 3 then Healthy else Probation
    else match decision {
      case HealthyDecision => Healthy
      case SuspectDecision => Suspect
      case QuarantineDecision => AutoQuarantined
    }
  }

  /** The transition time moves only with the state. */
  function Moved(row: NodeRow, next: NodeState, now: int): NodeRow {
    NodeRow(next, if row.state != next then now else row.since)
  }

  function ScoringSince(row: NodeRow, now: int): int {
    if row.state == Probation then row.since else now - 15 * MINUTE
  }

  ghost predicate Rescored(row: NodeRow, log: seq<Evidence>, agent: AgentId, now: int, row': NodeRow) {
    var observations := NodeLog(log, agent, ScoringSince(row, now));
    exists recent :: Considered(recent, Elements(observations), now) &&
      row' == Moved(row, ApplyEvaluation(row.state, Score(recent, now).decision, observations), now)
  }

  /** A node without a row counts as healthy. */
  function NodeOf(nodes: map<AgentId, NodeRow>, agent: AgentId, now: int): NodeRow {
    if agent in nodes then nodes[agent] else NodeRow(Healthy, now)
  }

  function StateOf(s: Tables, agent: AgentId): NodeState {
    if agent in s.nodes then s.nodes[agent].state else Healthy
  }

  // ----- transactions -----

  datatype Op =
    | Record(e: Evidence, required: nat, now: int)
    | Grant(key: Key)
    | Consume(key: Key)
    | SetQuarantine(agent: AgentId, on: bool, now: int)

  predicate IsConfirmed(s: Tables, key: Key) {
    key in s.inputs && s.inputs[key].verdict.state == Confirmed
  }

  predicate Probing(s: Tables, key: Key) { key in s.inputs && s.inputs[key].probe }

  ghost predicate VerdictStored(s: Tables, e: Evidence, required: nat, s': Tables) {
    var log := Inserted(s.log, e);
    && e.key in s'.inputs
    && var verdict := s'.inputs[e.key].verdict;
    && IsInputEvaluation(Failures(InputLog(log, e.key)), Max(required, 2), verdict)
    && s'.inputs == s.inputs[e.key := InputRow(verdict, verdict.state == Confirmed && Probing(s, e.key))]
    && s'.log == if verdict.state == Confirmed then Retract(log, e.key) else log
  }

  /** The agents whose score the new evidence, or a retraction it causes, can change. */
  function ToRescore(s: Tables, e: Evidence, confirmed: bool): set<AgentId> {
    {e.agent} + if confirmed then AmbiguousAgents(Inserted(s.log, e), e.key) else {}
  }

  /** What scoring with this log may turn a node's row into. */
  ghost function ScoringRule(nodes: map<AgentId, NodeRow>, log: seq<Evidence>, now: int): (AgentId, NodeRow) -> bool {
    (a, row) => Rescored(NodeOf(nodes, a, now), log, a, now, row)
  }

  /** The rows of `agents` follow the rule and every other row is as it was. */
  ghost predicate UpdatedBy(rule: (AgentId, NodeRow) -> bool, nodes: map<AgentId, NodeRow>, agents: set<AgentId>,
                            nodes': map<AgentId, NodeRow>) {
    && (forall a :: a in agents ==> a in nodes' && rule(a, nodes'[a]))
    && (forall a :: a !in agents ==> (a in nodes' <==> a in nodes))
    && (forall a :: a !in agents && a in nodes ==> nodes'[a] == nodes[a])
  }

  lemma UpdateOneMore(rule: (AgentId, NodeRow) -> bool, nodes: map<AgentId, NodeRow>, done: set<AgentId>,
                      nodes': map<AgentId, NodeRow>, agent: AgentId, row: NodeRow)
    requires UpdatedBy(rule, nodes, done, nodes') && agent !in done && rule(agent, row)
    ensures UpdatedBy(rule, nodes, done + {agent}, nodes'[agent := row])
  {
  }

  ghost predicate Recorded(s: Tables, e: Evidence, required: nat, now: int, s': Tables) {
    && VerdictStored(s, e, required, s')
    && UpdatedBy(ScoringRule(s.nodes, s'.log, now), s.nodes, ToRescore(s, e, IsConfirmed(s', e.key)), s'.nodes)
  }

  /** Only a confirmed input takes a probe. */
  function Granted(s: Tables, key: Key): Tables {
    if IsConfirmed(s, key) then s.(inputs := s.inputs[key := s.inputs[key].(probe := true)]) else s
  }

  predicate Held(s: Tables, key: Key) { IsConfirmed(s, key) && !s.inputs[key].probe }

  function Consumed(s: Tables, key: Key): Tables {
    if IsConfirmed(s, key) && s.inputs[key].probe then s.(inputs := s.inputs[key := s.inputs[key].(probe := false)]) else s
  }

  /** A release is refused unless the node is quarantined. */
  predicate MaySetQuarantine(s: Tables, agent: AgentId, on: bool) { on || Quarantined(StateOf(s, agent)) }

  function QuarantineSet(s: Tables, agent: AgentId, on: bool, now: int): Tables {
    if MaySetQuarantine(s, agent, on)
    then s.(nodes := s.nodes[agent := NodeRow(if on then ManualQuarantined else Probation, now)])
    else s
  }

  ghost predicate Step(s: Tables, op: Op, s': Tables) {
    match op
    case Record(e, required, now) => Recorded(s, e, required, now, s')
    case Grant(key) => s' == Granted(s, key)
    case Consume(key) => s' == Consumed(s, key)
    case SetQuarantine(agent, on, now) => s' == QuarantineSet(s, agent, on, now)
  }

  ghost predicate IsRun(states: seq<Tables>, ops: seq<Op>) {
    && |states| == |ops| + 1 && states[0] == Tables([], map[], map[])
    && forall i :: 0 <= i < |ops| ==> Step(states[i], ops[i], states[i + 1])
  }

  // ----- what the log operations keep -----

  lemma RetractKeepsInputLog(log: seq<Evidence>, key: Key, other: Key)
    ensures InputLog(Retract(log, key), other) == InputLog(log, other)
  {
    var log' := Retract(log, key);
    forall i | 0 <= i < |log| ensures log'[i].key == log[i].key && InputView(log'[i]) == InputView(log[i]) {
    }
    forall o | o in InputLog(log, other) ensures o in InputLog(log', other) {
      var i :| 0 <= i < |log| && log[i].key == other && InputView(log[i]) == o;
      assert log'[i].key == other && InputView(log'[i]) == o;
    }
  }

  lemma InsertKeepsOtherInputs(log: seq<Evidence>, e: Evidence, other: Key)
    requires other != e.key
    ensures InputLog(Inserted(log, e), other) == InputLog(log, other)
  {
    var log' := Inserted(log, e);
    forall i | 0 <= i < |log| ensures log'[i] == log[i] {
    }
  }

  // ----- every record transaction has an outcome -----

  lemma RescoringExists(nodes: map<AgentId, NodeRow>, log: seq<Evidence>, now: int, agent: AgentId) returns (row: NodeRow)
    ensures ScoringRule(nodes, log, now)(agent, row)
  {
    var before := NodeOf(nodes, agent, now);
    var observations := NodeLog(log, agent, ScoringSince(before, now));
    var recent := ConsideredExists(Elements(observations), now);
    row := Moved(before, ApplyEvaluation(before.state, Score(recent, now).decision, observations), now);
  }

  lemma {:induction false} RescoringAllExists(nodes: map<AgentId, NodeRow>, log: seq<Evidence>, now: int, agents: set<AgentId>)
    returns (nodes': map<AgentId, NodeRow>)
    ensures UpdatedBy(ScoringRule(nodes, log, now), nodes, agents, nodes')
  {
    nodes' := nodes;
    if a :| a in agents {
      nodes' := RescoringAllExists(nodes, log, now, agents - {a});
      var row := RescoringExists(nodes, log, now, a);
      UpdateOneMore(ScoringRule(nodes, log, now), nodes, agents - {a}, nodes', a, row);
      nodes' := nodes'[a := row];
      assert agents - {a} + {a} == agents;
    }
  }

  lemma StoredVerdictExists(s: Tables, e: Evidence, required: nat) returns (s': Tables)
    ensures VerdictStored(s, e, required, s')
  {
    var log := Inserted(s.log, e);
    var verdict := VerdictExists(Failures(InputLog(log, e.key)), Max(required, 2));
    var confirmed := verdict.state == Confirmed;
    var inputs := s.inputs[e.key := InputRow(verdict, confirmed && Probing(s, e.key))];
    s' := Tables(if confirmed then Retract(log, e.key) else log, inputs, s.nodes);
  }

  lemma VerdictIgnoresNodes(s: Tables, e: Evidence, required: nat, s': Tables, nodes: map<AgentId, NodeRow>)
    requires VerdictStored(s, e, required, s')
    ensures VerdictStored(s, e, required, s'.(nodes := nodes))
  {
  }

  lemma RecordHasAnOutcome(s: Tables, e: Evidence, required: nat, now: int) returns (s': Tables)
    ensures Recorded(s, e, required, now, s')
  {
    var stored := StoredVerdictExists(s, e, required);
    var nodes := RescoringAllExists(s.nodes, stored.log, now, ToRescore(s, e, IsConfirmed(stored, e.key)));
    VerdictIgnoresNodes(s, e, required, stored, nodes);
    s' := stored.(nodes := nodes);
  }
}
