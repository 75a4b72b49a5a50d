/**
Dispatch of one run: the dispatcher's separate reads, the offers it makes, and
everything that may happen to the run, its attempts and the evidence in between.
 */
module Dispatch {
  import opened Common
  import opened HealthScoring
  import opened HealthTables

  type AttemptId = string

  datatype RunState = Queued | Running | RunSucceeded | RunFailed | RunCancelled

  datatype Phase = Offered | Accepted | Expiring | OfferFailed | Late | Finished(pending: bool) | Rejected(code: FailureCode)

  datatype Attempt = Attempt(agent: AgentId, phase: Phase)

  /** Where the one dispatch loop is with this run, and what it has read. */
  datatype Dispatcher =
    | Idle
    | Listed
    | Avoiding(avoided: set<AgentId>)
    | Choosing(avoided: set<AgentId>, alternative: bool)
    | Reserved(agent: AgentId)

  /** `rejections` lists the attempts refused before acceptance, in order. */
  datatype World = World(
    tables: Tables, run: RunState, attempts: map<AttemptId, Attempt>, dispatcher: Dispatcher, rejections: seq<AttemptId>)

  predicate Live(p: Phase) { p == Offered || p == Accepted || p == Expiring }

  // ----- what the dispatcher reads -----

  predicate Rejection(code: FailureCode) { code == ParameterBindingFailed || code == AssignmentRejected }

  predicate Avoids(e: Evidence, run: string) {
    e.run == run && (e.class_ == Ambiguous || e.class_ == StrongNodeLocal) && !e.retracted
  }

  /** retry_avoided_agents */
  function AvoidedAgents(log: seq<Evidence>, run: string): set<AgentId> {
    set i | 0 <= i < |log| && Avoids(log[i], run) :: log[i].agent
  }

  /** retry_requires_alternative_agent */
  predicate RequiresAlternative(log: seq<Evidence>, run: string) {
    exists i :: 0 <= i < |log| && log[i].run == run && !log[i].retracted && log[i].code.Some? && Rejection(log[i].code.value)
  }

  /** The reservation, with its fall-back to avoided nodes, may return `agent`. */
  predicate MayReserve(avoided: set<AgentId>, alternative: bool, agent: AgentId) {
    agent !in avoided || (avoided != {} && !alternative)
  }

  /** An attempt whose failure the queue query still waits to see classified. */
  predicate Unclassified(w: World, a: AttemptId) {
    a in w.attempts && (w.attempts[a].phase.Rejected? || w.attempts[a].phase == Finished(true)) && !Known(w.tables.log, Some(a))
  }

  // ----- steps -----

  datatype Action =
    | Health(op: Op, tables: Tables)
    | List
    | ReadAvoided
    | ReadAlternative
    | Reserve(agent: AgentId)
    | GiveUp
    | Create(attempt: AttemptId)
    | Release(attempt: AttemptId)
    | Accept(attempt: AttemptId)
    | Expire(attempt: AttemptId)
    | Finish(attempt: AttemptId, next: RunState, pending: bool)
    | Reject(attempt: AttemptId, code: FailureCode)
    | Cancel
    | Retry

  /** Evidence about an attempt of this run describes that attempt, and comes only after it ended. */
  predicate Describes(w: World, run: string, e: Evidence) {
    e.attempt.Some? && e.attempt.value in w.attempts ==>
      var a := w.attempts[e.attempt.value];
      && !Live(a.phase) && e.run == run && e.agent == a.agent
      && (a.phase.Rejected? ==> e.code == Some(a.phase.code) && e.class_ == ClassifyResult(InfrastructureFault, Some(a.phase.code)).class_)
  }

  predicate Is(w: World, a: AttemptId, p: Phase) { a in w.attempts && w.attempts[a].phase == p }

  ghost predicate Enabled(w: World, run: string, act: Action) {
    match act
    case Health(op, tables) => Step(w.tables, op, tables) && (op.Record? ==> Describes(w, run, op.e))
    case List => w.dispatcher == Idle && w.run == Queued && forall a :: a in w.attempts ==> !Unclassified(w, a)
    case ReadAvoided => w.dispatcher == Listed
    case ReadAlternative => w.dispatcher.Avoiding?
    case Reserve(agent) => w.dispatcher.Choosing? && MayReserve(w.dispatcher.avoided, w.dispatcher.alternative, agent)
    case GiveUp => w.dispatcher != Idle
    case Create(a) => w.dispatcher.Reserved? && a !in w.attempts && !Known(w.tables.log, Some(a))
    case Release(a) => Is(w, a, Offered)
    case Accept(a) => Is(w, a, Offered) || Is(w, a, Accepted)
    case Expire(a) => Is(w, a, Offered) || Is(w, a, Accepted)
    case Finish(a, next, pending) =>
      a in w.attempts && Live(w.attempts[a].phase) && (next == RunSucceeded || next == Queued || next == RunFailed)
    case Reject(a, code) => Is(w, a, Offered) && Rejection(code)
    case Cancel => w.run == Queued || w.run == Running
    case Retry => w.run == RunFailed
  }

  function Put(w: World, a: AttemptId, p: Phase): World
    requires a in w.attempts
  {
    w.(attempts := w.attempts[a := w.attempts[a].(phase := p)])
  }

  /** The transaction that confirms an input fails every queued run with evidence about it. */
  predicate Fences(op: Op, tables: Tables, run: string) {
    && op.Record? && IsConfirmed(tables, op.e.key)
    && exists i :: 0 <= i < |tables.log| && tables.log[i].run == run && tables.log[i].key == op.e.key
  }

  function Requeued(run: RunState): RunState { if run == Running then Queued else run }

  ghost function Apply(w: World, run: string, act: Action): World
    requires Enabled(w, run, act)
  {
    match act
    case Health(op, tables) => w.(tables := tables, run := if w.run == Queued && Fences(op, tables, run) then RunFailed else w.run)
    case List => w.(dispatcher := Listed)
    case ReadAvoided => w.(dispatcher := Avoiding(AvoidedAgents(w.tables.log, run)))
    case ReadAlternative => w.(dispatcher := Choosing(w.dispatcher.avoided, RequiresAlternative(w.tables.log, run)))
    case Reserve(agent) => w.(dispatcher := Reserved(agent))
    case GiveUp => w.(dispatcher := Idle)
    case Create(a) =>
      if w.run != Queued then w.(dispatcher := Idle)
      else w.(dispatcher := Idle, run := Running, attempts := w.attempts[a := Attempt(w.dispatcher.agent, Offered)])
    case Release(a) => Put(w, a, OfferFailed).(run := Requeued(w.run))
    case Accept(a) => Put(w, a, Accepted)
    case Expire(a) => Put(w, a, Expiring)
    case Finish(a, next, pending) =>
      if w.run == RunCancelled then Put(w, a, Late) else Put(w, a, Finished(pending)).(run := next)
    case Reject(a, code) => Put(w, a, Phase.Rejected(code)).(run := Requeued(w.run), rejections := w.rejections + [a])
    case Cancel => w.(run := RunCancelled)
    case Retry => w.(run := Queued)
  }

  ghost predicate Fresh(w: World) {
    w.run == Queued && w.attempts == map[] && w.dispatcher == Idle && w.rejections == []
  }

  ghost predicate IsDispatchRun(worlds: seq<World>, run: string, acts: seq<Action>) {
    && |worlds| == |acts| + 1 && Fresh(worlds[0])
    && forall i :: 0 <= i < |acts| ==> Enabled(worlds[i], run, acts[i]) && worlds[i + 1] == Apply(worlds[i], run, acts[i])
  }
}
