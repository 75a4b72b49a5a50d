/**
Failure attribution: which failures speak about an input, which about a node,
and how much of either it takes to act. Times are nanoseconds.
 */
module HealthScoring {
  import opened Common

  const MINUTE: int := 60 * 1_000_000_000

  datatype FailureCode =
    | AssignmentRejected | ParameterBindingFailed | ExecutorStartFailed | ExecutorProcessCrashed
    | ExecutorProtocolError | ProcessSpawnFailed | ProcessIsolationFailed | ProcessExitedNonZero
    | ProcessCrashed | ProcessTimedOut | CancelledCode | AgentLeaseExpired | ExcelUnsupported
    | ExcelStartupFailed | ExcelWorkbookOpenFailed | ExcelCorrelationSetupFailed | ExcelMacroFailed
    | ExcelMacroReturnedFailure | ExcelInvalidReturn | ExcelProcessCrashed | ExcelCleanupFailed
    | InfrastructureError

  datatype Family =
    | Work | Cancellation | Lease | ExecutorAvailability | BindingAvailability | Isolation | ProcessLaunch
    | Crash | Timeout | ExcelHost | ExcelInvocation | ExcelContract | Cleanup | Infrastructure

  datatype Class = Functional | Ignore | ClusterSensitive | Ambiguous | StrongNodeLocal

  datatype Classification = Classification(class_: Class, family: Family)

  function Classify(code: FailureCode): Classification {
    match code
    case ProcessExitedNonZero => Classification(Functional, Work)
    case ExcelMacroReturnedFailure => Classification(Functional, Work)
    case CancelledCode => Classification(Ignore, Cancellation)
    case AgentLeaseExpired => Classification(ClusterSensitive, Lease)
    case ExecutorStartFailed => Classification(StrongNodeLocal, ExecutorAvailability)
    case ExecutorProtocolError => Classification(StrongNodeLocal, ExecutorAvailability)
    case ExcelUnsupported => Classification(StrongNodeLocal, ExecutorAvailability)
    case ParameterBindingFailed => Classification(StrongNodeLocal, BindingAvailability)
    case ProcessIsolationFailed => Classification(StrongNodeLocal, Isolation)
    case ExcelStartupFailed => Classification(StrongNodeLocal, ExcelHost)
    case AssignmentRejected => Classification(Ambiguous, ProcessLaunch)
    case ProcessSpawnFailed => Classification(Ambiguous, ProcessLaunch)
    case ExecutorProcessCrashed => Classification(Ambiguous, Crash)
    case ProcessCrashed => Classification(Ambiguous, Crash)
    case ExcelProcessCrashed => Classification(Ambiguous, Crash)
    case ProcessTimedOut => Classification(Ambiguous, Timeout)
    case ExcelWorkbookOpenFailed => Classification(Ambiguous, ExcelInvocation)
    case ExcelCorrelationSetupFailed => Classification(Ambiguous, ExcelInvocation)
    case ExcelMacroFailed => Classification(Ambiguous, ExcelInvocation)
    case ExcelInvalidReturn => Classification(Ambiguous, ExcelContract)
    case ExcelCleanupFailed => Classification(Ambiguous, Cleanup)
    case InfrastructureError => Classification(Ambiguous, Infrastructure)
  }

  datatype Outcome = Succeeded | Failed | Cancelled | TimedOut | LeaseExpired | InfrastructureFault

  function ClassifyResult(outcome: Outcome, diagnostic: Option<FailureCode>): Classification {
    if outcome == Succeeded then Classification(Functional, Work)
    else if diagnostic.Some? then Classify(diagnostic.value)
    else match outcome {
      case Succeeded => Classification(Functional, Work)
      case Cancelled => Classification(Ignore, Cancellation)
      case LeaseExpired => Classification(ClusterSensitive, Lease)
      case TimedOut => Classification(Ambiguous, Timeout)
      case Failed => Classification(Ambiguous, Infrastructure)
      case InfrastructureFault => Classification(Ambiguous, Infrastructure)
    }
  }

  /** Declaration order, the tie-break between families. */
  function FamilyOrder(f: Family): nat {
    match f
    case Work => 0 case Cancellation => 1 case Lease => 2 case ExecutorAvailability => 3
    case BindingAvailability => 4 case Isolation => 5 case ProcessLaunch => 6 case Crash => 7
    case Timeout => 8 case ExcelHost => 9 case ExcelInvocation => 10 case ExcelContract => 11
    case Cleanup => 12 case Infrastructure => 13
  }

  // ----- inputs -----

  datatype InputState = Clear | Suspected | Confirmed

  datatype InputObservation = InputObservation(
    agent: string, at: int, class_: Class, family: Family, nodeWasHealthy: bool)

  datatype InputEvaluation = InputEvaluation(state: InputState, family: Option<Family>, nodes: nat)

  /** An ambiguous failure on a healthy node, later than every functional result. */
  ghost predicate Counts(o: InputObservation, log: set<InputObservation>) {
    && o.class_ == Ambiguous && o.nodeWasHealthy
    && forall p :: p in log && p.class_ == Functional ==> p.at < o.at
  }

  ghost function FailuresAmong(part: set<InputObservation>, log: set<InputObservation>): set<(Family, string)> {
    set o | o in part && Counts(o, log) :: (o.family, o.agent)
  }

  /** The (family, node) pairs on which an input is judged. */
  ghost function Failures(log: set<InputObservation>): set<(Family, string)> {
    FailuresAmong(log, log)
  }

  ghost function NodesOf(failures: set<(Family, string)>, f: Family): set<string> {
    set p | p in failures && p.0 == f :: p.1
  }

  predicate NoStronger(n: nat, f: Family, m: nat, g: Family) {
    n < m || (n == m && FamilyOrder(f) <= FamilyOrder(g))
  }

  /** The verdict: the strongest family decides, and the threshold separates suspicion from confirmation. */
  ghost predicate IsInputEvaluation(failures: set<(Family, string)>, threshold: nat, e: InputEvaluation) {
    if failures == {} then e == InputEvaluation(Clear, None, 0)
    else
      && e.family.Some? && e.nodes == |NodesOf(failures, e.family.value)| && e.nodes > 0
      && (forall g :: NoStronger(|NodesOf(failures, g)|, g, e.nodes, e.family.value))
      && e.state == if e.nodes >= threshold then Confirmed else Suspected
  }

  lemma InputVerdictIsUnique(failures: set<(Family, string)>, threshold: nat, e: InputEvaluation, e': InputEvaluation)
    requires IsInputEvaluation(failures, threshold, e) && IsInputEvaluation(failures, threshold, e')
    ensures e == e'
  {
    if failures != {} {
      var f, g := e.family.value, e'.family.value;
      assert NoStronger(|NodesOf(failures, g)|, g, e.nodes, f);
      assert NoStronger(|NodesOf(failures, f)|, f, e'.nodes, g);
    }
  }

  const FAMILIES: seq<Family> := [
    Work, Cancellation, Lease, ExecutorAvailability, BindingAvailability, Isolation, ProcessLaunch,
    Crash, Timeout, ExcelHost, ExcelInvocation, ExcelContract, Cleanup, Infrastructure]

  lemma {:induction false} StrongestAmong(families: seq<Family>, failures: set<(Family, string)>) returns (f: Family)
    requires families != []
    ensures f in families
    ensures forall g :: g in families ==> NoStronger(|NodesOf(failures, g)|, g, |NodesOf(failures, f)|, f)
  {
    var n := |families| - 1;
    f := families[n];
    if n > 0 {
      var best := StrongestAmong(families[..n], failures);
      if !NoStronger(|NodesOf(failures, best)|, best, |NodesOf(failures, f)|, f) {
        f := best;
      }
      assert families == families[..n] + [families[n]];
    }
  }

  lemma VerdictExists(failures: set<(Family, string)>, threshold: nat) returns (e: InputEvaluation)
    ensures IsInputEvaluation(failures, threshold, e)
  {
    e := InputEvaluation(Clear, None, 0);
    if p :| p in failures {
      var f := StrongestAmong(FAMILIES, failures);
      var nodes := |NodesOf(failures, f)|;
      forall g ensures g in FAMILIES {
        assert FAMILIES[FamilyOrder(g)] == g;
      }
      assert p.1 in NodesOf(failures, p.0);
      assert NoStronger(|NodesOf(failures, p.0)|, p.0, nodes, f);
      e := InputEvaluation(if nodes >= threshold then Confirmed else Suspected, Some(f), nodes);
    }
  }

  /** Repeating or reordering evidence changes nothing; only the judged pairs matter. */
  lemma InputHealthIsOrderFree(a: seq<InputObservation>, b: seq<InputObservation>, required: nat,
                               e: InputEvaluation, e': InputEvaluation)
    requires Failures(Elements(a)) == Failures(Elements(b))
    requires IsInputEvaluation(Failures(Elements(a)), Max(required, 2), e)
    requires IsInputEvaluation(Failures(Elements(b)), Max(required, 2), e')
    ensures e == e'
  {
    InputVerdictIsUnique(Failures(Elements(a)), Max(required, 2), e, e');
  }

  /** An input is confirmed bad exactly when one family has failed it on enough healthy nodes. */
  lemma ConfirmedExactlyWhen(failures: set<(Family, string)>, threshold: nat, e: InputEvaluation)
    requires 0 < threshold && IsInputEvaluation(failures, threshold, e)
    ensures e.state == Confirmed <==> exists f :: |NodesOf(failures, f)| >= threshold
    ensures e.state == Clear <==> failures == {}
  {
    if failures == {} {
      forall f ensures NodesOf(failures, f) == {} {
      }
    } else {
      forall g ensures |NodesOf(failures, g)| <= e.nodes {
        assert NoStronger(|NodesOf(failures, g)|, g, e.nodes, e.family.value);
      }
    }
  }

  /** A functional result clears every failure no later than itself, and only those. */
  lemma FunctionalResultClears(log: set<InputObservation>, o: InputObservation)
    requires o.class_ == Functional
    ensures Failures(log + {o}) == (set p | p in log && Counts(p, log) && o.at < p.at :: (p.family, p.agent))
  {
    forall p ensures Counts(p, log + {o}) <==> Counts(p, log) && (o.at < p.at) {
    }
  }

  // The loops of evaluate_input_health.

  method LastFunctional(observations: seq<InputObservation>) returns (last: Option<int>)
    ensures forall o :: o in observations && o.class_ == Functional ==> last.Some? && o.at <= last.value
    ensures last.Some? ==> exists o :: o in observations && o.class_ == Functional && o.at == last.value
  {
    last := None;
    for i := 0 to |observations|
      invariant forall k :: 0 <= k < i && observations[k].class_ == Functional ==>
                  last.Some? && observations[k].at <= last.value
      invariant last.Some? ==> exists k :: 0 <= k < i && observations[k].class_ == Functional && observations[k].at == last.value
    {
      var o := observations[i];
      if o.class_ == Functional && (last.None? || last.value <= o.at) {
        last := Some(o.at);
      }
    }
  }

  /** The map holds exactly the nodes seen per family, and no empty family. */
  ghost predicate Groups(byFamily: map<Family, set<string>>, failures: set<(Family, string)>) {
    && (forall f :: f in byFamily <==> NodesOf(failures, f) != {})
    && (forall f :: f in byFamily ==> byFamily[f] == NodesOf(failures, f))
  }

  lemma GroupOneMore(byFamily: map<Family, set<string>>, failures: set<(Family, string)>, f: Family, agent: string)
    requires Groups(byFamily, failures)
    ensures Groups(byFamily[f := (if f in byFamily then byFamily[f] else {}) + {agent}], failures + {(f, agent)})
  {
    var more := failures + {(f, agent)};
    assert NodesOf(more, f) == NodesOf(failures, f) + {agent} by {
      assert (f, agent) in more;
    }
    forall g | g != f ensures NodesOf(more, g) == NodesOf(failures, g) {
    }
  }

  lemma OneMoreObservation(log: seq<InputObservation>, i: nat)
    requires i < |log|
    ensures var o, all := log[i], Elements(log);
            FailuresAmong(Elements(log[..i + 1]), all) ==
            FailuresAmong(Elements(log[..i]), all) + (if Counts(o, all) then {(o.family, o.agent)} else {})
  {
    assert log[..i + 1] == log[..i] + [log[i]];
    ElementsAppend(log[..i], [log[i]]);
    assert Elements([log[i]]) == {log[i]};
  }

  method GroupByFamily(observations: seq<InputObservation>, last: Option<int>) returns (byFamily: map<Family, set<string>>)
    requires forall o :: o in observations && o.class_ == Functional ==> last.Some? && o.at <= last.value
    requires last.Some? ==> exists o :: o in observations && o.class_ == Functional && o.at == last.value
    ensures Groups(byFamily, Failures(Elements(observations)))
  {
    ghost var all := Elements(observations);
    byFamily := map[];
    for i := 0 to |observations|
      invariant Groups(byFamily, FailuresAmong(Elements(observations[..i]), all))
    {
      var o := observations[i];
      OneMoreObservation(observations, i);
      if (last.Some? && o.at <= last.value) || !o.nodeWasHealthy || o.class_ != Ambiguous {
        assert !Counts(o, all);
        continue;
      }
      assert Counts(o, all);
      GroupOneMore(byFamily, FailuresAmong(Elements(observations[..i]), all), o.family, o.agent);
      byFamily := byFamily[o.family := (if o.family in byFamily then byFamily[o.family] else {}) + {o.agent}];
    }
    assert observations[..|observations|] == observations;
  }

  method Strongest(byFamily: map<Family, set<string>>) returns (best: Option<Family>)
    ensures best.None? <==> byFamily == map[]
    ensures best.Some? ==> best.value in byFamily
    ensures best.Some? ==> forall g :: g in byFamily ==>
              NoStronger(|byFamily[g]|, g, |byFamily[best.value]|, best.value)
  {
    var todo := byFamily.Keys;
    best := None;
    while todo != {}
      invariant todo <= byFamily.Keys
      invariant best.None? ==> todo == byFamily.Keys
      invariant best.Some? ==> best.value in byFamily
      invariant best.Some? ==> forall g :: g in byFamily && g !in todo ==>
                  NoStronger(|byFamily[g]|, g, |byFamily[best.value]|, best.value)
      decreases |todo|
    {
      var f :| f in todo;
      if best.None? || NoStronger(|byFamily[best.value]|, best.value, |byFamily[f]|, f) {
        best := Some(f);
      }
      todo := todo - {f};
    }
  }

  lemma NoGroupsNoFailures(byFamily: map<Family, set<string>>, failures: set<(Family, string)>)
    requires Groups(byFamily, failures)
    ensures byFamily == map[] <==> failures == {}
  {
    if p :| p in failures {
      assert p.1 in NodesOf(failures, p.0);
      assert p.0 in byFamily;
    }
    if f :| f in byFamily {
      assert NodesOf(failures, f) != {};
    }
  }

  method EvaluateInputHealth(observations: seq<InputObservation>, required: nat) returns (e: InputEvaluation)
    ensures IsInputEvaluation(Failures(Elements(observations)), Max(required, 2), e)
  {
    var threshold := Max(required, 2);
    var last := LastFunctional(observations);
    var byFamily := GroupByFamily(observations, last);
    var best := Strongest(byFamily);
    ghost var failures := Failures(Elements(observations));
    NoGroupsNoFailures(byFamily, failures);
    match best
    case None => e := InputEvaluation(Clear, None, 0);
    case Some(f) =>
      var nodes := |byFamily[f]|;
      e := InputEvaluation(if nodes >= threshold then Confirmed else Suspected, Some(f), nodes);
      forall g ensures NoStronger(|NodesOf(failures, g)|, g, nodes, f) {
        if g !in byFamily {
          assert NodesOf(failures, g) == {};
        }
      }
  }
}
