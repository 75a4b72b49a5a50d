/**
Node scoring: a node is judged on the latest usable observation of each input,
ten inputs at most, so that no single input can decide the verdict.
 */
module NodeScoring {
  import opened Common
  import opened HealthScoring

  datatype NodeObservation = NodeObservation(
    schedule: string, input: string, at: int, class_: Class, retracted: bool, suppressed: bool)

  datatype Decision = HealthyDecision | SuspectDecision | QuarantineDecision

  /** The failure rate is `failures / considered`. */
  datatype NodeEvaluation = NodeEvaluation(
    decision: Decision, failedInputs: nat, schedules: nat, considered: nat, failures: nat)

  predicate Usable(o: NodeObservation, now: int) {
    && now - 15 * MINUTE <= o.at && !o.retracted && !o.suppressed
    && (o.class_ == Functional || o.class_ == Ambiguous || o.class_ == StrongNodeLocal)
  }

  // ----- which observations count -----

  ghost predicate IsLatest(o: NodeObservation, log: set<NodeObservation>, now: int) {
    && o in log && Usable(o, now)
    && forall p :: p in log && Usable(p, now) && p.input == o.input ==> p.at <= o.at
  }

  ghost function Latest(log: set<NodeObservation>, now: int): set<NodeObservation> {
    set o | o in log && IsLatest(o, log, now)
  }

  /** One latest observation for every input that has a usable one. */
  ghost predicate OnePerInput(chosen: set<NodeObservation>, log: set<NodeObservation>, now: int) {
    && chosen <= Latest(log, now)
    && (forall o, p :: o in chosen && p in chosen && o.input == p.input ==> o == p)
    && (forall o :: o in log && Usable(o, now) ==> o.input in InputsOf(chosen))
  }

  /** `recent` holds the `k` newest members of `all`, or all of them. */
  ghost predicate IsNewest(recent: set<NodeObservation>, all: set<NodeObservation>, k: nat) {
    && recent <= all && |recent| == Min(k, |all|)
    && forall o, p :: o in recent && p in all - recent ==> p.at <= o.at
  }

  /** `recent` is what some evaluation of `log` at `now` scores. */
  ghost predicate Considered(recent: set<NodeObservation>, log: set<NodeObservation>, now: int) {
    exists chosen :: OnePerInput(chosen, log, now) && IsNewest(recent, chosen, 10)
  }

  ghost predicate DistinctTimes(s: set<NodeObservation>) {
    forall o, p :: o in s && p in s && o.at == p.at ==> o == p
  }

  // ----- the verdict -----

  predicate IsFailure(o: NodeObservation) { o.class_ == Ambiguous || o.class_ == StrongNodeLocal }

  function FailuresIn(recent: set<NodeObservation>): set<NodeObservation> {
    set o | o in recent && IsFailure(o)
  }

  function InputsOf(s: set<NodeObservation>): set<string> { set o | o in s :: o.input }

  function SchedulesOf(s: set<NodeObservation>): set<string> { set o | o in s :: o.schedule }

  function StrongSince(s: set<NodeObservation>, since: int): set<NodeObservation> {
    set o | o in s && since <= o.at && o.class_ == StrongNodeLocal
  }

  predicate NormalQuarantine(failures: nat, inputs: nat, schedules: nat, considered: nat) {
    failures >= 5 && inputs >= (if schedules >= 2 then 4 else 6) && 5 * failures >= 3 * considered
  }

  predicate SuspectScore(failures: nat, inputs: nat, considered: nat) {
    failures >= 3 && inputs >= 3 && 2 * failures >= considered
  }

  predicate FastQuarantine(failures: set<NodeObservation>, now: int) {
    var strong := StrongSince(failures, now - 5 * MINUTE);
    |InputsOf(strong)| >= 3 && |SchedulesOf(strong)| >= 2
  }

  function Score(recent: set<NodeObservation>, now: int): NodeEvaluation {
    var failures := FailuresIn(recent);
    var inputs, schedules := |InputsOf(failures)|, |SchedulesOf(failures)|;
    var decision :=
      if NormalQuarantine(|failures|, inputs, schedules, |recent|) || FastQuarantine(failures, now) then QuarantineDecision
      else if SuspectScore(|failures|, inputs, |recent|) then SuspectDecision
      else HealthyDecision;
    NodeEvaluation(decision, inputs, schedules, |recent|, |failures|)
  }

  // ----- the loops of evaluate_node_health -----

  method LatestByInput(observations: seq<NodeObservation>, now: int) returns (latest: map<string, NodeObservation>)
    ensures forall i :: i in latest ==> latest[i].input == i && IsLatest(latest[i], Elements(observations), now)
    ensures forall o :: o in observations && Usable(o, now) ==> o.input in latest
  {
    latest := map[];
    for k := 0 to |observations|
      invariant forall i :: i in latest ==> latest[i].input == i && latest[i] in observations && Usable(latest[i], now)
      invariant forall j :: 0 <= j < k && Usable(observations[j], now) ==>
                  observations[j].input in latest && observations[j].at <= latest[observations[j].input].at
    {
      var o := observations[k];
      if Usable(o, now) && (o.input !in latest || latest[o.input].at < o.at) {
        latest := latest[o.input := o];
      }
    }
  }

  ghost predicate Ascending(r: seq<NodeObservation>) {
    forall i, j :: 0 <= i < j < |r| ==> r[i].at <= r[j].at
  }

  /** `r` is sorted and holds what is no longer in `todo`. */
  ghost predicate SortedSoFar(r: seq<NodeObservation>, todo: set<NodeObservation>, s: set<NodeObservation>) {
    && Ascending(r) && Elements(r) + todo == s && |r| + |todo| == |s|
    && forall i, o :: 0 <= i < |r| && o in todo ==> r[i].at <= o.at
  }

  lemma AscendingAppend(r: seq<NodeObservation>, m: NodeObservation)
    requires Ascending(r) && forall i :: 0 <= i < |r| ==> r[i].at <= m.at
    ensures Ascending(r + [m])
  {
  }

  lemma SortOneMore(r: seq<NodeObservation>, todo: set<NodeObservation>, s: set<NodeObservation>, m: NodeObservation)
    requires SortedSoFar(r, todo, s)
    requires m in todo && forall o :: o in todo ==> m.at <= o.at
    ensures SortedSoFar(r + [m], todo - {m}, s)
  {
    AscendingAppend(r, m);
    assert Elements(r + [m]) + (todo - {m}) == s by {
      ElementsAppend(r, [m]);
      assert Elements([m]) == {m};
    }
    assert |todo - {m}| == |todo| - 1;
    forall i, o | 0 <= i < |r + [m]| && o in todo - {m} ensures (r + [m])[i].at <= o.at {
      assert (r + [m])[i] == if i < |r| then r[i] else m;
    }
  }

  /** The values of the map, oldest first; equal times come in any order. */
  method SortByTime(s: set<NodeObservation>) returns (r: seq<NodeObservation>)
    ensures SortedSoFar(r, {}, s)
  {
    r := [];
    var todo := s;
    assert Elements(r) == {};
    while todo != {}
      invariant SortedSoFar(r, todo, s)
      decreases |todo|
    {
      OldestExists(todo);
      var m :| m in todo && forall o :: o in todo ==> m.at <= o.at;
      SortOneMore(r, todo, s, m);
      r := r + [m];
      todo := todo - {m};
    }
  }

  lemma {:induction false} OldestExists(s: set<NodeObservation>)
    requires s != {}
    ensures exists m :: m in s && forall o :: o in s ==> m.at <= o.at
  {
    var a :| a in s;
    if s - {a} != {} {
      OldestExists(s - {a});
      var m :| m in s - {a} && forall o :: o in s - {a} ==> m.at <= o.at;
      var least := if a.at <= m.at then a else m;
      assert least in s && forall o :: o in s ==> least.at <= o.at;
    } else {
      assert s == {a};
    }
  }

  lemma LastOnesAreNewest(older: seq<NodeObservation>, newer: seq<NodeObservation>)
    requires |Elements(older + newer)| == |older + newer| && Ascending(older + newer)
    ensures |Elements(newer)| == |newer|
    ensures IsNewest(Elements(newer), Elements(older + newer), |newer|)
  {
    ElementsAppend(older, newer);
    ElementsSize(older);
    ElementsSize(newer);
    assert |Elements(older) + Elements(newer)| <= |Elements(older)| + |Elements(newer)| by {
      assert Elements(older) + Elements(newer) == Elements(older) + (Elements(newer) - Elements(older));
      SubsetSize(Elements(newer) - Elements(older), Elements(newer));
    }
    forall o, p | o in Elements(newer) && p in Elements(older) ensures p.at <= o.at {
      OlderIsEarlier(older, newer, p, o);
    }
  }

  lemma OlderIsEarlier(older: seq<NodeObservation>, newer: seq<NodeObservation>, p: NodeObservation, o: NodeObservation)
    requires Ascending(older + newer) && p in older && o in newer
    ensures p.at <= o.at
  {
    var i :| 0 <= i < |older| && older[i] == p;
    var j :| 0 <= j < |newer| && newer[j] == o;
    assert (older + newer)[i] == p && (older + newer)[|older| + j] == o;
  }

  method Newest(values: set<NodeObservation>, k: nat) returns (newest: set<NodeObservation>)
    ensures IsNewest(newest, values, k)
  {
    var considered := SortByTime(values);
    var n := Min(k, |considered|);
    var older, newer := considered[..|considered| - n], considered[|considered| - n..];
    assert considered == older + newer;
    LastOnesAreNewest(older, newer);
    return Elements(newer);
  }

  lemma LatestIsOnePerInput(latest: map<string, NodeObservation>, observations: seq<NodeObservation>, now: int)
    requires forall i :: i in latest ==> latest[i].input == i && IsLatest(latest[i], Elements(observations), now)
    requires forall o :: o in observations && Usable(o, now) ==> o.input in latest
    ensures OnePerInput(set i | i in latest :: latest[i], Elements(observations), now)
  {
    var chosen := set i | i in latest :: latest[i];
    forall o | o in Elements(observations) && Usable(o, now) ensures o.input in InputsOf(chosen) {
      assert latest[o.input] in chosen;
    }
  }

  method EvaluateNodeHealth(observations: seq<NodeObservation>, now: int) returns (e: NodeEvaluation)
    ensures exists recent :: Considered(recent, Elements(observations), now) && e == Score(recent, now)
  {
    var latest := LatestByInput(observations, now);
    LatestIsOnePerInput(latest, observations, now);
    var values := set i | i in latest :: latest[i];
    var newest := Newest(values, 10);
    e := Score(newest, now);
    assert Considered(newest, Elements(observations), now);
  }

  // ----- every log can be evaluated -----

  lemma {:induction false} NewestExists(s: set<NodeObservation>) returns (m: NodeObservation)
    requires s != {}
    ensures m in s && forall o :: o in s ==> o.at <= m.at
  {
    var a :| a in s;
    m := a;
    if s - {a} != {} {
      var other := NewestExists(s - {a});
      m := if a.at <= other.at then other else a;
    }
    forall o | o in s ensures o.at <= m.at {
      assert o == a || o in s - {a};
    }
  }

  lemma {:induction false} NewestOnesExist(all: set<NodeObservation>, k: nat) returns (recent: set<NodeObservation>)
    ensures IsNewest(recent, all, k)
  {
    recent := {};
    if k > 0 {
      recent := NewestOnesExist(all, k - 1);
      SubsetSize(recent, all);
      if recent != all {
        var m := NewestExists(all - recent);
        recent := recent + {m};
        SubsetSize(recent, all);
      }
    }
  }

  lemma {:induction false} LatestOnesExist(inputs: set<string>, log: set<NodeObservation>, now: int)
    returns (chosen: set<NodeObservation>)
    requires forall i :: i in inputs ==> exists o :: o in log && Usable(o, now) && o.input == i
    ensures chosen <= Latest(log, now) && InputsOf(chosen) == inputs
    ensures forall o, p :: o in chosen && p in chosen && o.input == p.input ==> o == p
  {
    chosen := {};
    if i :| i in inputs {
      var rest := LatestOnesExist(inputs - {i}, log, now);
      var same := set o | o in log && Usable(o, now) && o.input == i;
      var some :| some in log && Usable(some, now) && some.input == i;
      assert some in same;
      var m := NewestExists(same);
      assert IsLatest(m, log, now);
      chosen := rest + {m};
      assert InputsOf(chosen) == InputsOf(rest) + {i};
      assert forall o :: o in rest ==> o.input in InputsOf(rest);
    }
  }

  lemma ConsideredExists(log: set<NodeObservation>, now: int) returns (recent: set<NodeObservation>)
    ensures Considered(recent, log, now)
  {
    var usable := set o | o in log && Usable(o, now);
    var chosen := LatestOnesExist(InputsOf(usable), log, now);
    assert forall o :: o in log && Usable(o, now) ==> o in usable && o.input in InputsOf(usable);
    recent := NewestOnesExist(chosen, 10);
  }
}
