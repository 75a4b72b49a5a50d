/**
What node scoring owes to its "one observation per input" rule: the verdict does
not depend on the order of the log, and one input can never carry it from
healthy to quarantined on the ordinary rule.
 */
module NodeInfluence {
  import opened Common
  import opened NodeScoring

  lemma ChosenAreTheLatest(chosen: set<NodeObservation>, log: set<NodeObservation>, now: int)
    requires OnePerInput(chosen, log, now) && DistinctTimes(Latest(log, now))
    ensures chosen == Latest(log, now)
  {
    forall o | o in Latest(log, now) ensures o in chosen {
      var p :| p in chosen && p.input == o.input;
      assert p in Latest(log, now) && p.at == o.at;
    }
  }

  /** `top` is closed upwards in time within `all`. */
  ghost predicate Newer(top: set<NodeObservation>, all: set<NodeObservation>) {
    top <= all && forall o, p :: o in top && p in all - top ==> p.at <= o.at
  }

  lemma NewerSetsNest(a: set<NodeObservation>, b: set<NodeObservation>, all: set<NodeObservation>)
    requires DistinctTimes(all) && Newer(a, all) && Newer(b, all) && |a| <= |b|
    ensures a <= b
  {
    if b <= a {
      SubsetSize(b, a);
    } else {
      var p :| p in b && p !in a;
      forall o | o in a ensures o in b {
        assert o in all && p in all;
        assert o !in b ==> o.at == p.at;
      }
    }
  }

  lemma RecentAreNewest(recent: set<NodeObservation>, log: set<NodeObservation>, now: int)
    requires DistinctTimes(Latest(log, now)) && Considered(recent, log, now)
    ensures IsNewest(recent, Latest(log, now), 10)
  {
    var chosen :| OnePerInput(chosen, log, now) && IsNewest(recent, chosen, 10);
    ChosenAreTheLatest(chosen, log, now);
  }

  lemma NewestIsUnique(a: set<NodeObservation>, b: set<NodeObservation>, all: set<NodeObservation>, k: nat)
    requires DistinctTimes(all) && IsNewest(a, all, k) && IsNewest(b, all, k)
    ensures a == b
  {
    NewerSetsNest(a, b, all);
    NewerSetsNest(b, a, all);
  }

  lemma RecentIsDetermined(a: set<NodeObservation>, b: set<NodeObservation>, log: set<NodeObservation>, log': set<NodeObservation>, now: int)
    requires DistinctTimes(Latest(log, now)) && Latest(log, now) == Latest(log', now)
    requires Considered(a, log, now) && Considered(b, log', now)
    ensures a == b
  {
    RecentAreNewest(a, log, now);
    RecentAreNewest(b, log', now);
    NewestIsUnique(a, b, Latest(log, now), 10);
  }

  /** Reordering the log, repeating entries or adding superseded ones leaves the whole evaluation unchanged. */
  lemma NodeHealthIsOrderFree(log: seq<NodeObservation>, log': seq<NodeObservation>, now: int,
                              recent: set<NodeObservation>, recent': set<NodeObservation>)
    requires Latest(Elements(log), now) == Latest(Elements(log'), now)
    requires DistinctTimes(Latest(Elements(log), now))
    requires Considered(recent, Elements(log), now) && Considered(recent', Elements(log'), now)
    ensures Score(recent, now) == Score(recent', now)
  {
    RecentIsDetermined(recent, recent', Elements(log), Elements(log'), now);
  }

  // ----- one input's influence -----

  ghost predicate DifferOnlyAt(log: set<NodeObservation>, log': set<NodeObservation>, x: string) {
    forall o: NodeObservation :: o.input != x ==> (o in log <==> o in log')
  }

  ghost function Without(s: set<NodeObservation>, x: string): set<NodeObservation> { set o | o in s && o.input != x }

  ghost function At(s: set<NodeObservation>, x: string): set<NodeObservation> { set o | o in s && o.input == x }

  lemma OthersUnchanged(log: set<NodeObservation>, log': set<NodeObservation>, x: string, now: int)
    requires DifferOnlyAt(log, log', x)
    ensures Without(Latest(log, now), x) == Without(Latest(log', now), x)
  {
    forall o: NodeObservation | o.input != x ensures IsLatest(o, log, now) <==> IsLatest(o, log', now) {
    }
  }

  lemma AtMostOne(s: set<NodeObservation>)
    requires forall o, p :: o in s && p in s ==> o == p
    ensures |s| <= 1
  {
    if o :| o in s {
      assert s == {o};
    }
  }

  lemma SplitFailures(s: set<NodeObservation>, x: string)
    ensures |s| == |Without(s, x)| + |At(s, x)|
    ensures |FailuresIn(s)| == |FailuresIn(Without(s, x))| + |FailuresIn(At(s, x))|
    ensures |FailuresIn(At(s, x))| <= |At(s, x)|
  {
    assert s == Without(s, x) + At(s, x);
    assert FailuresIn(s) == FailuresIn(Without(s, x)) + FailuresIn(At(s, x));
    SubsetSize(FailuresIn(At(s, x)), At(s, x));
  }

  /** The counts behind one evaluation, split into input `x` and the rest. */
  datatype Split = Split(rest: nat, mine: nat, restShown: nat, mineShown: nat, restFailed: nat, mineFailed: nat)

  ghost predicate SplitOk(c: Split) {
    && c.mineFailed <= c.mineShown <= c.mine <= 1
    && c.restFailed <= c.restShown <= c.rest
    && c.restShown + c.mineShown == Min(10, c.rest + c.mine)
  }

  ghost function SplitOf(recent: set<NodeObservation>, all: set<NodeObservation>, x: string): Split {
    Split(|Without(all, x)|, |At(all, x)|, |Without(recent, x)|, |At(recent, x)|,
          |FailuresIn(Without(recent, x))|, |FailuresIn(At(recent, x))|)
  }

  lemma SplitCounts(recent: set<NodeObservation>, all: set<NodeObservation>, x: string)
    requires IsNewest(recent, all, 10) && |At(all, x)| <= 1
    ensures SplitOk(SplitOf(recent, all, x))
    ensures Newer(Without(recent, x), Without(all, x))
  {
    SplitFailures(recent, x);
    SplitFailures(all, x);
    SubsetSize(At(recent, x), At(all, x));
    SubsetSize(Without(recent, x), Without(all, x));
    SubsetSize(FailuresIn(Without(recent, x)), Without(recent, x));
  }

  lemma LatestOnePerInput(log: set<NodeObservation>, x: string, now: int)
    requires DistinctTimes(Latest(log, now))
    ensures |At(Latest(log, now), x)| <= 1
  {
    AtMostOne(At(Latest(log, now), x));
  }

  lemma MoreShownMoreFailed(a: set<NodeObservation>, b: set<NodeObservation>)
    requires a <= b
    ensures |FailuresIn(a)| <= |FailuresIn(b)| <= |FailuresIn(a)| + (|b| - |a|)
  {
    SubsetSize(FailuresIn(a), FailuresIn(b));
    assert b == a + (b - a);
    assert FailuresIn(b) == FailuresIn(a) + FailuresIn(b - a);
    SubsetSize(FailuresIn(b - a), b - a);
  }

  /** How the counts of two evaluations that differ in one input are related. */
  ghost predicate OneApart(c: Split, d: Split) {
    && SplitOk(c) && SplitOk(d) && c.rest == d.rest
    && (c.restShown <= d.restShown ==> c.restFailed <= d.restFailed <= c.restFailed + (d.restShown - c.restShown))
    && (d.restShown <= c.restShown ==> d.restFailed <= c.restFailed <= d.restFailed + (c.restShown - d.restShown))
  }

  lemma OneApartScores(c: Split, d: Split, schedules: nat)
    requires OneApart(c, d)
    ensures var f, n := c.restFailed + c.mineFailed, c.restShown + c.mineShown;
            var f', n' := d.restFailed + d.mineFailed, d.restShown + d.mineShown;
            && -1 <= f - f' <= 1 && -1 <= n - n' <= 1
            && (NormalQuarantine(f, f, schedules, n) ==> SuspectScore(f', f', n'))
  {
    assert c.restShown <= d.restShown || d.restShown <= c.restShown;
  }

  lemma CountsAreOneApart(a: set<NodeObservation>, b: set<NodeObservation>, log: set<NodeObservation>,
                          log': set<NodeObservation>, x: string, now: int)
    requires DifferOnlyAt(log, log', x)
    requires DistinctTimes(Latest(log, now)) && DistinctTimes(Latest(log', now))
    requires Considered(a, log, now) && Considered(b, log', now)
    ensures OneApart(SplitOf(a, Latest(log, now), x), SplitOf(b, Latest(log', now), x))
  {
    RecentAreNewest(a, log, now);
    RecentAreNewest(b, log', now);
    LatestOnePerInput(log, x, now);
    LatestOnePerInput(log', x, now);
    SplitCounts(a, Latest(log, now), x);
    SplitCounts(b, Latest(log', now), x);
    OthersUnchanged(log, log', x, now);
    var all := Without(Latest(log, now), x);
    if |Without(a, x)| <= |Without(b, x)| {
      NewerSetsNest(Without(a, x), Without(b, x), all);
      MoreShownMoreFailed(Without(a, x), Without(b, x));
    }
    if |Without(b, x)| <= |Without(a, x)| {
      NewerSetsNest(Without(b, x), Without(a, x), all);
      MoreShownMoreFailed(Without(b, x), Without(a, x));
    }
  }

  lemma FailedInputsAreFailures(recent: set<NodeObservation>, log: set<NodeObservation>, now: int)
    requires Considered(recent, log, now)
    ensures |InputsOf(FailuresIn(recent))| == |FailuresIn(recent)|
  {
    SameSize(FailuresIn(recent));
  }

  lemma {:induction false} SameSize(s: set<NodeObservation>)
    requires forall o, p :: o in s && p in s && o.input == p.input ==> o == p
    ensures |InputsOf(s)| == |s|
  {
    if o :| o in s {
      SameSize(s - {o});
      assert InputsOf(s) == InputsOf(s - {o}) + {o.input};
    }
  }

  ghost predicate ScoresOneApart(e: NodeEvaluation, e': NodeEvaluation) {
    && -1 <= e.failures - e'.failures <= 1
    && -1 <= e.considered - e'.considered <= 1
    && (NormalQuarantine(e.failures, e.failedInputs, e.schedules, e.considered) ==> e'.decision != HealthyDecision)
  }

  lemma ScoresMoveByOne(recent: set<NodeObservation>, recent': set<NodeObservation>, all: set<NodeObservation>,
                        all': set<NodeObservation>, x: string, now: int)
    requires OneApart(SplitOf(recent, all, x), SplitOf(recent', all', x))
    requires |InputsOf(FailuresIn(recent))| == |FailuresIn(recent)|
    requires |InputsOf(FailuresIn(recent'))| == |FailuresIn(recent')|
    ensures ScoresOneApart(Score(recent, now), Score(recent', now))
  {
    SplitFailures(recent, x);
    SplitFailures(recent', x);
    OneApartScores(SplitOf(recent, all, x), SplitOf(recent', all', x), |SchedulesOf(FailuresIn(recent))|);
  }

  /**
  Changing one input's observations, in any way, moves the failure count by at
  most one, and where the ordinary rule quarantines the node on one log, the
  other log at least makes it suspect.
   */
  lemma OneInputMovesTheScoreByOne(log: set<NodeObservation>, log': set<NodeObservation>, x: string, now: int,
                                   recent: set<NodeObservation>, recent': set<NodeObservation>)
    requires DifferOnlyAt(log, log', x)
    requires DistinctTimes(Latest(log, now)) && DistinctTimes(Latest(log', now))
    requires Considered(recent, log, now) && Considered(recent', log', now)
    ensures ScoresOneApart(Score(recent, now), Score(recent', now))
  {
    CountsAreOneApart(recent, recent', log, log', x, now);
    FailedInputsAreFailures(recent, log, now);
    FailedInputsAreFailures(recent', log', now);
    ScoresMoveByOne(recent, recent', Latest(log, now), Latest(log', now), x, now);
  }
}
