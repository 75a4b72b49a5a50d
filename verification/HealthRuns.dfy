/**
Theorems over every run of the health tables, from the empty database on: any
mix of evidence, replays, probe grants, probe uses and administrator actions.
 */
module HealthRuns {
  import opened Common
  import opened HealthScoring
  import opened HealthTables

  // ----- the stored verdict -----

  /** The row is what evaluating the whole log gives, and a confirmed input has no ambiguous evidence left in play. */
  ghost predicate InputOk(s: Tables, key: Key, threshold: nat) {
    if key !in s.inputs then InputLog(s.log, key) == {}
    else
      && IsInputEvaluation(Failures(InputLog(s.log, key)), threshold, s.inputs[key].verdict)
      && (IsConfirmed(s, key) ==> AllRetracted(s.log, key))
      && (Probing(s, key) ==> IsConfirmed(s, key))
  }

  /** The threshold of the last record about `key`. */
  function LastThreshold(ops: seq<Op>, key: Key): nat {
    if ops == [] then 2 else NextThreshold(LastThreshold(ops[..|ops| - 1], key), ops[|ops| - 1], key)
  }

  function NextThreshold(threshold: nat, op: Op, key: Key): nat {
    if op.Record? && op.e.key == key then Max(op.required, 2) else threshold
  }

  lemma RetractRetracts(log: seq<Evidence>, key: Key, other: Key)
    ensures AllRetracted(Retract(log, key), key)
    ensures AllRetracted(log, other) ==> AllRetracted(Retract(log, key), other)
    ensures AllRetracted(log, key) ==> Retract(log, key) == log
  {
    var log' := Retract(log, key);
    forall i | 0 <= i < |log| ensures log'[i] == RetractOne(log[i], key) {
    }
  }

  lemma RecordKeepsOwnInput(s: Tables, e: Evidence, required: nat, s': Tables)
    requires VerdictStored(s, e, required, s')
    ensures InputOk(s', e.key, Max(required, 2))
  {
    RetractKeepsInputLog(Inserted(s.log, e), e.key, e.key);
    RetractRetracts(Inserted(s.log, e), e.key, e.key);
  }

  lemma RecordKeepsOtherInput(s: Tables, e: Evidence, required: nat, s': Tables, key: Key, threshold: nat)
    requires VerdictStored(s, e, required, s') && key != e.key && InputOk(s, key, threshold)
    ensures InputOk(s', key, threshold)
  {
    var log := Inserted(s.log, e);
    RetractKeepsInputLog(log, e.key, key);
    InsertKeepsOtherInputs(s.log, e, key);
    RetractRetracts(log, e.key, key);
    assert AllRetracted(s.log, key) ==> AllRetracted(log, key);
  }

  lemma StepKeepsInput(s: Tables, op: Op, s': Tables, key: Key, threshold: nat)
    requires Step(s, op, s') && InputOk(s, key, threshold)
    ensures InputOk(s', key, NextThreshold(threshold, op, key))
  {
    if op.Record? {
      if op.e.key == key {
        RecordKeepsOwnInput(s, op.e, op.required, s');
      } else {
        RecordKeepsOtherInput(s, op.e, op.required, s', key, threshold);
      }
    }
  }

  /**
  In every reachable state the stored row is the evaluation of the whole log
  under the threshold last used for that input; a stored `Confirmed` means that
  every ambiguous observation of the input is retracted; and an input without a
  row has no evidence.
   */
  lemma {:induction false} StoredVerdictIsTheWholeLog(states: seq<Tables>, ops: seq<Op>, n: nat, key: Key)
    requires IsRun(states, ops) && n <= |ops|
    ensures InputOk(states[n], key, LastThreshold(ops[..n], key))
  {
    if n > 0 {
      StoredVerdictIsTheWholeLog(states, ops, n - 1, key);
      assert Step(states[n - 1], ops[n - 1], states[n - 1 + 1]);
      assert ops[..n][..n - 1] == ops[..n - 1];
      StepKeepsInput(states[n - 1], ops[n - 1], states[n], key, LastThreshold(ops[..n - 1], key));
    }
  }

  /** Recording an attempt again under the same threshold leaves the log and every verdict as they are. */
  lemma ReplayChangesNothing(s: Tables, e: Evidence, required: nat, now: int, s': Tables, i: nat)
    requires Recorded(s, e, required, now, s') && InputOk(s, e.key, Max(required, 2))
    requires i < |s.log| && e.attempt.Some? && s.log[i].attempt == e.attempt && s.log[i].key == e.key
    ensures s'.log == s.log && s'.inputs == s.inputs
  {
    assert Known(s.log, e.attempt);
    assert InputView(s.log[i]) in InputLog(s.log, e.key);
    InputVerdictIsUnique(Failures(InputLog(s.log, e.key)), Max(required, 2), s.inputs[e.key].verdict, s'.inputs[e.key].verdict);
    RetractRetracts(s.log, e.key, e.key);
  }

  // ----- probes -----

  predicate IsGrant(s: Tables, op: Op, key: Key) { op == Grant(key) && IsConfirmed(s, key) }

  predicate IsConfirmedAdmission(s: Tables, op: Op, key: Key) {
    op == Consume(key) && IsConfirmed(s, key) && !Held(s, key)
  }

  function Grants(states: seq<Tables>, ops: seq<Op>, key: Key, n: nat): nat
    requires n <= |ops| <= |states|
  {
    if n == 0 then 0 else
      Grants(states, ops, key, n - 1) + if IsGrant(states[n - 1], ops[n - 1], key) then 1 else 0
  }

  function Admissions(states: seq<Tables>, ops: seq<Op>, key: Key, n: nat): nat
    requires n <= |ops| <= |states|
  {
    if n == 0 then 0 else
      Admissions(states, ops, key, n - 1) + if IsConfirmedAdmission(states[n - 1], ops[n - 1], key) then 1 else 0
  }

  function Waiting(s: Tables, key: Key): nat { if Probing(s, key) then 1 else 0 }

  lemma ProbeStep(s: Tables, op: Op, s': Tables, key: Key)
    requires Step(s, op, s')
    ensures Waiting(s', key) + (if IsConfirmedAdmission(s, op, key) then 1 else 0)
         <= Waiting(s, key) + (if IsGrant(s, op, key) then 1 else 0)
  {
    if op.Record? && op.e.key != key {
      assert key in s'.inputs <==> key in s.inputs;
    }
  }

  /** A confirmed input is admitted at most once per granted probe; an unused probe is still owed. */
  lemma {:induction false} AdmissionsNeverExceedGrants(states: seq<Tables>, ops: seq<Op>, key: Key, n: nat)
    requires IsRun(states, ops) && n <= |ops|
    ensures Admissions(states, ops, key, n) + Waiting(states[n], key) <= Grants(states, ops, key, n)
  {
    if n > 0 {
      AdmissionsNeverExceedGrants(states, ops, key, n - 1);
      assert Step(states[n - 1], ops[n - 1], states[n - 1 + 1]);
      ProbeStep(states[n - 1], ops[n - 1], states[n], key);
    }
  }
}
