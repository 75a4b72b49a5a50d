/**
What confirming a poisoned input does to the runs, batch items and batches it
touched: queued retries are fenced, items marked, and the batch counters moved
by exactly the items marked.
 */
module Reconcile {
  import opened Common

  type RunId = string
  type ItemId = string
  type BatchId = string

  datatype RunState = RunQueued | RunRunning | RunSucceeded | RunFailed | RunCancelled

  /** `item` is the batch item the run was made for. */
  datatype RunRow = RunRow(batch: Option<BatchId>, item: Option<ItemId>, state: RunState)

  datatype ItemState =
    | ItemReady | ItemQueued | ItemRunning | ItemSucceeded | ItemFailed | ItemCancelled
    | ItemInvalid | ItemSuspected | ItemPoisoned | ItemHeld

  datatype ItemRow = ItemRow(batch: BatchId, run: Option<RunId>, state: ItemState)

  datatype BatchState = Collecting | BatchRunning | BatchSucceeded | CompletedWithErrors | BatchFailed

  datatype BatchRow = BatchRow(state: BatchState, poisoned: nat)

  /** A retry of an affected run that became queued is failed. */
  function Fenced(runs: map<RunId, RunRow>, affected: set<RunId>): map<RunId, RunRow> {
    map r | r in runs :: if r in affected && runs[r].state == RunQueued then runs[r].(state := RunFailed) else runs[r]
  }

  predicate Poisonable(item: ItemRow, affected: set<RunId>) {
    && item.run.Some? && item.run.value in affected
    && (item.state == ItemQueued || item.state == ItemFailed || item.state == ItemSuspected)
  }

  function Marked(items: map<ItemId, ItemRow>, affected: set<RunId>): set<ItemId> {
    set i | i in items && Poisonable(items[i], affected)
  }

  function Poison(items: map<ItemId, ItemRow>, marked: set<ItemId>): map<ItemId, ItemRow> {
    map i | i in items :: if i in marked then items[i].(state := ItemPoisoned) else items[i]
  }

  /** Those of `ids` that belong to batch `b`. */
  function Of(items: map<ItemId, ItemRow>, ids: set<ItemId>, b: BatchId): set<ItemId> {
    set i | i in ids && i in items && items[i].batch == b
  }

  function PoisonedIn(items: map<ItemId, ItemRow>, b: BatchId): set<ItemId> {
    set i | i in items && items[i].batch == b && items[i].state == ItemPoisoned
  }

  predicate StillOpen(runs: map<RunId, RunRow>, b: BatchId) {
    exists r :: r in runs && runs[r].batch == Some(b) && (runs[r].state == RunQueued || runs[r].state == RunRunning)
  }

  function Settled(row: BatchRow, confirmed: nat, open: bool): BatchRow {
    BatchRow(if row.state == BatchRunning && !open then CompletedWithErrors else row.state, row.poisoned + confirmed)
  }

  function Confirmed(counts: map<BatchId, nat>, b: BatchId): nat { if b in counts then counts[b] else 0 }

  /** The counts are those of the items in `ids`, with no empty entry. */
  ghost predicate CountsOf(counts: map<BatchId, nat>, items: map<ItemId, ItemRow>, ids: set<ItemId>) {
    && (forall b :: Confirmed(counts, b) == |Of(items, ids, b)|)
    && (forall b :: b in counts ==> counts[b] > 0)
  }

  lemma OneMoreOf(items: map<ItemId, ItemRow>, ids: set<ItemId>, i: ItemId, b: BatchId)
    requires i in items && i !in ids
    ensures |Of(items, ids + {i}, b)| == |Of(items, ids, b)| + if b == items[i].batch then 1 else 0
  {
    if b == items[i].batch {
      assert Of(items, ids + {i}, b) == Of(items, ids, b) + {i};
    } else {
      assert Of(items, ids + {i}, b) == Of(items, ids, b);
    }
  }

  lemma CountOneMore(counts: map<BatchId, nat>, items: map<ItemId, ItemRow>, ids: set<ItemId>, i: ItemId)
    requires CountsOf(counts, items, ids) && i in items && i !in ids
    ensures CountsOf(counts[items[i].batch := Confirmed(counts, items[i].batch) + 1], items, ids + {i})
  {
    var counts' := counts[items[i].batch := Confirmed(counts, items[i].batch) + 1];
    forall b ensures Confirmed(counts', b) == |Of(items, ids + {i}, b)| {
      OneMoreOf(items, ids, i, b);
      assert Confirmed(counts, b) == |Of(items, ids, b)|;
    }
  }

  method CountByBatch(items: map<ItemId, ItemRow>, marked: set<ItemId>) returns (counts: map<BatchId, nat>)
    requires marked <= items.Keys
    ensures CountsOf(counts, items, marked)
  {
    counts := map[];
    var todo := marked;
    ghost var done: set<ItemId> := {};
    assert forall b :: Of(items, done, b) == {};
    while todo != {}
      invariant done + todo == marked && done !! todo
      invariant CountsOf(counts, items, done)
      decreases |todo|
    {
      var i :| i in todo;
      CountOneMore(counts, items, done, i);
      var b := items[i].batch;
      counts := counts[b := Confirmed(counts, b) + 1];
      todo, done := todo - {i}, done + {i};
    }
    assert done == marked;
  }

  /** The batches named in `counts` are settled, the others left alone. */
  ghost predicate SettledBatches(batches: map<BatchId, BatchRow>, counts: map<BatchId, nat>, todo: set<BatchId>,
                                 runs: map<RunId, RunRow>, batches': map<BatchId, BatchRow>) {
    && batches'.Keys == batches.Keys
    && forall b :: b in batches ==>
         batches'[b] == if b in counts && b !in todo then Settled(batches[b], counts[b], StillOpen(runs, b)) else batches[b]
  }

  datatype World = World(runs: map<RunId, RunRow>, items: map<ItemId, ItemRow>, batches: map<BatchId, BatchRow>)

  /** A batch with newly poisoned items is counted up and, once none of its runs is open, closed. */
  function SettledRow(w: World, affected: set<RunId>, b: BatchId): BatchRow
    requires b in w.batches
  {
    var confirmed := |Of(w.items, Marked(w.items, affected), b)|;
    if confirmed == 0 then w.batches[b]
    else Settled(w.batches[b], confirmed, StillOpen(Fenced(w.runs, affected), b))
  }

  /** The whole transaction. */
  function ConfirmedWorld(w: World, affected: set<RunId>): World {
    World(Fenced(w.runs, affected), Poison(w.items, Marked(w.items, affected)),
          map b | b in w.batches :: SettledRow(w, affected, b))
  }

  class Tables {
    var runs: map<RunId, RunRow>
    var items: map<ItemId, ItemRow>
    var batches: map<BatchId, BatchRow>

    method SettleBatches(counts: map<BatchId, nat>)
      modifies this`batches
      ensures SettledBatches(old(batches), counts, {}, runs, batches)
    {
      var todo := counts.Keys;
      while todo != {}
        invariant todo <= counts.Keys && SettledBatches(old(batches), counts, todo, runs, batches)
        decreases |todo|
      {
        var b :| b in todo;
        if b in batches {
          batches := batches[b := Settled(batches[b], counts[b], StillOpen(runs, b))];
        }
        todo := todo - {b};
      }
    }

    function State(): World
      reads this
    {
      World(runs, items, batches)
    }

    /** `affected` are the runs with evidence about the confirmed input. */
    method ReconcileConfirmed(affected: set<RunId>)
      modifies this
      ensures State() == ConfirmedWorld(old(State()), affected)
    {
      ghost var before := State();
      runs := Fenced(runs, affected);
      var marked := Marked(items, affected);
      var counts := CountByBatch(items, marked);
      items := Poison(items, marked);
      SettleBatches(counts);
      forall b | b in batches ensures batches[b] == SettledRow(before, affected, b) {
        assert Confirmed(counts, b) == |Of(before.items, marked, b)|;
      }
      assert batches == ConfirmedWorld(before, affected).batches;
    }
  }

  // ----- what the transaction keeps -----

  /** By how much a batch's counter is ahead of its poisoned items. */
  function Drift(batch: BatchRow, items: map<ItemId, ItemRow>, b: BatchId): int { batch.poisoned - |PoisonedIn(items, b)| }

  /** A confirmation moves each batch's counter by exactly the items it newly poisons. */
  lemma ConfirmationKeepsDrift(w: World, affected: set<RunId>, b: BatchId)
    requires b in w.batches
    ensures var w' := ConfirmedWorld(w, affected);
            Drift(w'.batches[b], w'.items, b) == Drift(w.batches[b], w.items, b)
  {
    var marked := Marked(w.items, affected);
    assert PoisonedIn(Poison(w.items, marked), b) == PoisonedIn(w.items, b) + Of(w.items, marked, b);
    assert PoisonedIn(w.items, b) !! Of(w.items, marked, b);
  }

  /** No run with evidence about the input is left for the dispatcher, and confirming again changes nothing. */
  lemma ConfirmationFences(w: World, affected: set<RunId>)
    ensures forall r :: r in w.runs && r in affected ==> ConfirmedWorld(w, affected).runs[r].state != RunQueued
    ensures ConfirmedWorld(ConfirmedWorld(w, affected), affected) == ConfirmedWorld(w, affected)
  {
    var w' := ConfirmedWorld(w, affected);
    assert Marked(w'.items, affected) == {};
    assert Fenced(w'.runs, affected) == w'.runs;
    assert Poison(w'.items, {}) == w'.items;
    forall b | b in w'.batches ensures SettledRow(w', affected, b) == w'.batches[b] {
      assert Of(w'.items, {}, b) == {};
    }
  }

  // ----- runs that pass their state on to their items -----

  /** The moves of a run: placed, released, finished or retried by the agent's result, cancelled, retried by an operator. */
  predicate RunMove(s: RunState, s': RunState) {
    match s
    case RunQueued => s' == RunRunning || s' == RunCancelled
    case RunRunning => s' != RunRunning
    case RunFailed => s' == RunQueued
    case RunSucceeded => false
    case RunCancelled => false
  }

  function ItemStateOf(s: RunState): ItemState {
    match s
    case RunQueued => ItemQueued
    case RunRunning => ItemRunning
    case RunSucceeded => ItemSucceeded
    case RunFailed => ItemFailed
    case RunCancelled => ItemCancelled
  }

  /** The item row the run's state is copied to, if the link is complete and names one of the batch. */
  predicate Linked(w: World, r: RunId) {
    && r in w.runs && w.runs[r].batch.Some? && w.runs[r].item.Some? && w.runs[r].item.value in w.items
    && w.items[w.runs[r].item.value].batch == w.runs[r].batch.value
  }

  /** A run that is waiting or out again reopens its completed batch. */
  function Reopened(w: World, r: RunId, s: RunState): map<BatchId, BatchRow>
    requires r in w.runs
  {
    if (s == RunQueued || s == RunRunning) && w.runs[r].batch.Some? && w.runs[r].item.Some? && w.runs[r].batch.value in w.batches then
      var b := w.runs[r].batch.value;
      var row := w.batches[b];
      if row.state == BatchSucceeded || row.state == CompletedWithErrors then w.batches[b := row.(state := BatchRunning)]
      else w.batches
    else w.batches
  }

  /** The run moves, its item follows and its batch may reopen; counters are not touched. */
  function PassedOn(w: World, r: RunId, s: RunState): World
    requires r in w.runs
  {
    var w' := w.(runs := w.runs[r := w.runs[r].(state := s)], batches := Reopened(w, r, s));
    if Linked(w, r) then
      var i := w.runs[r].item.value;
      w'.(items := w.items[i := w.items[i].(state := ItemStateOf(s))])
    else w'
  }

  /** A batch's own state may also be set beside all this, as when its last run ends. */
  datatype Op = Confirm(affected: set<RunId>) | Move(run: RunId, state: RunState) | SetBatch(batch: BatchId, batchState: BatchState)

  predicate Enabled(w: World, op: Op) {
    match op
    case Confirm(_) => true
    case Move(r, s) => r in w.runs && RunMove(w.runs[r].state, s)
    case SetBatch(b, _) => b in w.batches
  }

  function Apply(w: World, op: Op): World
    requires Enabled(w, op)
  {
    match op
    case Confirm(affected) => ConfirmedWorld(w, affected)
    case Move(r, s) => PassedOn(w, r, s)
    case SetBatch(b, s) => w.(batches := w.batches[b := w.batches[b].(state := s)])
  }

  ghost predicate IsRun(worlds: seq<World>, ops: seq<Op>) {
    && |worlds| == |ops| + 1
    && forall i :: 0 <= i < |ops| ==> Enabled(worlds[i], ops[i]) && worlds[i + 1] == Apply(worlds[i], ops[i])
  }

  /** The step takes a poisoned item of the batch out of that state. */
  predicate Escapes(w: World, op: Op, b: BatchId) {
    op.Move? && Linked(w, op.run) && w.items[w.runs[op.run].item.value].batch == b
    && w.items[w.runs[op.run].item.value].state == ItemPoisoned
  }

  function EscapeCount(worlds: seq<World>, ops: seq<Op>, b: BatchId, n: nat): nat
    requires n <= |ops| <= |worlds|
  {
    if n == 0 then 0 else EscapeCount(worlds, ops, b, n - 1) + if Escapes(worlds[n - 1], ops[n - 1], b) then 1 else 0
  }

  lemma MoveDrifts(w: World, r: RunId, s: RunState, b: BatchId)
    requires r in w.runs && b in w.batches
    ensures var w' := PassedOn(w, r, s);
            Drift(w'.batches[b], w'.items, b) == Drift(w.batches[b], w.items, b) + if Escapes(w, Move(r, s), b) then 1 else 0
  {
    if Linked(w, r) {
      var i := w.runs[r].item.value;
      assert PoisonedIn(PassedOn(w, r, s).items, b) == PoisonedIn(w.items, b) - {i};
      assert Escapes(w, Move(r, s), b) <==> i in PoisonedIn(w.items, b);
    }
  }

  /**
  Over every sequence of confirmations and moves, a batch's counter runs ahead of
  its poisoned items by exactly the moves that took an item out of poison; so it
  stays right if and only if no poisoned item's run was moved on.
   */
  lemma {:induction false} DriftCountsEscapes(worlds: seq<World>, ops: seq<Op>, b: BatchId, n: nat)
    requires IsRun(worlds, ops) && n <= |ops| && b in worlds[0].batches
    ensures b in worlds[n].batches
    ensures Drift(worlds[n].batches[b], worlds[n].items, b) ==
              Drift(worlds[0].batches[b], worlds[0].items, b) + EscapeCount(worlds, ops, b, n)
  {
    if n > 0 {
      DriftCountsEscapes(worlds, ops, b, n - 1);
      var w, op := worlds[n - 1], ops[n - 1];
      assert Enabled(w, op) && worlds[n - 1 + 1] == Apply(w, op);
      if op.Confirm? {
        ConfirmationKeepsDrift(w, op.affected, b);
      } else if op.Move? {
        MoveDrifts(w, op.run, op.state, b);
      }
    }
  }

  // ----- a batch of one -----

  function OneItem(run: RunState, item: ItemState, batch: BatchState, poisoned: nat): World {
    World(map["r" := RunRow(Some("b"), Some("i"), run)], map["i" := ItemRow("b", Some("r"), item)],
          map["b" := BatchRow(batch, poisoned)])
  }

  lemma ConfirmOne(w: World, poisoned: nat)
    requires w == OneItem(RunQueued, ItemQueued, BatchRunning, poisoned)
    ensures ConfirmedWorld(w, {"r"}) == OneItem(RunFailed, ItemPoisoned, CompletedWithErrors, poisoned + 1)
  {
    var after := ConfirmedWorld(w, {"r"});
    assert Marked(w.items, {"r"}) == {"i"} && Of(w.items, {"i"}, "b") == {"i"};
    assert after.runs == map["r" := RunRow(Some("b"), Some("i"), RunFailed)];
    assert !StillOpen(after.runs, "b");
    assert after.batches["b"] == SettledRow(w, {"r"}, "b");
  }

  lemma OnePoisoned(batch: BatchState, poisoned: nat)
    ensures |PoisonedIn(OneItem(RunFailed, ItemPoisoned, batch, poisoned).items, "b")| == 1
  {
    assert PoisonedIn(OneItem(RunFailed, ItemPoisoned, batch, poisoned).items, "b") == {"i"};
  }

  lemma ThreeSteps(w: World, x: World, y: World, z: World, a: Op, b: Op, c: Op)
    requires Enabled(w, a) && x == Apply(w, a)
    requires Enabled(x, b) && y == Apply(x, b)
    requires Enabled(y, c) && z == Apply(y, c)
    ensures IsRun([w, x, y, z], [a, b, c])
  {
  }

  lemma RetryOne(poisoned: nat)
    ensures Enabled(OneItem(RunFailed, ItemPoisoned, CompletedWithErrors, poisoned), Move("r", RunQueued))
    ensures PassedOn(OneItem(RunFailed, ItemPoisoned, CompletedWithErrors, poisoned), "r", RunQueued) ==
              OneItem(RunQueued, ItemQueued, BatchRunning, poisoned)
  {
    var w := OneItem(RunFailed, ItemPoisoned, CompletedWithErrors, poisoned);
    assert Linked(w, "r");
    var after := PassedOn(w, "r", RunQueued);
    assert after.runs == map["r" := RunRow(Some("b"), Some("i"), RunQueued)];
    assert after.items == map["i" := ItemRow("b", Some("r"), ItemQueued)];
    assert after.batches == map["b" := BatchRow(BatchRunning, poisoned)];
  }

  /**
  A queued retry is confirmed poisoned, the operator retries the failed run and
  so reopens the batch, and the input is confirmed again: one poisoned item,
  counted twice.
   */
  lemma RetriedPoisonIsCountedTwice() returns (worlds: seq<World>, ops: seq<Op>)
    ensures IsRun(worlds, ops) && ops == [Confirm({"r"}), Move("r", RunQueued), Confirm({"r"})]
    ensures worlds[0] == OneItem(RunQueued, ItemQueued, BatchRunning, 0)
    ensures worlds[3] == OneItem(RunFailed, ItemPoisoned, CompletedWithErrors, 2)
    ensures |PoisonedIn(worlds[3].items, "b")| == 1
  {
    var w0 := OneItem(RunQueued, ItemQueued, BatchRunning, 0);
    var w1 := OneItem(RunFailed, ItemPoisoned, CompletedWithErrors, 1);
    var w2 := OneItem(RunQueued, ItemQueued, BatchRunning, 1);
    var w3 := OneItem(RunFailed, ItemPoisoned, CompletedWithErrors, 2);
    ConfirmOne(w0, 0);
    RetryOne(1);
    ConfirmOne(w2, 1);
    OnePoisoned(CompletedWithErrors, 2);
    ops := [Confirm({"r"}), Move("r", RunQueued), Confirm({"r"})];
    worlds := [w0, w1, w2, w3];
    ThreeSteps(w0, w1, w2, w3, ops[0], ops[1], ops[2]);
  }
}
