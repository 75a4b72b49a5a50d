/** The delivery guarantees, over every run of the agent with duplicates, races, crashes and restarts. */
module AgentRuns {
  import opened Common
  import opened Ledger
  import opened Agent
  import opened AgentInvariant

  // ----- how one row and its history can move in one step -----

  /** What a run shows of one attempt. */
  datatype View = View(
    runner: RunnerId, row: Option<Row>, starts: seq<RunnerId>, sent: set<ResultMessage>)

  ghost function ViewOf(w: World, a: AttemptId): View {
    var c := CellAt(w, a);
    View(w.runner, c.row, c.starts, c.sent)
  }

  ghost predicate Evolves(v: View, v': View) {
    && (v'.runner == v.runner || v'.runner == v.runner + 1)
    && v.sent <= v'.sent
    && (v.row.Some? ==> v'.row.Some? && RowEvolves(v.row.value, v'.row.value, v.runner))
    && (|| v'.starts == v.starts
        || (v.row.Some? && Startable(v.row.value, v.runner) && v'.starts == v.starts + [v.runner]))
  }

  lemma MoveEvolves(c: Cell, a: AttemptId, runner: RunnerId, focus: Focus, k: nat, move: Move,
                    settings: Settings, running: nat, excelRunning: nat)
    requires CellOk(c, a, runner, focus)
    requires k < |c.tasks| && MoveEnabled(c.tasks[k].pc, move)
    ensures var c' := MoveTask(c, runner, k, move, settings, running, excelRunning);
            Evolves(View(runner, c.row, c.starts, c.sent), View(runner, c'.row, c'.starts, c'.sent))
  {
  }

  lemma OfferEvolves(w: World, step: Step, a: AttemptId)
    requires CellOkAt(w, a) && Enabled(w, step) && AboutOffer(step)
    ensures Evolves(ViewOf(w, a), ViewOf(Apply(w, step), a))
  {
  }

  lemma ClaimEvolves(w: World, step: Step, a: AttemptId)
    requires CellOkAt(w, a) && Enabled(w, step) && AboutClaim(step)
    ensures Evolves(ViewOf(w, a), ViewOf(Apply(w, step), a))
  {
  }

  lemma StreamEvolves(w: World, step: Step, a: AttemptId)
    requires CellOkAt(w, a) && Enabled(w, step) && AboutStream(step)
    ensures Evolves(ViewOf(w, a), ViewOf(Apply(w, step), a))
  {
  }

  lemma StepEvolves(w: World, step: Step, a: AttemptId)
    requires CellOkAt(w, a) && Enabled(w, step)
    ensures Evolves(ViewOf(w, a), ViewOf(Apply(w, step), a))
  {
    if AboutOffer(step) {
      OfferEvolves(w, step, a);
    } else if AboutClaim(step) {
      ClaimEvolves(w, step, a);
    } else if AboutStream(step) {
      StreamEvolves(w, step, a);
    } else if step.TaskMoves? && step.attempt == a {
      MoveEvolves(CellAt(w, a), a, w.runner, FocusOn(w.handler, a), step.index, step.move, w.settings,
                  |StartedAttempts(w)|, |StartedExcel(w)|);
    } else if step.QuarantineOne? && step.attempt == a {
      assert FocusOn(w.handler, a) == ScanHere;
    }
  }

  // ----- from runs to the history of one attempt -----

  lemma {:induction false} RunKeepsCells(run: seq<World>, i: nat)
    requires IsRun(run) && i < |run|
    ensures CellsOk(run[i])
  {
    if i == 0 {
      InitCells(run[0]);
    } else {
      RunKeepsCells(run, i - 1);
      assert Next(run[i - 1], run[i]);
      var step :| Enabled(run[i - 1], step) && run[i] == Apply(run[i - 1], step);
      StepKeepsCells(run[i - 1], step);
    }
  }

  ghost function History(run: seq<World>, a: AttemptId): (h: seq<View>)
    ensures |h| == |run| && forall i :: 0 <= i < |h| ==> h[i] == ViewOf(run[i], a)
  {
    seq(|run|, i requires 0 <= i < |run| => ViewOf(run[i], a))
  }

  ghost predicate IsHistory(h: seq<View>) {
    forall i :: 0 <= i < |h| - 1 ==> Evolves(h[i], h[i + 1])
  }

  lemma RunHasHistory(run: seq<World>, a: AttemptId)
    requires IsRun(run)
    ensures IsHistory(History(run, a))
  {
    var h := History(run, a);
    forall i | 0 <= i < |h| - 1 ensures Evolves(h[i], h[i + 1]) {
      RunKeepsCells(run, i);
      assert Next(run[i], run[i + 1]);
      var step :| Enabled(run[i], step) && run[i + 1] == Apply(run[i], step);
      assert CellOkAt(run[i], a);
      StepEvolves(run[i], step, a);
    }
  }

  lemma {:induction false} HistoryGrows(h: seq<View>, i: nat, j: nat)
    requires IsHistory(h) && i <= j < |h|
    ensures h[i].sent <= h[j].sent && h[i].runner <= h[j].runner
    decreases j
  {
    if i < j {
      HistoryGrows(h, i, j - 1);
      assert Evolves(h[j - 1], h[j - 1 + 1]);
    }
  }

  /**
  However often an attempt was offered, executed, saved and replayed, every
  result message ever sent for it carries one lease token and one payload.
   */
  lemma ResultMessagesAgree(run: seq<World>, i: nat, j: nat, a: AttemptId, m: ResultMessage, m': ResultMessage)
    requires IsRun(run) && i < |run| && j < |run|
    requires m in CellAt(run[i], a).sent && m' in CellAt(run[j], a).sent
    ensures m == m'
  {
    var h, last := History(run, a), |run| - 1;
    RunHasHistory(run, a);
    HistoryGrows(h, i, last);
    HistoryGrows(h, j, last);
    ResultMessageMatchesRow(run, last, a, m);
    ResultMessageMatchesRow(run, last, a, m');
  }

  /** A sent result is the one the row stores, under the lease recorded with the first offer. */
  lemma ResultMessageMatchesRow(run: seq<World>, i: nat, a: AttemptId, m: ResultMessage)
    requires IsRun(run) && i < |run| && m in CellAt(run[i], a).sent
    ensures var row := CellAt(run[i], a).row;
            && row.Some? && row.value.lease == m.lease && row.value.result == Some(m.payload)
            && row.value.state in {Finished, Acknowledged}
  {
    RunKeepsCells(run, i);
    assert CellOkAt(run[i], a);
  }

  /** Each lifetime claims an attempt at most once and starts it at most once, with at most one task. */
  lemma ClaimedAndStartedOncePerLifetime(run: seq<World>, i: nat, a: AttemptId)
    requires IsRun(run) && i < |run|
    ensures NoDuplicates(CellAt(run[i], a).claims)
    ensures NoDuplicates(CellAt(run[i], a).starts)
    ensures |CellAt(run[i], a).tasks| <= 1
  {
    RunKeepsCells(run, i);
    assert CellOkAt(run[i], a);
  }

  // ----- bounded change -----

  lemma RowChangeLowersRank(row: Row, row': Row, runner: RunnerId)
    requires RowEvolves(row, row', runner) && row' != row
    ensures Rank(row', runner) < Rank(row, runner)
  {
  }

  /** How many steps between `i` and `j` changed the row. */
  ghost function RowChanges(h: seq<View>, i: nat, j: nat): nat
    requires i <= j < |h|
    decreases j
  {
    if i == j then 0 else RowChanges(h, i, j - 1) + if h[j - 1].row == h[j].row then 0 else 1
  }

  lemma {:induction false} RankPaysForChanges(h: seq<View>, i: nat, j: nat)
    requires IsHistory(h) && i <= j < |h| && h[i].runner == h[j].runner && h[i].row.Some?
    ensures h[j].row.Some?
    ensures RowChanges(h, i, j) + Rank(h[j].row.value, h[i].runner) <= Rank(h[i].row.value, h[i].runner)
    decreases j
  {
    if i < j {
      HistoryGrows(h, i, j - 1);
      HistoryGrows(h, j - 1, j);
      RankPaysForChanges(h, i, j - 1);
      assert Evolves(h[j - 1], h[j - 1 + 1]);
      if h[j].row != h[j - 1].row {
        RowChangeLowersRank(h[j - 1].row.value, h[j].row.value, h[i].runner);
      }
    }
  }

  /** Within one lifetime a row changes at most five times. */
  lemma AtMostFiveChangesPerLifetime(run: seq<World>, i: nat, j: nat, a: AttemptId)
    requires IsRun(run) && i <= j < |run| && run[i].runner == run[j].runner
    requires CellAt(run[i], a).row.Some?
    ensures RowChanges(History(run, a), i, j) <= 5
  {
    RunHasHistory(run, a);
    RankPaysForChanges(History(run, a), i, j);
  }

  // ----- cancellation -----

  predicate Stopped(row: Option<Row>) { row.Some? && !Cancellable(row.value) }

  /** A row past cancellation, or past saving, stays there and is never started again. */
  lemma {:induction false} StoppedRowStays(h: seq<View>, i: nat, j: nat)
    requires IsHistory(h) && i <= j < |h| && Stopped(h[i].row)
    ensures Stopped(h[j].row) && h[j].starts == h[i].starts
    ensures h[i].row.value.state == Cancelled ==> h[j].row == h[i].row
    decreases j
  {
    if i < j {
      StoppedRowStays(h, i, j - 1);
      assert Evolves(h[j - 1], h[j - 1 + 1]);
    }
  }

  lemma StoppedAttemptNeverStarts(run: seq<World>, i: nat, j: nat, a: AttemptId)
    requires IsRun(run) && i <= j < |run| && Stopped(CellAt(run[i], a).row)
    ensures CellAt(run[j], a).starts == CellAt(run[i], a).starts
    ensures CellAt(run[i], a).row.value.state == Cancelled ==> CellAt(run[j], a).row == CellAt(run[i], a).row
  {
    RunHasHistory(run, a);
    StoppedRowStays(History(run, a), i, j);
  }

  /** What a committed cancel has achieved by the time its handler ends. */
  ghost predicate CancelHonoured(c: Cell, runner: RunnerId) {
    || (c.row.Some? && c.row.value.state == Cancelled)
    || (|c.tasks| == 1 && c.tasks[0].cancel)
    || (c.row.Some? && c.row.value.result.Some?)
    || (c.row.Some? && c.row.value.owner != Some(runner) && c.tasks == [])
    || c.abandoned
  }

  /**
  When the handler of a committed cancel ends, the attempt is never started
  from then on, in this lifetime or a later one; and if it had been started in
  this lifetime, its flag is up, or its result is stored, or the task gave up
  because its claim or start failed or its result would not serialize.
   */
  lemma CommittedCancelHolds(run: seq<World>, i: nat, j: nat, a: AttemptId)
    requires IsRun(run) && i + 1 <= j < |run|
    requires run[i].handler == Cancelling(a, true) && run[i + 1] == Apply(run[i], CancelSignals)
    ensures CancelHonoured(CellAt(run[i + 1], a), run[i + 1].runner)
    ensures CellAt(run[j], a).starts == CellAt(run[i], a).starts
  {
    RunKeepsCells(run, i);
    assert CellOkAt(run[i], a);
    HandlerHonours(run[i], a);
    StoppedAttemptNeverStarts(run, i, j, a);
  }

  lemma HandlerHonours(w: World, a: AttemptId)
    requires CellOkAt(w, a) && w.handler == Cancelling(a, true)
    ensures Stopped(CellAt(w, a).row)
    ensures CancelHonoured(CellAt(Apply(w, CancelSignals), a), Apply(w, CancelSignals).runner)
  {
    assert CellOk(CellAt(w, a), a, w.runner, CancelHere(true));
    SignalKeepsCell(CellAt(w, a), a, w.runner, true);
  }

  // ----- nothing is stranded -----

  /** The one dead end: cancelled while running under a lifetime that has since died. */
  predicate Orphan(row: Row, runner: RunnerId) {
    row.state == CancelRequested && row.owner != Some(runner)
  }

  /** Somebody in this lifetime is at work on the row, or gave up on it. */
  ghost predicate AtWork(w: World, a: AttemptId) {
    && CellAt(w, a).row.Some? && CellAt(w, a).row.value.owner == Some(w.runner)
    && (|CellAt(w, a).tasks| == 1 || FocusOn(w.handler, a).SpawnHere? || CellAt(w, a).abandoned)
  }

  /** Every row is terminal, offered to recovery, worked on, waiting to be acknowledged, or an orphan. */
  lemma NoRowIsStranded(run: seq<World>, i: nat, a: AttemptId)
    requires IsRun(run) && i < |run| && CellAt(run[i], a).row.Some?
    ensures var row := CellAt(run[i], a).row.value;
            || Terminal(row.state)
            || (row.document.Corrupt? && Recoverable(row, run[i].runner))
            || (row.document.Encoded? && Claimable(row, row.document.assignment, row.document, run[i].runner))
            || AtWork(run[i], a)
            || Pending(row)
            || Orphan(row, run[i].runner)
  {
    RunKeepsCells(run, i);
    assert CellOkAt(run[i], a);
  }

  /** An orphan is never claimed, saved, cancelled or acknowledged again, in any lifetime. */
  lemma {:induction false} OrphanNeverMoves(h: seq<View>, i: nat, j: nat)
    requires IsHistory(h) && i <= j < |h|
    requires h[i].row.Some? && Orphan(h[i].row.value, h[i].runner)
    requires h[i].row.value.owner.Some? ==> h[i].row.value.owner.value < h[i].runner
    ensures h[j].row == h[i].row
    decreases j
  {
    if i < j {
      OrphanNeverMoves(h, i, j - 1);
      HistoryGrows(h, i, j - 1);
      assert Evolves(h[j - 1], h[j - 1 + 1]);
    }
  }

  lemma OrphanedAttemptNeverMoves(run: seq<World>, i: nat, j: nat, a: AttemptId)
    requires IsRun(run) && i <= j < |run|
    requires CellAt(run[i], a).row.Some? && Orphan(CellAt(run[i], a).row.value, run[i].runner)
    ensures CellAt(run[j], a).row == CellAt(run[i], a).row
  {
    RunKeepsCells(run, i);
    assert CellOkAt(run[i], a);
    RunHasHistory(run, a);
    OrphanNeverMoves(History(run, a), i, j);
  }

  /**
  The first save after a start always finds its row. After a lost reply the row
  holds the task's own payload, and a repeat gets through exactly while it is not
  acknowledged.
   */
  lemma FirstSaveSucceeds(run: seq<World>, i: nat, a: AttemptId, k: nat)
    requires IsRun(run) && i < |run|
    requires k < |CellAt(run[i], a).tasks| && CellAt(run[i], a).tasks[k].pc.Saving?
    ensures CellAt(run[i], a).row.Some?
    ensures var t, row := CellAt(run[i], a).tasks[k], CellAt(run[i], a).row.value;
            && (Savable(row, run[i].runner) <==> !t.pc.lost)
            && (t.pc.lost ==> row.result == Some(t.pc.payload))
            && (t.pc.lost ==> (AlreadySaved(row, run[i].runner, t.pc.payload) <==> row.state != Acknowledged))
  {
    RunKeepsCells(run, i);
    assert CellOkAt(run[i], a);
  }

  // ----- a reply lost too late -----

  /** The one task saves again and again, but its row is acknowledged already. */
  ghost predicate Stuck(c: Cell) {
    && |c.tasks| == 1 && c.tasks[0].pc.Saving? && c.tasks[0].pc.lost
    && c.row.Some? && c.row.value.state == Acknowledged
  }

  lemma OfferStaysStuck(w: World, step: Step, a: AttemptId)
    requires CellOkAt(w, a) && Enabled(w, step) && AboutOffer(step) && Stuck(CellAt(w, a))
    ensures Stuck(CellAt(Apply(w, step), a)) && CellAt(Apply(w, step), a).entry == CellAt(w, a).entry
  {
  }

  lemma ClaimStaysStuck(w: World, step: Step, a: AttemptId)
    requires CellOkAt(w, a) && Enabled(w, step) && AboutClaim(step) && Stuck(CellAt(w, a))
    ensures Stuck(CellAt(Apply(w, step), a)) && CellAt(Apply(w, step), a).entry == CellAt(w, a).entry
  {
  }

  lemma MoveStaysStuck(c: Cell, a: AttemptId, runner: RunnerId, focus: Focus, k: nat, move: Move,
                       settings: Settings, running: nat, excelRunning: nat)
    requires CellOk(c, a, runner, focus) && Stuck(c)
    requires k < |c.tasks| && MoveEnabled(c.tasks[k].pc, move)
    ensures MoveTask(c, runner, k, move, settings, running, excelRunning) == c
  {
  }

  lemma StepStaysStuck(w: World, step: Step, a: AttemptId)
    requires CellOkAt(w, a) && Enabled(w, step) && !step.Crash? && Stuck(CellAt(w, a))
    ensures Stuck(CellAt(Apply(w, step), a)) && CellAt(Apply(w, step), a).entry == CellAt(w, a).entry
  {
    if AboutOffer(step) {
      OfferStaysStuck(w, step, a);
    } else if AboutClaim(step) {
      ClaimStaysStuck(w, step, a);
    } else if step.TaskMoves? && step.attempt == a {
      MoveStaysStuck(CellAt(w, a), a, w.runner, FocusOn(w.handler, a), step.index, step.move, w.settings,
                     |StartedAttempts(w)|, |StartedExcel(w)|);
    }
  }

  /** What a run shows of one attempt's place among the active tasks. */
  datatype Place = Place(runner: RunnerId, stuck: bool, entry: Option<ActiveTask>)

  ghost function PlaceOf(w: World, a: AttemptId): Place {
    Place(w.runner, Stuck(CellAt(w, a)), CellAt(w, a).entry)
  }

  ghost predicate PlaceStays(p: Place, p': Place) {
    && p.runner <= p'.runner
    && (p.stuck && p'.runner == p.runner ==> p'.stuck && p'.entry == p.entry)
  }

  lemma NextPlace(w: World, w': World, a: AttemptId)
    requires CellOkAt(w, a) && Next(w, w')
    ensures PlaceStays(PlaceOf(w, a), PlaceOf(w', a))
  {
    var step :| Enabled(w, step) && w' == Apply(w, step);
    StepEvolves(w, step, a);
    if Stuck(CellAt(w, a)) && !step.Crash? {
      StepStaysStuck(w, step, a);
    }
  }

  ghost function Places(run: seq<World>, a: AttemptId): (p: seq<Place>)
    ensures |p| == |run| && forall i :: 0 <= i < |p| ==> p[i] == PlaceOf(run[i], a)
  {
    seq(|run|, i requires 0 <= i < |run| => PlaceOf(run[i], a))
  }

  lemma RunHasPlaces(run: seq<World>, a: AttemptId)
    requires IsRun(run)
    ensures forall i :: 0 <= i < |run| - 1 ==> PlaceStays(Places(run, a)[i], Places(run, a)[i + 1])
  {
    forall i | 0 <= i < |run| - 1 ensures PlaceStays(Places(run, a)[i], Places(run, a)[i + 1]) {
      RunKeepsCells(run, i);
      assert CellOkAt(run[i], a);
      assert Next(run[i], run[i + 1]);
      NextPlace(run[i], run[i + 1], a);
    }
  }

  lemma {:induction false} StuckPlaceStays(p: seq<Place>, i: nat, j: nat)
    requires forall k :: 0 <= k < |p| - 1 ==> PlaceStays(p[k], p[k + 1])
    requires i <= j < |p| && p[i].stuck
    ensures p[i].runner <= p[j].runner && (p[j].runner == p[i].runner ==> p[j].stuck && p[j].entry == p[i].entry)
    decreases j
  {
    if i < j {
      StuckPlaceStays(p, i, j - 1);
      assert PlaceStays(p[j - 1], p[j - 1 + 1]);
    }
  }

  /**
  A task whose committed save lost its reply, and whose row was acknowledged
  before it tried again, retries for the rest of the lifetime and keeps its entry
  among the active tasks.
   */
  lemma LateReplyHoldsItsSlot(run: seq<World>, i: nat, j: nat, a: AttemptId)
    requires IsRun(run) && i <= j < |run| && run[i].runner == run[j].runner && Stuck(CellAt(run[i], a))
    ensures Stuck(CellAt(run[j], a)) && CellAt(run[j], a).entry.Some? && CellAt(run[j], a).entry == CellAt(run[i], a).entry
  {
    RunHasPlaces(run, a);
    StuckPlaceStays(Places(run, a), i, j);
    assert Places(run, a)[i] == PlaceOf(run[i], a) && Places(run, a)[j] == PlaceOf(run[j], a);
    StuckHasEntry(run, i, a);
  }

  lemma StuckHasEntry(run: seq<World>, i: nat, a: AttemptId)
    requires IsRun(run) && i < |run| && Stuck(CellAt(run[i], a))
    ensures CellAt(run[i], a).entry.Some?
  {
    RunKeepsCells(run, i);
    assert CellOkAt(run[i], a);
  }
}
