/** Slot accounting: how many tasks execute at once, under any sequence of settings updates. */
module AgentSlots {
  import opened Common
  import opened Ledger
  import opened Agent
  import opened AgentInvariant
  import AgentRuns

  predicate Started(c: Cell) { c.entry.Some? && c.entry.value.started }

  predicate StartedAsExcel(c: Cell) { Started(c) && c.entry.value.excel }

  /** A settings copy held by the task is one the agent has held. */
  ghost predicate CopyOk(tasks: seq<Task>, maxHeld: nat) {
    |tasks| == 1 && tasks[0].pc.Acquiring? ==> tasks[0].pc.maxParallel <= maxHeld && tasks[0].pc.excelMax <= 1
  }

  ghost predicate SettingsOk(w: World) {
    && w.settings.maxParallel <= w.maxHeld && w.settings.excelMaxParallel <= 1
    && (w.persisted.Some? ==> ValidSettings(w.persisted.value))
    && (w.handler.Applying? ==> ValidSettings(w.handler.settings))
  }

  ghost predicate SlotsOk(w: World) {
    && SettingsOk(w)
    && |StartedAttempts(w)| <= w.maxHeld
    && |StartedExcel(w)| <= 1
    && forall a :: CopyOk(CellAt(w, a).tasks, w.maxHeld)
  }

  /** The step gives a task of `a` its slot. */
  ghost predicate TakesSlot(w: World, step: Step, a: AttemptId) {
    && step.TaskMoves? && step.attempt == a && step.move.Acquire?
    && step.index < |CellAt(w, a).tasks| && CellAt(w, a).tasks[step.index].pc.Acquiring?
    && var t := CellAt(w, a).tasks[step.index];
       CapacityAvailable(|StartedAttempts(w)|, |StartedExcel(w)|, t.pc.maxParallel, t.pc.excelMax, t.excel)
  }

  /** Among the moves of a task, only taking a slot marks its entry as started. */
  lemma MoveStarts(c: Cell, a: AttemptId, runner: RunnerId, focus: Focus, k: nat, move: Move,
                   settings: Settings, running: nat, excelRunning: nat)
    requires CellOk(c, a, runner, focus) && k < |c.tasks| && MoveEnabled(c.tasks[k].pc, move)
    ensures var c' := MoveTask(c, runner, k, move, settings, running, excelRunning);
            var t := c.tasks[k];
            var takes := move.Acquire? && CapacityAvailable(running, excelRunning, t.pc.maxParallel, t.pc.excelMax, t.excel);
            && (Started(c') ==> Started(c) || takes)
            && (StartedAsExcel(c') ==> StartedAsExcel(c) || (takes && t.excel))
  {
  }

  lemma OfferStartsNothing(w: World, step: Step, a: AttemptId)
    requires Enabled(w, step) && AboutOffer(step)
    ensures CellAt(Apply(w, step), a).entry == CellAt(w, a).entry
  {
  }

  lemma ClaimStartsNothing(w: World, step: Step, a: AttemptId)
    requires Enabled(w, step) && AboutClaim(step)
    ensures CellAt(Apply(w, step), a).entry == CellAt(w, a).entry
  {
  }

  lemma RestStartsNothing(w: World, step: Step, a: AttemptId)
    requires Enabled(w, step) && !AboutOffer(step) && !AboutClaim(step) && !step.TaskMoves?
    ensures CellAt(Apply(w, step), a).entry == if step.Crash? then None else CellAt(w, a).entry
  {
  }

  lemma OnlyAcquireStarts(w: World, step: Step, a: AttemptId)
    requires CellOkAt(w, a) && Enabled(w, step)
    ensures Started(CellAt(Apply(w, step), a)) ==> Started(CellAt(w, a)) || TakesSlot(w, step, a)
    ensures StartedAsExcel(CellAt(Apply(w, step), a)) ==>
              StartedAsExcel(CellAt(w, a)) || (TakesSlot(w, step, a) && CellAt(w, a).tasks[step.index].excel)
  {
    if AboutOffer(step) {
      OfferStartsNothing(w, step, a);
    } else if AboutClaim(step) {
      ClaimStartsNothing(w, step, a);
    } else if step.TaskMoves? {
      if step.attempt == a {
        MoveStarts(CellAt(w, a), a, w.runner, FocusOn(w.handler, a), step.index, step.move, w.settings,
                   |StartedAttempts(w)|, |StartedExcel(w)|);
      }
    } else {
      RestStartsNothing(w, step, a);
    }
  }

  lemma MovedCopyOk(c: Cell, a: AttemptId, runner: RunnerId, focus: Focus, k: nat, move: Move,
                    settings: Settings, running: nat, excelRunning: nat, maxHeld: nat)
    requires CellOk(c, a, runner, focus) && CopyOk(c.tasks, maxHeld)
    requires k < |c.tasks| && MoveEnabled(c.tasks[k].pc, move)
    requires settings.maxParallel <= maxHeld && settings.excelMaxParallel <= 1
    ensures CopyOk(MoveTask(c, runner, k, move, settings, running, excelRunning).tasks, maxHeld)
  {
  }

  /** Only a task's own moves, a spawn, a signal or a crash touch its program counter. */
  lemma OtherStepsKeepCopy(w: World, step: Step, a: AttemptId)
    requires CellOkAt(w, a) && Enabled(w, step) && !step.TaskMoves?
    ensures var tasks, tasks' := CellAt(w, a).tasks, CellAt(Apply(w, step), a).tasks;
            |tasks'| == 1 && tasks'[0].pc.Acquiring? ==> |tasks| == 1 && tasks[0].pc == tasks'[0].pc
  {
    if AboutOffer(step) {
      OfferKeepsCopy(w, step, a);
    } else if AboutClaim(step) {
      ClaimKeepsCopy(w, step, a);
    }
  }

  lemma OfferKeepsCopy(w: World, step: Step, a: AttemptId)
    requires CellOkAt(w, a) && Enabled(w, step) && AboutOffer(step)
    ensures var tasks, tasks' := CellAt(w, a).tasks, CellAt(Apply(w, step), a).tasks;
            |tasks'| == 1 && tasks'[0].pc.Acquiring? ==> tasks' == tasks
  {
  }

  lemma ClaimKeepsCopy(w: World, step: Step, a: AttemptId)
    requires CellOkAt(w, a) && Enabled(w, step) && AboutClaim(step)
    ensures var tasks, tasks' := CellAt(w, a).tasks, CellAt(Apply(w, step), a).tasks;
            |tasks'| == 1 && tasks'[0].pc.Acquiring? ==> tasks' == tasks
  {
  }

  lemma SettingsStayOk(w: World, step: Step)
    requires Enabled(w, step) && SettingsOk(w)
    ensures SettingsOk(Apply(w, step))
    ensures !step.Crash? ==> w.maxHeld <= Apply(w, step).maxHeld
  {
  }

  lemma CopyStaysOk(w: World, step: Step, a: AttemptId)
    requires CellOkAt(w, a) && Enabled(w, step) && SettingsOk(w) && CopyOk(CellAt(w, a).tasks, w.maxHeld)
    ensures CopyOk(CellAt(Apply(w, step), a).tasks, Apply(w, step).maxHeld)
  {
    if step.TaskMoves? {
      if step.attempt == a {
        MovedCopyOk(CellAt(w, a), a, w.runner, FocusOn(w.handler, a), step.index, step.move, w.settings,
                    |StartedAttempts(w)|, |StartedExcel(w)|, w.maxHeld);
      }
    } else if !step.Crash? {
      OtherStepsKeepCopy(w, step, a);
      SettingsStayOk(w, step);
    }
  }

  /** The attempt that takes a slot in this step, if any. */
  ghost function Taker(w: World, step: Step): set<AttemptId> {
    if step.TaskMoves? && TakesSlot(w, step, step.attempt) then {step.attempt} else {}
  }

  ghost function ExcelTaker(w: World, step: Step): set<AttemptId> {
    if step.TaskMoves? && TakesSlot(w, step, step.attempt) && CellAt(w, step.attempt).tasks[step.index].excel
    then {step.attempt} else {}
  }

  lemma OnlyTakersAreAdded(w: World, step: Step)
    requires CellsOk(w) && Enabled(w, step)
    ensures StartedAttempts(Apply(w, step)) <= StartedAttempts(w) + Taker(w, step)
    ensures StartedExcel(Apply(w, step)) <= StartedExcel(w) + ExcelTaker(w, step)
    ensures step.Crash? ==> StartedAttempts(Apply(w, step)) == {}
  {
    var w' := Apply(w, step);
    forall a ensures a in StartedAttempts(w') ==> a in StartedAttempts(w) + Taker(w, step)
             ensures a in StartedExcel(w') ==> a in StartedExcel(w) + ExcelTaker(w, step)
    {
      assert CellOkAt(w, a);
      OnlyAcquireStarts(w, step, a);
    }
  }

  /** A slot is taken only below the limit of a settings copy that the agent has held. */
  lemma TakerFits(w: World, step: Step)
    requires CellsOk(w) && Enabled(w, step) && SlotsOk(w)
    ensures |Taker(w, step)| <= 1 && |ExcelTaker(w, step)| <= 1
    ensures Taker(w, step) != {} ==> |StartedAttempts(w)| < w.maxHeld
    ensures ExcelTaker(w, step) != {} ==> |StartedExcel(w)| == 0
  {
    if step.TaskMoves? {
      assert CellOkAt(w, step.attempt) && CopyOk(CellAt(w, step.attempt).tasks, w.maxHeld);
    }
  }

  lemma UnionSize(a: set<AttemptId>, b: set<AttemptId>, c: set<AttemptId>)
    requires a <= b + c && |c| <= 1
    ensures |a| <= |b| + |c|
  {
    SubsetSize(a, b + c);
    SubsetSize(c - b, c);
    assert b + c == b + (c - b);
  }

  lemma CountsStayOk(w: World, step: Step)
    requires CellsOk(w) && Enabled(w, step) && SlotsOk(w)
    ensures !step.Crash? ==> |StartedAttempts(Apply(w, step))| <= w.maxHeld
    ensures step.Crash? ==> StartedAttempts(Apply(w, step)) == {}
    ensures |StartedExcel(Apply(w, step))| <= 1
  {
    OnlyTakersAreAdded(w, step);
    TakerFits(w, step);
    UnionSize(StartedAttempts(Apply(w, step)), StartedAttempts(w), Taker(w, step));
    UnionSize(StartedExcel(Apply(w, step)), StartedExcel(w), ExcelTaker(w, step));
  }

  lemma StepKeepsSlots(w: World, step: Step)
    requires CellsOk(w) && Enabled(w, step) && SlotsOk(w)
    ensures SlotsOk(Apply(w, step))
  {
    CountsStayOk(w, step);
    SettingsStayOk(w, step);
    forall a ensures CopyOk(CellAt(Apply(w, step), a).tasks, Apply(w, step).maxHeld) {
      assert CellOkAt(w, a);
      CopyStaysOk(w, step, a);
    }
  }

  lemma {:induction false} RunKeepsSlots(run: seq<World>, i: nat)
    requires IsRun(run) && i < |run|
    ensures SlotsOk(run[i])
  {
    if i == 0 {
      assert StartedAttempts(run[0]) == {} && StartedExcel(run[0]) == {};
    } else {
      RunKeepsSlots(run, i - 1);
      AgentRuns.RunKeepsCells(run, i - 1);
      assert Next(run[i - 1], run[i]);
      var step :| Enabled(run[i - 1], step) && run[i] == Apply(run[i - 1], step);
      StepKeepsSlots(run[i - 1], step);
    }
  }

  ghost function ExecutingAttempts(w: World): set<AttemptId> {
    set a | a in w.cells && exists k :: 0 <= k < |w.cells[a].tasks| && w.cells[a].tasks[k].pc == Executing
  }

  ghost function ExecutingExcel(w: World): set<AttemptId> {
    set a | a in w.cells &&
            exists k :: 0 <= k < |w.cells[a].tasks| && w.cells[a].tasks[k].pc == Executing && w.cells[a].tasks[k].excel
  }

  /**
  Executor processes never outnumber the largest max_parallel this lifetime has
  held, never include two Excel tasks, and never include two of one attempt,
  although a task decides on a settings copy that may have been replaced since.
   */
  lemma ExecutionStaysWithinSlots(run: seq<World>, i: nat)
    requires IsRun(run) && i < |run|
    ensures |ExecutingAttempts(run[i])| <= run[i].maxHeld
    ensures |ExecutingExcel(run[i])| <= 1
    ensures forall a :: |CellAt(run[i], a).tasks| <= 1
  {
    var w := run[i];
    RunKeepsSlots(run, i);
    AgentRuns.RunKeepsCells(run, i);
    forall a ensures |CellAt(w, a).tasks| <= 1
             ensures a in ExecutingAttempts(w) ==> a in StartedAttempts(w)
             ensures a in ExecutingExcel(w) ==> a in StartedExcel(w)
    {
      assert CellOkAt(w, a);
    }
    SubsetSize(ExecutingAttempts(w), StartedAttempts(w));
    SubsetSize(ExecutingExcel(w), StartedExcel(w));
  }
}
