/** What every step of the agent keeps, attempt by attempt. */
module AgentInvariant {
  import opened Common
  import opened Ledger
  import opened Agent

  /** What the handler is doing to one attempt. */
  datatype Focus = Elsewhere | ScanHere | SpawnHere(assignment: Assignment) | CancelHere(committed: bool)

  function FocusOn(handler: Handler, a: AttemptId): Focus {
    match handler
    case Recovering(corrupt) => if a in corrupt then ScanHere else Elsewhere
    case Spawning(asg) => if asg.attempt == a then SpawnHere(asg) else Elsewhere
    case Cancelling(b, committed) => if b == a then CancelHere(committed) else Elsewhere
    case _ => Elsewhere
  }

  predicate BeforeStart(pc: Pc) {
    pc in {Validating, Polling, Choosing, Rejecting, Acquired} || pc.Acquiring?
  }

  /** A task's place in its program, against its row and its active entry. */
  ghost predicate TaskOk(t: Task, row: Row, entry: Option<ActiveTask>, abandoned: bool, runner: RunnerId) {
    && row.owner == Some(runner)
    && row.document.Encoded?
    && t.lease == row.lease && t.excel == row.document.assignment.excel
    && (t.cancel ==> row.state in {Cancelled, CancelRequested, Finished, Acknowledged})
    && (t.pc == Spawned || t.pc.Sending? <==> entry.None?)
    && (entry.Some? ==> entry.value.task == t.id && entry.value.excel == t.excel)
    && (entry.Some? && BeforeStart(t.pc) ==> (entry.value.started <==> t.pc == Acquired))
    && (t.pc == Executing ==> entry.Some? && entry.value.started)
    && (match t.pc
        case Executing => row.state in {Running, CancelRequested}
        case Reporting => row.state in {Running, CancelRequested}
        case Saving(p, lost) =>
          if lost then row.state in {Finished, Acknowledged} && row.result == Some(p)
          else row.state in {Running, CancelRequested}
        case Saved(p) => row.state in {Finished, Acknowledged} && row.result == Some(p)
        case Sending(p) => row.state in {Finished, Acknowledged} && row.result == Some(p)
        case Leaving => row.state == Cancelled || (abandoned && row.state in {Claimed, Running, CancelRequested})
        case _ => row.state in {Claimed, Cancelled})
  }

  ghost predicate MessagesOk(c: Cell) {
    forall m :: m in c.sent || m in c.outbox ==>
      c.row.Some? && m.lease == c.row.value.lease && c.row.value.result == Some(m.payload)
  }

  /** No lifetime appears twice; the live one appears only with the matching row. */
  ghost predicate HistoryOk(c: Cell, runner: RunnerId) {
    && NoDuplicates(c.claims) && NoDuplicates(c.starts)
    && (forall r :: r in c.claims || r in c.starts ==> r <= runner)
    && (runner in c.claims || runner in c.starts ==> c.row.Some? && c.row.value.owner == Some(runner))
    && (runner in c.claims ==> c.row.value.state != Accepted)
    && (runner in c.starts ==> c.row.value.state !in {Accepted, Claimed})
  }

  ghost predicate FocusOk(c: Cell, a: AttemptId, runner: RunnerId, focus: Focus) {
    match focus
    case Elsewhere => true
    case ScanHere => c.row.Some? && c.row.value.document.Corrupt? && Recoverable(c.row.value, runner)
    case SpawnHere(asg) =>
      && c.tasks == [] && !c.abandoned && c.row.Some? && Startable(c.row.value, runner)
      && c.row.value.document.Encoded? && c.row.value.document.assignment == asg
    case CancelHere(committed) =>
      && (c.row.Some? ==> !Cancellable(c.row.value))
      && (committed ==> c.row.Some? && c.row.value.state in {Cancelled, CancelRequested, Finished, Acknowledged})
  }

  /** Rows the live lifetime is responsible for have somebody working on them. */
  ghost predicate Tended(c: Cell, runner: RunnerId, focus: Focus) {
    c.row.Some? && c.row.value.owner == Some(runner) && c.row.value.state in {Claimed, Running, CancelRequested} ==>
      |c.tasks| == 1 || focus.SpawnHere? || c.abandoned
  }

  ghost predicate CellOk(c: Cell, a: AttemptId, runner: RunnerId, focus: Focus) {
    && (c.row.Some? ==> RowOk(c.row.value, a, runner))
    && (c.row.None? ==> c.tasks == [])
    && |c.tasks| <= 1
    && (|c.tasks| == 1 ==> TaskOk(c.tasks[0], c.row.value, c.entry, c.abandoned, runner))
    && (c.tasks == [] ==> c.entry.None?)
    && (c.abandoned ==> c.row.Some? && c.row.value.owner == Some(runner) &&
                        c.row.value.state in {Claimed, Running, CancelRequested, Cancelled})
    && (c.abandoned && |c.tasks| == 1 ==> c.tasks[0].pc == Leaving)
    && MessagesOk(c)
    && HistoryOk(c, runner)
    && FocusOk(c, a, runner, focus)
    && Tended(c, runner, focus)
  }

  // ----- one attempt, one step -----

  predicate Walks(move: Move) { move.Validate? || move.Poll? || move.Choose? || move.Finish? }

  predicate Slots(move: Move) { move.Register? || move.Acquire? || move.Abandon? }

  predicate Exits(move: Move) { move.Release? || move.Send? || move.Leave? }

  lemma WalkKeepsCell(c: Cell, a: AttemptId, runner: RunnerId, focus: Focus, k: nat, move: Move,
                      settings: Settings, running: nat, excelRunning: nat)
    requires CellOk(c, a, runner, focus)
    requires k < |c.tasks| && MoveEnabled(c.tasks[k].pc, move) && Walks(move)
    ensures CellOk(MoveTask(c, runner, k, move, settings, running, excelRunning), a, runner, focus)
  {
  }

  lemma SlotKeepsCell(c: Cell, a: AttemptId, runner: RunnerId, focus: Focus, k: nat, move: Move,
                      settings: Settings, running: nat, excelRunning: nat)
    requires CellOk(c, a, runner, focus)
    requires k < |c.tasks| && MoveEnabled(c.tasks[k].pc, move) && Slots(move)
    ensures CellOk(MoveTask(c, runner, k, move, settings, running, excelRunning), a, runner, focus)
  {
  }

  lemma ExitKeepsCell(c: Cell, a: AttemptId, runner: RunnerId, focus: Focus, k: nat, move: Move,
                      settings: Settings, running: nat, excelRunning: nat)
    requires CellOk(c, a, runner, focus)
    requires k < |c.tasks| && MoveEnabled(c.tasks[k].pc, move) && Exits(move)
    ensures CellOk(MoveTask(c, runner, k, move, settings, running, excelRunning), a, runner, focus)
  {
  }

  lemma StartKeepsCell(c: Cell, a: AttemptId, runner: RunnerId, focus: Focus, k: nat)
    requires CellOk(c, a, runner, focus)
    requires k < |c.tasks| && MoveEnabled(c.tasks[k].pc, Start)
    ensures CellOk(StartMove(c, runner, k), a, runner, focus)
  {
    if runner !in c.starts {
      AppendNoDuplicates(c.starts, runner);
    }
  }

  lemma StartErrorKeepsCell(c: Cell, a: AttemptId, runner: RunnerId, focus: Focus, k: nat, committed: bool)
    requires CellOk(c, a, runner, focus)
    requires k < |c.tasks| && MoveEnabled(c.tasks[k].pc, StartError(committed))
    ensures CellOk(StartErrorMove(c, runner, k, committed), a, runner, focus)
  {
    if runner !in c.starts {
      AppendNoDuplicates(c.starts, runner);
    }
  }

  lemma SaveKeepsCell(c: Cell, a: AttemptId, runner: RunnerId, focus: Focus, k: nat, reply: bool)
    requires CellOk(c, a, runner, focus)
    requires k < |c.tasks| && c.tasks[k].pc.Saving?
    ensures CellOk(SaveMove(c, runner, k, reply), a, runner, focus)
  {
  }

  lemma MoveKeepsCell(c: Cell, a: AttemptId, runner: RunnerId, focus: Focus, k: nat, move: Move,
                      settings: Settings, running: nat, excelRunning: nat)
    requires CellOk(c, a, runner, focus)
    requires k < |c.tasks| && MoveEnabled(c.tasks[k].pc, move)
    ensures CellOk(MoveTask(c, runner, k, move, settings, running, excelRunning), a, runner, focus)
  {
    if move.Start? {
      StartKeepsCell(c, a, runner, focus, k);
    } else if move.StartError? {
      StartErrorKeepsCell(c, a, runner, focus, k, move.committed);
    } else if move.Save? {
      SaveKeepsCell(c, a, runner, focus, k, move.reply);
    } else if Walks(move) {
      WalkKeepsCell(c, a, runner, focus, k, move, settings, running, excelRunning);
    } else if Slots(move) {
      SlotKeepsCell(c, a, runner, focus, k, move, settings, running, excelRunning);
    } else {
      ExitKeepsCell(c, a, runner, focus, k, move, settings, running, excelRunning);
    }
  }

  lemma ClaimKeepsCell(c: Cell, a: AttemptId, runner: RunnerId, asg: Assignment, document: Document)
    requires CellOk(c, a, runner, Elsewhere)
    requires document == Encoded(asg, document.raw) && asg.attempt == a
    requires c.row.Some? && Claimable(c.row.value, asg, document, runner)
    ensures CellOk(c.(row := Some(ClaimRow(c.row.value, runner)), claims := c.claims + [runner]), a, runner, SpawnHere(asg))
  {
    AppendNoDuplicates(c.claims, runner);
  }

  lemma ClaimErrorKeepsCell(c: Cell, a: AttemptId, runner: RunnerId, asg: Assignment, document: Document)
    requires CellOk(c, a, runner, Elsewhere)
    requires document == Encoded(asg, document.raw) && asg.attempt == a
    requires c.row.Some? && Claimable(c.row.value, asg, document, runner)
    ensures CellOk(c.(row := Some(ClaimRow(c.row.value, runner)), claims := c.claims + [runner], abandoned := true),
                   a, runner, Elsewhere)
  {
    AppendNoDuplicates(c.claims, runner);
  }

  lemma SpawnKeepsCell(c: Cell, a: AttemptId, runner: RunnerId, asg: Assignment)
    requires CellOk(c, a, runner, SpawnHere(asg))
    ensures CellOk(SpawnCell(c, asg), a, runner, Elsewhere)
  {
  }

  lemma CancelKeepsCell(c: Cell, a: AttemptId, runner: RunnerId)
    requires CellOk(c, a, runner, Elsewhere)
    ensures CellOk(CancelCell(c), a, runner, CancelHere(c.row.Some? && Cancellable(c.row.value)))
  {
  }

  lemma SignalKeepsCell(c: Cell, a: AttemptId, runner: RunnerId, committed: bool)
    requires CellOk(c, a, runner, CancelHere(committed))
    ensures CellOk(SignalCell(c), a, runner, Elsewhere)
    ensures |c.tasks| == 1 && c.entry.Some? ==> |SignalCell(c).tasks| == 1 && SignalCell(c).tasks[0].cancel
    ensures SignalCell(c).row == c.row && |SignalCell(c).tasks| == |c.tasks|
  {
  }

  lemma CrashKeepsCell(c: Cell, a: AttemptId, runner: RunnerId, focus: Focus)
    requires CellOk(c, a, runner, focus)
    ensures CellOk(CrashCell(c), a, runner + 1, Elsewhere)
  {
  }

  lemma FlushKeepsCell(c: Cell, a: AttemptId, runner: RunnerId, focus: Focus)
    requires CellOk(c, a, runner, focus)
    ensures CellOk(FlushCell(c), a, runner, focus)
  {
  }

  lemma OutboxKeepsCell(c: Cell, a: AttemptId, runner: RunnerId, focus: Focus,
                        outbox: set<ResultMessage>, sent: set<ResultMessage>)
    requires CellOk(c, a, runner, focus) && outbox + sent <= c.outbox + c.sent
    ensures CellOk(c.(outbox := outbox, sent := sent), a, runner, focus)
  {
    forall m | m in sent || m in outbox ensures m in c.sent || m in c.outbox {
      assert m in outbox + sent;
    }
  }

  lemma AckKeepsCell(c: Cell, a: AttemptId, runner: RunnerId)
    requires CellOk(c, a, runner, Elsewhere) && c.row.Some?
    ensures CellOk(c.(row := Some(AcknowledgeRow(c.row.value))), a, runner, Elsewhere)
  {
  }

  lemma QuarantineKeepsCell(c: Cell, a: AttemptId, runner: RunnerId)
    requires CellOk(c, a, runner, ScanHere)
    ensures CellOk(c.(row := Some(QuarantineRow(c.row.value))), a, runner, Elsewhere)
  {
  }

  lemma RecordKeepsCell(c: Cell, a: AttemptId, runner: RunnerId, asg: Assignment, document: Document)
    requires CellOk(c, a, runner, Elsewhere)
    requires document == Encoded(asg, document.raw) && asg.attempt == a
    ensures CellOk(RecordCell(c, asg, document), a, runner, Elsewhere)
  {
  }

  /** The handler may turn to an attempt, or leave one whose task it has spawned. */
  lemma Refocus(c: Cell, a: AttemptId, runner: RunnerId, focus: Focus, focus': Focus)
    requires CellOk(c, a, runner, focus) && !focus.SpawnHere?
    requires FocusOk(c, a, runner, focus')
    ensures CellOk(c, a, runner, focus')
  {
  }

  // ----- the whole world -----

  ghost predicate CellOkAt(w: World, a: AttemptId) {
    CellOk(CellAt(w, a), a, w.runner, FocusOn(w.handler, a))
  }

  ghost predicate CellsOk(w: World) { forall a :: CellOkAt(w, a) }

  predicate AboutOffer(step: Step) {
    || step.OfferArrives? || step.OfferReplayed? || step.OfferRefused? || step.OfferPassed? || step.OfferAccepted? || step.OfferDropped?
  }

  predicate AboutClaim(step: Step) { step.RecordOffer? || step.ClaimStep? || step.ClaimError? || step.SpawnStep? }

  lemma OfferStepKeeps(w: World, step: Step, a: AttemptId)
    requires CellOkAt(w, a) && Enabled(w, step) && AboutOffer(step)
    ensures CellOkAt(Apply(w, step), a)
  {
    var c, f, f' := CellAt(w, a), FocusOn(w.handler, a), FocusOn(Apply(w, step).handler, a);
    if step.OfferReplayed? {
      FlushKeepsCell(c, a, w.runner, f);
    } else {
      Refocus(c, a, w.runner, f, f');
    }
  }

  lemma RecordStepKeeps(w: World, a: AttemptId)
    requires CellOkAt(w, a) && Enabled(w, RecordOffer)
    ensures CellOkAt(Apply(w, RecordOffer), a)
  {
    var document := w.handler.document;
    if document.assignment.attempt == a {
      RecordKeepsCell(CellAt(w, a), a, w.runner, document.assignment, document);
    }
  }

  lemma ClaimStepKeeps(w: World, step: Step, a: AttemptId)
    requires CellOkAt(w, a) && Enabled(w, step) && (step.ClaimStep? || step.ClaimError?)
    ensures CellOkAt(Apply(w, step), a)
  {
    var c, document := CellAt(w, a), w.handler.document;
    if document.assignment.attempt == a && c.row.Some? && Claimable(c.row.value, document.assignment, document, w.runner) {
      ClaimKeepsCell(c, a, w.runner, document.assignment, document);
      ClaimErrorKeepsCell(c, a, w.runner, document.assignment, document);
    }
  }

  lemma SpawnStepKeeps(w: World, a: AttemptId)
    requires CellOkAt(w, a) && Enabled(w, SpawnStep)
    ensures CellOkAt(Apply(w, SpawnStep), a)
  {
    if w.handler.assignment.attempt == a {
      SpawnKeepsCell(CellAt(w, a), a, w.runner, w.handler.assignment);
    }
  }

  predicate AboutRow(step: Step) { step.QuarantineOne? || step.AckArrives? || step.ResumeDenied? }

  lemma RowStepKeeps(w: World, step: Step, a: AttemptId)
    requires CellOkAt(w, a) && Enabled(w, step) && AboutRow(step)
    ensures CellOkAt(Apply(w, step), a)
  {
    var c := CellAt(w, a);
    match step
    case QuarantineOne(b) =>
      if b == a { QuarantineKeepsCell(c, a, w.runner); }
    case AckArrives(b) =>
      if b == a && c.row.Some? { AckKeepsCell(c, a, w.runner); }
    case ResumeDenied(b) =>
      if b == a {
        CancelKeepsCell(c, a, w.runner);
        Refocus(CancelCell(c), a, w.runner, CancelHere(c.row.Some? && Cancellable(c.row.value)), Elsewhere);
      }
  }

  lemma CancelStepKeeps(w: World, step: Step, a: AttemptId)
    requires CellOkAt(w, a) && Enabled(w, step) && (step.CancelArrives? || step.CancelSignals?)
    ensures CellOkAt(Apply(w, step), a)
  {
    var c := CellAt(w, a);
    if step.CancelArrives? {
      if step.attempt == a { CancelKeepsCell(c, a, w.runner); }
    } else if w.handler.attempt == a {
      SignalKeepsCell(c, a, w.runner, w.handler.committed);
    }
  }

  predicate AboutStream(step: Step) {
    step.Flush? || step.SendQueued? || step.StreamLost? || step.Crash?
  }

  lemma StreamStepKeeps(w: World, step: Step, a: AttemptId)
    requires CellOkAt(w, a) && Enabled(w, step) && AboutStream(step)
    ensures CellOkAt(Apply(w, step), a)
  {
    var c, f := CellAt(w, a), FocusOn(w.handler, a);
    match step
    case Flush => FlushKeepsCell(c, a, w.runner, f);
    case SendQueued(b, m) => if b == a { OutboxKeepsCell(c, a, w.runner, f, c.outbox - {m}, c.sent + {m}); }
    case StreamLost => OutboxKeepsCell(c, a, w.runner, f, {}, c.sent);
    case Crash => CrashKeepsCell(c, a, w.runner, f);
  }

  lemma QuietStepKeeps(w: World, step: Step, a: AttemptId)
    requires CellOkAt(w, a) && Enabled(w, step)
    requires step.RecoveryScan? || step.RecoveryDone? || step.SettingsArrive? || step.SettingsApplied? || step.ResumeGranted?
    ensures CellOkAt(Apply(w, step), a)
  {
    Refocus(CellAt(w, a), a, w.runner, FocusOn(w.handler, a), FocusOn(Apply(w, step).handler, a));
  }

  lemma StepKeepsCells(w: World, step: Step)
    requires CellsOk(w) && Enabled(w, step)
    ensures CellsOk(Apply(w, step))
  {
    forall a ensures CellOkAt(Apply(w, step), a) {
      assert CellOkAt(w, a);
      if AboutOffer(step) {
        OfferStepKeeps(w, step, a);
      } else if step.RecordOffer? {
        RecordStepKeeps(w, a);
      } else if step.ClaimStep? || step.ClaimError? {
        ClaimStepKeeps(w, step, a);
      } else if step.SpawnStep? {
        SpawnStepKeeps(w, a);
      } else if step.TaskMoves? {
        if step.attempt == a {
          MoveKeepsCell(CellAt(w, a), a, w.runner, FocusOn(w.handler, a), step.index, step.move, w.settings,
                        |StartedAttempts(w)|, |StartedExcel(w)|);
        }
      } else if AboutRow(step) {
        RowStepKeeps(w, step, a);
      } else if step.CancelArrives? || step.CancelSignals? {
        CancelStepKeeps(w, step, a);
      } else if AboutStream(step) {
        StreamStepKeeps(w, step, a);
      } else {
        QuietStepKeeps(w, step, a);
      }
    }
  }

  lemma InitCells(w: World)
    requires Init(w)
    ensures CellsOk(w)
  {
    forall a ensures CellOkAt(w, a) {
      if a in w.cells { assert w.cells[a] == NO_CELL.(row := w.cells[a].row); }
    }
  }
}
