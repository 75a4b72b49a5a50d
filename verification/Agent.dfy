/**
The agent process as a state machine: the durable ledger rows, the spawned
`execute_assignment` tasks, the `active` table and the one message handler,
interleaved at every await, with crashes and restarts in between.

Everything the protocol keeps per attempt sits in one `Cell`. The handler is
sequential: a stream handles one coordinator message at a time, and a new
stream starts only when the last one has ended.
 */
module Agent {
  import opened Common
  import opened Ledger

  datatype Settings = Settings(maxParallel: nat, excelMaxParallel: nat, rootsAbsolute: bool)

  predicate ValidSettings(s: Settings) {
    s.maxParallel != 0 && s.excelMaxParallel <= 1 && s.rootsAbsolute
  }

  /** Settings of an agent that has never been sent any: capacity comes from its configuration. */
  function DefaultSettings(capacity: nat): Settings { Settings(capacity, 1, true) }

  datatype ResultMessage = ResultMessage(lease: string, payload: string)

  /** An entry of the `active` table; `task` is the task whose cancel sender it holds. */
  datatype ActiveTask = ActiveTask(task: nat, excel: bool, started: bool)

  /** Where one `execute_assignment` task stands. */
  datatype Pc =
    | Spawned                                          // not in `active` yet
    | Validating                                       // first policy check
    | Polling                                          // top of the wait loop
    | Choosing                                         // about to copy the settings
    | Acquiring(maxParallel: nat, excelMax: nat)       // holds a settings copy
    | Rejecting                                        // policy refused it; about to start it to report that
    | Acquired                                         // has a slot; about to start it
    | Executing
    | Reporting                                        // started only to report a refusal
    | Saving(payload: string, lost: bool)              // `lost`: a save was committed but its reply was not seen
    | Saved(payload: string)
    | Sending(payload: string)
    | Leaving

  datatype Task = Task(id: nat, lease: string, excel: bool, pc: Pc, cancel: bool)

  datatype Cell = Cell(
    row: Option<Row>,
    tasks: seq<Task>,
    entry: Option<ActiveTask>,
    nextTask: nat,
    abandoned: bool,                // this lifetime gave up: its claim or start failed, or the result would not serialize
    outbox: set<ResultMessage>,     // read from the ledger, not yet sent
    sent: set<ResultMessage>,       // every result message ever sent
    claims: seq<RunnerId>,          // the lifetimes that claimed the attempt
    starts: seq<RunnerId>)          // the lifetimes that started it

  const NO_CELL: Cell := Cell(None, [], None, 0, false, {}, {}, [], [])

  datatype Handler =
    | Idle
    | Recovering(corrupt: set<AttemptId>)
    | OfferRead(document: Document)
    | Recording(document: Document)
    | Recorded(document: Document)
    | Claiming(document: Document)
    | Spawning(assignment: Assignment)
    | Cancelling(attempt: AttemptId, committed: bool)
    | Applying(settings: Settings)

  datatype World = World(
    runner: RunnerId,
    cells: map<AttemptId, Cell>,
    handler: Handler,
    capacity: nat,
    settings: Settings,
    persisted: Option<Settings>,
    maxHeld: nat)                   // the largest max_parallel held in this lifetime

  function CellAt(w: World, a: AttemptId): Cell { if a in w.cells then w.cells[a] else NO_CELL }

  function Put(w: World, a: AttemptId, c: Cell): World { w.(cells := w.cells[a := c]) }

  // ----- steps of one task -----

  datatype Move =
    | Register
    | Validate(ok: bool)
    | Poll
    | Choose(ok: bool)
    | Acquire
    | Start
    | StartError(committed: bool)
    | Finish(payload: string)
    | Abandon
    | Save(reply: bool)
    | Release
    | Send(delivered: bool)
    | Leave

  predicate MoveEnabled(pc: Pc, move: Move) {
    match move
    case Register => pc == Spawned
    case Validate(_) => pc == Validating
    case Poll => pc == Polling
    case Choose(_) => pc == Choosing
    case Acquire => pc.Acquiring?
    case Start => pc in {Rejecting, Acquired}
    case StartError(_) => pc in {Rejecting, Acquired}
    case Finish(_) => pc in {Executing, Reporting}
    case Abandon => pc in {Executing, Reporting}
    case Save(_) => pc.Saving?
    case Release => pc.Saved?
    case Send(_) => pc.Sending?
    case Leave => pc == Leaving
  }

  function SetPc(c: Cell, k: nat, pc: Pc): Cell
    requires k < |c.tasks|
  {
    c.(tasks := c.tasks[k := c.tasks[k].(pc := pc)])
  }

  function DropTask(c: Cell, k: nat): Cell
    requires k < |c.tasks|
  {
    c.(tasks := c.tasks[..k] + c.tasks[k + 1..])
  }

  /** `capacity_available`, on a copy of the settings and the counts of started entries. */
  predicate CapacityAvailable(running: nat, excelRunning: nat, maxParallel: nat, excelMax: nat, excel: bool) {
    running < maxParallel && (!excel || excelRunning < excelMax)
  }

  function StartMove(c: Cell, runner: RunnerId, k: nat): Cell
    requires k < |c.tasks|
  {
    if c.row.Some? && Startable(c.row.value, runner) then
      SetPc(c, k, if c.tasks[k].pc == Rejecting then Reporting else Executing)
      .(row := Some(c.row.value.(state := Running)), starts := c.starts + [runner])
    else SetPc(c, k, Leaving)
  }

  /** The database reports an error, with or without having made the change; the task takes it for a refusal. */
  function StartErrorMove(c: Cell, runner: RunnerId, k: nat, committed: bool): Cell
    requires k < |c.tasks|
  {
    if c.row.Some? && Startable(c.row.value, runner) then
      var c' := SetPc(c, k, Leaving).(abandoned := true);
      if committed then c'.(row := Some(c.row.value.(state := Running)), starts := c.starts + [runner]) else c'
    else SetPc(c, k, Leaving)
  }

  function SaveMove(c: Cell, runner: RunnerId, k: nat, reply: bool): Cell
    requires k < |c.tasks| && c.tasks[k].pc.Saving?
  {
    var payload := c.tasks[k].pc.payload;
    if c.row.Some? && Savable(c.row.value, runner) then
      SetPc(c, k, if reply then Saved(payload) else Saving(payload, true))
      .(row := Some(SaveRow(c.row.value, payload)))
    else if c.row.Some? && AlreadySaved(c.row.value, runner, payload) then SetPc(c, k, Saved(payload))
    else c
  }

  function MoveTask(c: Cell, runner: RunnerId, k: nat, move: Move, settings: Settings, running: nat, excelRunning: nat): Cell
    requires k < |c.tasks| && MoveEnabled(c.tasks[k].pc, move)
  {
    var t := c.tasks[k];
    match move
    case Register => SetPc(c, k, Validating).(entry := Some(ActiveTask(t.id, t.excel, false)))
    case Validate(ok) => SetPc(c, k, if ok then Polling else Rejecting)
    case Poll => SetPc(c, k, if t.cancel then Leaving else Choosing)
    case Choose(ok) =>
      SetPc(c, k, if ok then Acquiring(settings.maxParallel, settings.excelMaxParallel) else Rejecting)
    case Acquire =>
      if !CapacityAvailable(running, excelRunning, t.pc.maxParallel, t.pc.excelMax, t.excel) then SetPc(c, k, Polling)
      else
        SetPc(c, k, Acquired)
        .(entry := if c.entry.Some? then Some(c.entry.value.(started := true)) else None)
    case Start => StartMove(c, runner, k)
    case StartError(committed) => StartErrorMove(c, runner, k, committed)
    case Finish(payload) => SetPc(c, k, Saving(payload, false))
    case Abandon => SetPc(c, k, Leaving).(abandoned := true)
    case Save(reply) => SaveMove(c, runner, k, reply)
    case Release => SetPc(c, k, Sending(t.pc.payload)).(entry := None)
    case Send(delivered) =>
      DropTask(c, k)
      .(sent := c.sent + if delivered then {ResultMessage(t.lease, t.pc.payload)} else {})
    case Leave => DropTask(c, k).(entry := None)
  }

  // ----- steps of the handler and its surroundings on one cell -----

  function PendingMessage(row: Row): ResultMessage
    requires row.result.Some?
  {
    ResultMessage(row.lease, row.result.value)
  }

  function FlushCell(c: Cell): Cell {
    if c.row.Some? && Pending(c.row.value) then c.(outbox := c.outbox + {PendingMessage(c.row.value)}) else c
  }

  function CrashCell(c: Cell): Cell { c.(tasks := [], entry := None, abandoned := false, outbox := {}) }

  function RecordCell(c: Cell, assignment: Assignment, document: Document): Cell {
    if c.row.None? then c.(row := Some(FreshRow(assignment, document))) else c
  }

  function SpawnCell(c: Cell, assignment: Assignment): Cell {
    c.(tasks := c.tasks + [Task(c.nextTask, assignment.lease, assignment.excel, Spawned, false)],
    nextTask := c.nextTask + 1)
  }

  function CancelCell(c: Cell): Cell {
    if c.row.Some? then c.(row := Some(CancelRow(c.row.value))) else c
  }

  /** Raises the flag of the task whose sender the active entry holds. */
  function SignalCell(c: Cell): Cell {
    if c.entry.None? then c
    else c.(tasks := seq(|c.tasks|, i requires 0 <= i < |c.tasks| =>
                         if c.tasks[i].id == c.entry.value.task then c.tasks[i].(cancel := true) else c.tasks[i]))
  }

  // ----- the machine -----

  ghost function StartedAttempts(w: World): set<AttemptId> {
    set a | a in w.cells && w.cells[a].entry.Some? && w.cells[a].entry.value.started
  }

  ghost function StartedExcel(w: World): set<AttemptId> {
    set a | a in StartedAttempts(w) && w.cells[a].entry.value.excel
  }

  datatype Step =
    | RecoveryScan
    | QuarantineOne(attempt: AttemptId)
    | RecoveryDone
    | OfferArrives(document: Document)
    | OfferReplayed
    | OfferRefused
    | OfferPassed
    | RecordOffer
    | OfferAccepted
    | OfferDropped
    | ClaimStep
    | ClaimError(committed: bool)
    | SpawnStep
    | CancelArrives(attempt: AttemptId)
    | CancelSignals
    | SettingsArrive(settings: Settings)
    | SettingsApplied
    | AckArrives(attempt: AttemptId)
    | ResumeDenied(attempt: AttemptId)
    | ResumeGranted(attempt: AttemptId, lease: string)
    | Flush
    | SendQueued(attempt: AttemptId, message: ResultMessage)
    | StreamLost
    | TaskMoves(attempt: AttemptId, index: nat, move: Move)
    | Crash

  ghost predicate Enabled(w: World, step: Step) {
    match step
    case RecoveryScan => w.handler.Idle?
    case QuarantineOne(a) => w.handler.Recovering? && a in w.handler.corrupt && CellAt(w, a).row.Some?
    case RecoveryDone => w.handler == Recovering({})
    case OfferArrives(_) => w.handler.Idle?
    case OfferReplayed =>
      && w.handler.OfferRead? && w.handler.document.Encoded?
      && var row := CellAt(w, w.handler.document.assignment.attempt).row; row.Some? && Pending(row.value)
    case OfferRefused => w.handler.OfferRead?
    case OfferPassed =>
      && w.handler.OfferRead? && w.handler.document.Encoded?
      && var row := CellAt(w, w.handler.document.assignment.attempt).row; !(row.Some? && Pending(row.value))
    case RecordOffer => w.handler.Recording? && w.handler.document.Encoded?
    case OfferAccepted =>
      && w.handler.Recorded? && w.handler.document.Encoded?
      && var row := CellAt(w, w.handler.document.assignment.attempt).row;
         row.Some? && row.value.state !in {Cancelled, Quarantined}
    case OfferDropped => w.handler.Recorded?
    case ClaimStep => w.handler.Claiming? && w.handler.document.Encoded?
    case ClaimError(_) => w.handler.Claiming? && w.handler.document.Encoded?
    case SpawnStep => w.handler.Spawning?
    case CancelArrives(_) => w.handler.Idle?
    case CancelSignals => w.handler.Cancelling?
    case SettingsArrive(_) => w.handler.Idle?
    case SettingsApplied => w.handler.Applying?
    case AckArrives(_) => w.handler.Idle?
    case ResumeDenied(_) => w.handler.Idle?
    case ResumeGranted(_, _) => w.handler.Idle?
    case Flush => w.handler.Idle?
    case SendQueued(a, m) => m in CellAt(w, a).outbox
    case StreamLost => w.handler.Idle?
    case TaskMoves(a, k, move) => k < |CellAt(w, a).tasks| && MoveEnabled(CellAt(w, a).tasks[k].pc, move)
    case Crash => true
  }

  /** An offer is dropped when it does not decode or its result is already acknowledged. */
  function OfferHandler(w: World, document: Document): Handler {
    if document.Corrupt? then Idle
    else
      var row := CellAt(w, document.assignment.attempt).row;
      if row.Some? && row.value.state == Acknowledged then Idle else OfferRead(document)
  }

  function RecordStep(w: World, document: Document): World
    requires document.Encoded?
  {
    var asg := document.assignment;
    var c := CellAt(w, asg.attempt);
    if c.row.Some? && (c.row.value.lease != asg.lease || c.row.value.document != document) then w.(handler := Idle)
    else Put(w, asg.attempt, RecordCell(c, asg, document)).(handler := Recorded(document))
  }

  function ClaimWorld(w: World, document: Document): World
    requires document.Encoded?
  {
    var asg := document.assignment;
    var c := CellAt(w, asg.attempt);
    if c.row.Some? && Claimable(c.row.value, asg, document, w.runner) then
      Put(w, asg.attempt, c.(row := Some(ClaimRow(c.row.value, w.runner)), claims := c.claims + [w.runner]))
      .(handler := Spawning(asg))
    else w.(handler := Idle)
  }

  /** The database reports an error, with or without having made the claim; no task is spawned. */
  function ClaimErrorWorld(w: World, document: Document, committed: bool): World
    requires document.Encoded?
  {
    var asg := document.assignment;
    var c := CellAt(w, asg.attempt);
    if committed && c.row.Some? && Claimable(c.row.value, asg, document, w.runner) then
      Put(w, asg.attempt, c.(row := Some(ClaimRow(c.row.value, w.runner)), claims := c.claims + [w.runner], abandoned := true))
      .(handler := Idle)
    else w.(handler := Idle)
  }

  function CancelWorld(w: World, a: AttemptId): World {
    if a in w.cells then Put(w, a, CancelCell(w.cells[a])) else w
  }

  function ResumeHandler(w: World, a: AttemptId, lease: string): Handler {
    var row := CellAt(w, a).row;
    if row.Some? && row.value.lease == lease && Cancellable(row.value) && row.value.document.Encoded?
    then Claiming(row.value.document) else Idle
  }

  /** The next lifetime: process memory is gone, the rows and what was sent remain. */
  function CrashWorld(w: World): World {
    var settings := if w.persisted.Some? then w.persisted.value else DefaultSettings(w.capacity);
    World(w.runner + 1, map a | a in w.cells :: CrashCell(w.cells[a]), Idle, w.capacity, settings, w.persisted,
          settings.maxParallel)
  }

  ghost function TaskWorld(w: World, a: AttemptId, k: nat, move: Move): World
    requires k < |CellAt(w, a).tasks| && MoveEnabled(CellAt(w, a).tasks[k].pc, move)
  {
    Put(w, a, MoveTask(CellAt(w, a), w.runner, k, move, w.settings, |StartedAttempts(w)|, |StartedExcel(w)|))
  }

  ghost function Apply(w: World, step: Step): World
    requires Enabled(w, step)
  {
    match step
    case RecoveryScan =>
      w.(handler := Recovering(set a | a in w.cells && w.cells[a].row.Some? && Recoverable(w.cells[a].row.value, w.runner)
                               && w.cells[a].row.value.document.Corrupt?))
    case QuarantineOne(a) =>
      Put(w, a, CellAt(w, a).(row := Some(QuarantineRow(CellAt(w, a).row.value))))
      .(handler := Recovering(w.handler.corrupt - {a}))
    case RecoveryDone => w.(handler := Idle)
    case OfferArrives(document) => w.(handler := OfferHandler(w, document))
    case OfferReplayed =>
      var a := w.handler.document.assignment.attempt;
      Put(w, a, FlushCell(CellAt(w, a))).(handler := Idle)
    case OfferRefused => w.(handler := Idle)
    case OfferPassed => w.(handler := Recording(w.handler.document))
    case RecordOffer => RecordStep(w, w.handler.document)
    case OfferAccepted => w.(handler := Claiming(w.handler.document))
    case OfferDropped => w.(handler := Idle)
    case ClaimStep => ClaimWorld(w, w.handler.document)
    case ClaimError(committed) => ClaimErrorWorld(w, w.handler.document, committed)
    case SpawnStep =>
      var asg := w.handler.assignment;
      Put(w, asg.attempt, SpawnCell(CellAt(w, asg.attempt), asg)).(handler := Idle)
    case CancelArrives(a) =>
      var row := CellAt(w, a).row;
      CancelWorld(w, a).(handler := Cancelling(a, row.Some? && Cancellable(row.value)))
    case CancelSignals =>
      var a := w.handler.attempt;
      (if a in w.cells then Put(w, a, SignalCell(w.cells[a])) else w).(handler := Idle)
    case SettingsArrive(s) =>
      if ValidSettings(s) then w.(persisted := Some(s), handler := Applying(s)) else w
    case SettingsApplied =>
      var s := w.handler.settings;
      w.(settings := s, maxHeld := Max(w.maxHeld, s.maxParallel), handler := Idle)
    case AckArrives(a) =>
      var c := CellAt(w, a);
      if c.row.Some? then Put(w, a, c.(row := Some(AcknowledgeRow(c.row.value)))) else w
    case ResumeDenied(a) => CancelWorld(w, a)
    case ResumeGranted(a, lease) => w.(handler := ResumeHandler(w, a, lease))
    case Flush => w.(cells := map a | a in w.cells :: FlushCell(w.cells[a]))
    case SendQueued(a, m) =>
      var c := CellAt(w, a);
      Put(w, a, c.(outbox := c.outbox - {m}, sent := c.sent + {m}))
    case StreamLost => w.(cells := map a | a in w.cells :: w.cells[a].(outbox := {}))
    case TaskMoves(a, k, move) => TaskWorld(w, a, k, move)
    case Crash => CrashWorld(w)
  }

  /**
  A fresh process over any table its predecessors may have left: nothing is in
  memory, and no row belongs to the new runner yet.
   */
  ghost predicate Init(w: World) {
    && w.handler == Idle
    && w.settings == (if w.persisted.Some? then w.persisted.value else DefaultSettings(w.capacity))
    && (w.persisted.Some? ==> ValidSettings(w.persisted.value))
    && w.maxHeld == w.settings.maxParallel
    && (forall a :: a in w.cells ==>
          && w.cells[a] == NO_CELL.(row := w.cells[a].row)
          && w.cells[a].row.Some?
          && RowOk(w.cells[a].row.value, a, w.runner)
          && w.cells[a].row.value.owner != Some(w.runner))
  }

  ghost predicate Next(w: World, w': World) {
    exists step :: Enabled(w, step) && w' == Apply(w, step)
  }

  ghost predicate IsRun(run: seq<World>) {
    && |run| > 0
    && Init(run[0])
    && forall i :: 0 <= i < |run| - 1 ==> Next(run[i], run[i + 1])
  }
}
