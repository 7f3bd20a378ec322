/**
 The effect protocol of one logical invocation: commit the intent, dispatch, then commit
 the result or the classified failure. A cell is the invocation's record, the worker's
 volatile position in the dispatch loop, and a ghost account of the outside world.
 */
module Dispatch {
  import opened Wrappers
  import opened Json
  import opened Protocol
  import opened Effects

  /** The prepared operation behind a key. */
  datatype OpPlan = OpPlan(descriptor: OperationDescriptor, config: Value, retry: RetryPolicy, logical: string)
  {
    predicate IsWrite() { descriptor.effect == Write }

    predicate IsUnsafe() { IsWrite() && descriptor.repetition == Unsafe }

    /** A repeatable write with a second attempt: cancellation may leave it in doubt between two attempts. */
    predicate MayHide() { IsWrite() && !IsUnsafe() && retry.maxAttempts >= 2 }

    function EffectKey(): Option<string> { if IsWrite() then Some(logical) else None }
  }

  datatype Call = Call(attempt: string, effectKey: Option<string>, input: Value)

  /** Attempt ids issued, calls made, calls that may still take effect, and effects that happened. */
  datatype World = World(issued: set<string>, calls: seq<Call>, flying: set<string>, effects: seq<string>)

  const EMPTY_WORLD: World := World({}, [], {}, [])

  datatype Answer = Output(value: Value, valid: bool) | Fault(error: ForgeError)

  /** Where the dispatch loop of this invocation stands. */
  datatype Task =
    | Looking(input: Value)
    | Intending(input: Value, previous: Option<InvocationRecord>)
    | Intended(attempt: string)
    | Calling(attempt: string)
    | Answered(attempt: string, answer: Answer)
    | Failing(attempt: string, report: FailureReport)

  datatype Cell = Cell(record: Option<InvocationRecord>, task: Option<Task>, world: World)

  /** What a commit or a read sees of the run besides the record. */
  datatype Clock = Clock(now: nat, deadlineAt: nat, cancelRequested: bool, ready: bool)

  datatype CellEvent =
    | Enter(input: Value)
    | Look(cancelled: bool)
    | Abandon
    | Intend(attempt: string)
    | Send
    | Respond(answer: Answer)
    | Land(attempt: string)
    | Vanish(attempt: string)
    | Confirm(refused: Option<ForgeError>, cancelled: bool)
    | Fail(at: nat)
    | Recover(at: nat)
    | Doubt
    | Settle(settlement: Settlement)

  /** What reconciliation may do to an unknown record. */
  datatype Settlement =
    | Applies(output: Value)
    | AppliesBadly(error: ForgeError)
    | NeverApplied(retry: bool, error: ForgeError)

  function OperationFailure(code: string, kind: ErrorClass, certainty: EffectCertainty): ForgeError {
    ForgeError([Diagnostic(code, Some(OperationError(code, kind, certainty)))])
  }

  function Interrupted(op: OpPlan, cancelled: bool): FailureReport {
    FailureReport(OperationFailure("operation.interrupted", Transient, if op.IsWrite() then EffectCertainty.Unknown else NotApplied),
                  false, cancelled)
  }

  // ---------------------------------------------------------------- the loop's decisions

  /** The checks before an intent, in order. */
  function Gate(op: OpPlan, input: Value, record: Option<InvocationRecord>, clock: Clock, cancelled: bool): Option<Task> {
    if clock.cancelRequested || cancelled then None
    else if clock.now >= clock.deadlineAt then None
    else if record.Some? && record.value.attempts >= op.retry.maxAttempts then None
    else Some(Intending(input, record))
  }

  /** The head of the dispatch loop; `None` leaves it. */
  function LookAt(op: OpPlan, input: Value, record: Option<InvocationRecord>, clock: Clock, cancelled: bool): Option<Task> {
    match record
    case None => Gate(op, input, record, clock, cancelled)
    case Some(r) =>
      match r.state
      case Succeeded => None
      case Unknown => None
      case Failed => None
      case Cancelled => None
      case Running => Some(Failing(r.attemptId, Interrupted(op, cancelled)))
      case RetryScheduled =>
        if clock.cancelRequested || cancelled || clock.now >= clock.deadlineAt then
          Some(Failing(r.attemptId, FailureReport(if r.error.Some? then r.error.value else Plain("effect.unknown"), false, cancelled)))
        else if r.nextAttemptAt.Some? && r.nextAttemptAt.value > clock.now then Some(Looking(input))
        else Gate(op, input, record, clock, cancelled)
      case Pending => Gate(op, input, record, clock, cancelled)
  }

  /** The intent: a fresh attempt of the same invocation, keeping its input and its certainty. */
  function Intent(op: OpPlan, attempt: string, input: Value, previous: Option<InvocationRecord>): InvocationRecord {
    InvocationRecord(op.logical, attempt, if previous.Some? then previous.value.attempts + 1 else 1, InvocationState.Running,
                     if previous.Some? then previous.value.input else input, None, None, Some(op.descriptor.revision), op.config,
                     op.EffectKey(), op.retry, None, if previous.Some? then previous.value.certainty else NotApplied, None)
  }

  function Confirmed(op: OpPlan, r: InvocationRecord, value: Value): InvocationRecord {
    r.(output := Some(value), state := InvocationState.Succeeded, input := Null,
       certainty := if op.IsWrite() then Applied else NotApplied)
  }

  function MomentAt(clock: Clock, at: nat): Moment {
    Moment(clock.now, at, clock.deadlineAt, clock.cancelRequested)
  }

  function Settled(r: InvocationRecord, s: Settlement, clock: Clock): InvocationRecord {
    match s
    case Applies(output) =>
      r.(output := Some(output), input := Null, error := None, nextAttemptAt := None, certainty := Applied,
         state := InvocationState.Succeeded)
    case AppliesBadly(error) => r.(certainty := Applied, error := Some(error))
    case NeverApplied(retry, error) =>
      if retry && r.attempts < r.retry.maxAttempts && clock.now < clock.deadlineAt && !clock.cancelRequested then
        r.(certainty := NotApplied, nextAttemptAt := None, state := InvocationState.Pending, error := None)
      else r.(certainty := NotApplied, nextAttemptAt := None, state := InvocationState.Failed, error := Some(error))
  }

  predicate FailureApplies(r: Option<InvocationRecord>, attempt: string) {
    r.Some? && r.value.attemptId == attempt && (r.value.state == InvocationState.Running || r.value.state == RetryScheduled)
  }

  predicate ConfirmApplies(r: Option<InvocationRecord>, attempt: string) {
    r.Some? && r.value.attemptId == attempt && r.value.state == InvocationState.Running
  }

  // ---------------------------------------------------------------- the events

  /**
   Two guards are assumptions about the outside: a reported non-application is true of
   its attempt, and evidence of non-application is only accepted when nothing is in flight.
   */
  ghost predicate Enabled(op: OpPlan, c: Cell, clock: Clock, e: CellEvent) {
    match e
    case Enter(_) => clock.ready && c.task == None
    case Look(_) => clock.ready && c.task.Some? && c.task.value.Looking?
    case Abandon => clock.ready && c.task.Some? && c.task.value.Intending?
    case Intend(attempt) =>
      && clock.ready && c.task.Some? && c.task.value.Intending? && attempt !in c.world.issued
      && !clock.cancelRequested && clock.now < clock.deadlineAt
    case Send => clock.ready && c.task.Some? && c.task.value.Intended?
    case Respond(answer) =>
      && clock.ready && c.task.Some? && c.task.value.Calling?
      && (op.IsWrite() && answer.Fault? && ReportedCertainty(answer.error) == NotApplied ==>
            c.task.value.attempt !in c.world.effects)
    case Land(attempt) => attempt in c.world.flying
    case Vanish(attempt) => attempt in c.world.flying
    case Confirm(_, _) => clock.ready && c.task.Some? && c.task.value.Answered?
    case Fail(at) => clock.ready && c.task.Some? && c.task.value.Failing? && clock.now <= at
    case Recover(at) => !clock.ready && c.record.Some? && c.record.value.state == InvocationState.Running && clock.now <= at
    case Doubt => clock.ready && c.task == None
    case Settle(s) =>
      && clock.ready && c.task == None && c.record.Some? && c.record.value.state == InvocationState.Unknown
      && (s.NeverApplied? ==> c.record.value.certainty != Applied && c.world.flying == {} && c.world.effects == [])
  }

  function SendCall(op: OpPlan, c: Cell): Cell
    requires c.task.Some? && c.task.value.Intended?
  {
    var attempt := c.task.value.attempt;
    var input := if c.record.Some? then c.record.value.input else Null;
    c.(task := Some(Calling(attempt)),
       world := c.world.(calls := c.world.calls + [Call(attempt, op.EffectKey(), input)], flying := c.world.flying + {attempt}))
  }

  /** Reading the outcome: a valid output is committed, anything else is recorded as a failure. */
  function Conclude(op: OpPlan, c: Cell, refused: Option<ForgeError>, cancelled: bool): Cell
    requires c.task.Some? && c.task.value.Answered?
  {
    var attempt := c.task.value.attempt;
    match c.task.value.answer
    case Fault(error) => c.(task := Some(Failing(attempt, FailureReport(error, false, cancelled))))
    case Output(value, valid) =>
      if !valid then c.(task := Some(Failing(attempt, FailureReport(Plain("data.invalid"), true, cancelled))))
      else if !ConfirmApplies(c.record, attempt) then c.(task := None)
      else if refused.Some? then c.(task := Some(Failing(attempt, FailureReport(refused.value, true, cancelled))))
      else c.(record := Some(Confirmed(op, c.record.value, value)), task := None)
  }

  function Next(op: OpPlan, c: Cell, clock: Clock, e: CellEvent): Cell
    requires Enabled(op, c, clock, e)
  {
    match e
    case Enter(input) => c.(task := Some(Looking(input)))
    case Look(cancelled) => c.(task := LookAt(op, c.task.value.input, c.record, clock, cancelled))
    case Abandon => c.(task := None)
    case Intend(attempt) =>
      Cell(Some(Intent(op, attempt, c.task.value.input, c.task.value.previous)), Some(Intended(attempt)),
           c.world.(issued := c.world.issued + {attempt}))
    case Send => SendCall(op, c)
    case Respond(answer) =>
      var attempt := c.task.value.attempt;
      c.(task := Some(Answered(attempt, answer)),
         world := if op.IsWrite() && answer.Fault? && ReportedCertainty(answer.error) == NotApplied
                  then c.world.(flying := c.world.flying - {attempt}) else c.world)
    case Land(attempt) => c.(world := c.world.(flying := c.world.flying - {attempt}, effects := c.world.effects + [attempt]))
    case Vanish(attempt) => c.(world := c.world.(flying := c.world.flying - {attempt}))
    case Confirm(refused, cancelled) => Conclude(op, c, refused, cancelled)
    case Fail(at) =>
      var t := c.task.value;
      c.(task := Some(Looking(Null)),
         record := if FailureApplies(c.record, t.attempt)
                   then Some(FailedRecord(op.descriptor, c.record.value, t.report, MomentAt(clock, at))) else c.record)
    case Recover(at) =>
      c.(record := Some(FailedRecord(op.descriptor, c.record.value, Interrupted(op, clock.cancelRequested), MomentAt(clock, at))))
    case Doubt =>
      c.(record := if c.record.Some? && c.record.value.state != InvocationState.Succeeded && c.record.value.certainty != NotApplied
                   then Some(c.record.value.(state := InvocationState.Unknown)) else c.record)
    case Settle(s) => c.(record := Some(Settled(c.record.value, s, clock)))
  }

  // ---------------------------------------------------------------- what every cell keeps

  /** A record of this operation within its budget: retries are scheduled only where they may happen. */
  predicate RecordFits(op: OpPlan, r: InvocationRecord, deadlineAt: nat) {
    && r.id == op.logical && r.operation == Some(op.descriptor.revision) && r.config == op.config && r.retry == op.retry
    && r.effectKey == op.EffectKey() && r.control == None
    && 1 <= r.attempts <= op.retry.maxAttempts
    && (r.state == RetryScheduled ==>
          && r.attempts < op.retry.maxAttempts && r.nextAttemptAt.Some? && r.nextAttemptAt.value < deadlineAt && r.error.Some?)
    && (!op.IsWrite() ==> r.certainty == NotApplied && r.state != InvocationState.Unknown)
    && (r.state == InvocationState.Unknown ==> r.certainty != NotApplied)
    && (r.state == InvocationState.Failed || r.state == InvocationState.Cancelled || r.state == InvocationState.Pending ==>
          r.certainty == NotApplied)
    && (r.state == InvocationState.Pending ==> r.attempts < op.retry.maxAttempts)
    && (r.state == RetryScheduled ==> r.certainty != Applied)
    && (r.state == InvocationState.Succeeded ==> r.output.Some? && r.certainty == (if op.IsWrite() then Applied else NotApplied))
  }

  /** Every call of the invocation carries its one effect key and its one input. */
  ghost predicate CallsFit(op: OpPlan, r: InvocationRecord, w: World) {
    && (forall i :: 0 <= i < |w.calls| ==>
          && w.calls[i].effectKey == op.EffectKey() && w.calls[i].attempt in w.issued
          && w.calls[i].input == w.calls[0].input)
    && (r.state != InvocationState.Succeeded && w.calls != [] ==> r.input == w.calls[0].input)
    && r.attemptId in w.issued && w.flying <= w.issued && |w.calls| <= r.attempts
    && (forall i :: 0 <= i < |w.effects| ==> w.effects[i] in w.issued)
  }

  predicate TaskFits(op: OpPlan, r: InvocationRecord, t: Option<Task>) {
    match t
    case None => true
    case Some(Looking(_)) => true
    case Some(Intending(_, previous)) =>
      && previous == Some(r) && (r.state == InvocationState.Pending || r.state == RetryScheduled)
      && r.attempts < op.retry.maxAttempts
    case Some(Failing(attempt, report)) =>
      && r.attemptId == attempt && (r.state == InvocationState.Running || r.state == RetryScheduled)
    case Some(Intended(attempt)) => r.attemptId == attempt && r.state == InvocationState.Running
    case Some(Calling(attempt)) => r.attemptId == attempt && r.state == InvocationState.Running
    case Some(Answered(attempt, _)) => r.attemptId == attempt && r.state == InvocationState.Running
  }

  predicate Holds(t: Option<Task>, attempt: string) {
    t.Some? && !t.value.Looking? && !t.value.Intending? && t.value.attempt == attempt
  }

  predicate Untouched(w: World) {
    w.flying == {} && w.effects == []
  }

  /** For an unsafe write only the current attempt can act, and before another one nothing has. */
  predicate UnsafeFits(r: InvocationRecord, t: Option<Task>, w: World) {
    && w.flying <= {r.attemptId} && (w.effects == [] || (w.effects == [r.attemptId] && w.flying == {}))
    && (r.state == InvocationState.Pending || r.state == RetryScheduled ==> Untouched(w) && r.certainty == NotApplied)
    && (r.state == InvocationState.Running ==> r.certainty == NotApplied)
    && (t.Some? && t.value.Intended? ==> Untouched(w))
    && (t.Some? && t.value.Answered? && t.value.answer.Fault? && ReportedCertainty(t.value.answer.error) == NotApplied ==> Untouched(w))
    && (t.Some? && t.value.Failing? && !t.value.report.invalidOutput && ReportedCertainty(t.value.report.error) == NotApplied ==>
          Untouched(w))
  }

  ghost predicate Sound(op: OpPlan, c: Cell, deadlineAt: nat, ready: bool) {
    && op.retry.maxAttempts >= 1
    && (!ready ==> c.task == None)
    && match c.record
       case None =>
         c.world == EMPTY_WORLD
         && (c.task.Some? ==> c.task.value.Looking? || (c.task.value.Intending? && c.task.value.previous == None))
       case Some(r) =>
         && RecordFits(op, r, deadlineAt) && CallsFit(op, r, c.world) && TaskFits(op, r, c.task)
         && (c.task.Some? && c.task.value.Intended? ==> |c.world.calls| < r.attempts)
         && (ready && r.state == InvocationState.Running ==> Holds(c.task, r.attemptId))
         && (op.IsUnsafe() ==> UnsafeFits(r, c.task, c.world))
  }

  lemma LookKeeps(op: OpPlan, c: Cell, clock: Clock, cancelled: bool)
    requires Sound(op, c, clock.deadlineAt, clock.ready) && Enabled(op, c, clock, Look(cancelled))
    ensures Sound(op, Next(op, c, clock, Look(cancelled)), clock.deadlineAt, clock.ready)
  {
    if c.record.Some? && c.record.value.state == RetryScheduled {
      assert c.record.value.error.Some?;
    }
  }

  lemma IntendKeeps(op: OpPlan, c: Cell, clock: Clock, attempt: string)
    requires Sound(op, c, clock.deadlineAt, clock.ready) && Enabled(op, c, clock, Intend(attempt))
    ensures Sound(op, Next(op, c, clock, Intend(attempt)), clock.deadlineAt, clock.ready)
  {
  }

  lemma CallKeeps(op: OpPlan, c: Cell, clock: Clock, e: CellEvent)
    requires e.Send? || e.Respond?
    requires Sound(op, c, clock.deadlineAt, clock.ready) && Enabled(op, c, clock, e)
    ensures Sound(op, Next(op, c, clock, e), clock.deadlineAt, clock.ready)
  {
  }

  lemma WorldKeeps(op: OpPlan, c: Cell, clock: Clock, e: CellEvent)
    requires e.Land? || e.Vanish?
    requires Sound(op, c, clock.deadlineAt, clock.ready) && Enabled(op, c, clock, e)
    ensures Sound(op, Next(op, c, clock, e), clock.deadlineAt, clock.ready)
  {
  }

  lemma ConfirmKeeps(op: OpPlan, c: Cell, clock: Clock, e: CellEvent)
    requires e.Confirm?
    requires Sound(op, c, clock.deadlineAt, clock.ready) && Enabled(op, c, clock, e)
    ensures Sound(op, Next(op, c, clock, e), clock.deadlineAt, clock.ready)
  {
  }

  lemma FailedKeeps(op: OpPlan, r: InvocationRecord, t: Option<Task>, w: World, report: FailureReport, moment: Moment)
    requires RecordFits(op, r, moment.deadlineAt) && CallsFit(op, r, w)
    requires r.state == InvocationState.Running || r.state == RetryScheduled
    requires op.IsUnsafe() ==> UnsafeFits(r, t, w)
    requires op.IsUnsafe() && !report.invalidOutput && ReportedCertainty(report.error) == NotApplied ==> Untouched(w)
    ensures var f := FailedRecord(op.descriptor, r, report, moment);
      && RecordFits(op, f, moment.deadlineAt) && CallsFit(op, f, w) && f.state != InvocationState.Running
      && (op.IsUnsafe() ==> UnsafeFits(f, None, w))
  {
    hide FailedRecord;
    var f := FailedRecord(op.descriptor, r, report, moment);
    FailedFrame(op, r, report, moment);
    FailedSchedule(op.descriptor, r, report, moment);
    if op.IsWrite() {
      FailedWrite(op.descriptor, r, report, moment);
    }
  }

  lemma FailedFrame(op: OpPlan, r: InvocationRecord, report: FailureReport, moment: Moment)
    ensures var f := FailedRecord(op.descriptor, r, report, moment);
      f.error.Some? && f == r.(error := f.error, certainty := f.certainty, nextAttemptAt := f.nextAttemptAt, state := f.state)
  {
  }

  lemma FailKeeps(op: OpPlan, c: Cell, clock: Clock, e: CellEvent)
    requires e.Fail? || e.Recover?
    requires Sound(op, c, clock.deadlineAt, clock.ready) && Enabled(op, c, clock, e)
    ensures Sound(op, Next(op, c, clock, e), clock.deadlineAt, clock.ready)
  {
    if e.Recover? {
      FailedKeeps(op, c.record.value, c.task, c.world, Interrupted(op, clock.cancelRequested), MomentAt(clock, e.at));
    } else if FailureApplies(c.record, c.task.value.attempt) {
      FailedKeeps(op, c.record.value, c.task, c.world, c.task.value.report, MomentAt(clock, e.at));
    }
    hide FailedRecord;
  }

  lemma IdleKeeps(op: OpPlan, c: Cell, clock: Clock, e: CellEvent)
    requires e.Enter? || e.Abandon? || e.Doubt? || e.Settle?
    requires Sound(op, c, clock.deadlineAt, clock.ready) && Enabled(op, c, clock, e)
    ensures Sound(op, Next(op, c, clock, e), clock.deadlineAt, clock.ready)
  {
  }

  /** Every event of the protocol keeps the cell sound. */
  lemma StepKeeps(op: OpPlan, c: Cell, clock: Clock, e: CellEvent)
    requires Sound(op, c, clock.deadlineAt, clock.ready) && Enabled(op, c, clock, e)
    ensures Sound(op, Next(op, c, clock, e), clock.deadlineAt, clock.ready)
  {
    hide Sound, Next, Enabled;
    match e
    case Look(cancelled) => LookKeeps(op, c, clock, cancelled);
    case Intend(attempt) => IntendKeeps(op, c, clock, attempt);
    case Fail(_) => FailKeeps(op, c, clock, e);
    case Recover(_) => FailKeeps(op, c, clock, e);
    case Send => CallKeeps(op, c, clock, e);
    case Respond(_) => CallKeeps(op, c, clock, e);
    case Land(_) => WorldKeeps(op, c, clock, e);
    case Vanish(_) => WorldKeeps(op, c, clock, e);
    case Confirm(_, _) => ConfirmKeeps(op, c, clock, e);
    case Enter(_) => IdleKeeps(op, c, clock, e);
    case Abandon => IdleKeeps(op, c, clock, e);
    case Doubt => IdleKeeps(op, c, clock, e);
    case Settle(_) => IdleKeeps(op, c, clock, e);
  }

  /** The process dies: the loop's position is lost, the record and the world are not. */
  function Crashed(c: Cell): Cell {
    c.(task := None)
  }

  lemma CrashKeeps(op: OpPlan, c: Cell, deadlineAt: nat, ready: bool)
    requires Sound(op, c, deadlineAt, ready)
    ensures Sound(op, Crashed(c), deadlineAt, false)
  {
  }

  /** Recovery is over once no attempt is recorded as running. */
  lemma ReadyKeeps(op: OpPlan, c: Cell, deadlineAt: nat)
    requires Sound(op, c, deadlineAt, false)
    requires c.record.Some? ==> c.record.value.state != InvocationState.Running
    ensures Sound(op, c, deadlineAt, true)
  {
  }

  // ---------------------------------------------------------------- whole histories

  /** A moment of one invocation's history. */
  datatype Snap = Snap(cell: Cell, clock: Clock)

  /** Time passes, or cancellation is requested; neither is ever undone. */
  predicate Ticks(a: Clock, b: Clock) {
    a.now <= b.now && a.deadlineAt == b.deadlineAt && a.ready == b.ready && (a.cancelRequested ==> b.cancelRequested)
  }

  ghost predicate Moves(op: OpPlan, a: Snap, b: Snap) {
    || (b.clock == a.clock && exists e :: Enabled(op, a.cell, a.clock, e) && b.cell == Next(op, a.cell, a.clock, e))
    || (b.cell == a.cell && Ticks(a.clock, b.clock))
    || (b.cell == Crashed(a.cell) && b.clock == a.clock.(ready := false))
    || (&& b.cell == a.cell && !a.clock.ready && b.clock == a.clock.(ready := true)
        && (a.cell.record.Some? ==> a.cell.record.value.state != InvocationState.Running))
  }

  predicate Fresh(op: OpPlan, s: Snap) {
    s.cell == Cell(None, None, EMPTY_WORLD) && op.retry.maxAttempts >= 1
  }

  /** Any interleaving of the loop, the outside world, crashes, recovery, cancellation and reconciliation. */
  ghost predicate History(op: OpPlan, h: seq<Snap>) {
    && h != [] && Fresh(op, h[0])
    && forall i :: 0 < i < |h| ==> Moves(op, h[i - 1], h[i])
  }

  ghost predicate SnapSound(op: OpPlan, s: Snap) {
    Sound(op, s.cell, s.clock.deadlineAt, s.clock.ready)
  }

  /** What one move may do to what already happened. */
  ghost predicate Carries(op: OpPlan, a: Snap, b: Snap) {
    && a.cell.world.calls <= b.cell.world.calls && a.cell.world.effects <= b.cell.world.effects
    && a.clock.deadlineAt == b.clock.deadlineAt
    && (a.cell.record.Some? ==> b.cell.record.Some? && a.cell.record.value.attempts <= b.cell.record.value.attempts)
    && (op.IsWrite() && a.cell.record.Some? && a.cell.record.value.certainty == Applied ==> b.cell.record.value.certainty == Applied)
    && (a.cell.record.Some? && a.cell.record.value.state == InvocationState.Succeeded ==> b.cell.record == a.cell.record)
    && (a.cell.record.Some? && b.cell.record.value.state != InvocationState.Succeeded ==>
          b.cell.record.value.input == a.cell.record.value.input)
  }

  lemma EventCarries(op: OpPlan, c: Cell, clock: Clock, e: CellEvent)
    requires Sound(op, c, clock.deadlineAt, clock.ready) && Enabled(op, c, clock, e)
    ensures Carries(op, Snap(c, clock), Snap(Next(op, c, clock, e), clock))
  {
    if (e.Fail? && FailureApplies(c.record, c.task.value.attempt)) || e.Recover? {
      var report := if e.Fail? then c.task.value.report else Interrupted(op, clock.cancelRequested);
      if op.IsWrite() {
        FailedWrite(op.descriptor, c.record.value, report, MomentAt(clock, e.at));
      }
      hide ClassifyFailure;
    }
  }

  lemma MoveKeeps(op: OpPlan, a: Snap, b: Snap)
    requires SnapSound(op, a) && Moves(op, a, b)
    ensures SnapSound(op, b) && Carries(op, a, b)
  {
    hide Next, Enabled, Sound;
    if b.clock == a.clock && exists e :: Enabled(op, a.cell, a.clock, e) && b.cell == Next(op, a.cell, a.clock, e) {
      var e :| Enabled(op, a.cell, a.clock, e) && b.cell == Next(op, a.cell, a.clock, e);
      StepKeeps(op, a.cell, a.clock, e);
      EventCarries(op, a.cell, a.clock, e);
    } else if b.cell == a.cell && Ticks(a.clock, b.clock) {
    } else if b.cell == Crashed(a.cell) && b.clock == a.clock.(ready := false) {
      CrashKeeps(op, a.cell, a.clock.deadlineAt, a.clock.ready);
    } else {
      ReadyKeeps(op, a.cell, a.clock.deadlineAt);
    }
  }

  lemma {:induction false} HistorySound(op: OpPlan, h: seq<Snap>, i: nat)
    requires History(op, h) && i < |h|
    ensures SnapSound(op, h[i])
    decreases i
  {
    if i > 0 {
      HistorySound(op, h, i - 1);
      MoveKeeps(op, h[i - 1], h[i]);
    }
  }

  /**
   At most once: in no history does an unsafe write take effect twice, whatever crashes,
   timeouts, cancellations, retries and reconciliations interleave with it.
   */
  lemma AtMostOnce(op: OpPlan, h: seq<Snap>, i: nat)
    requires History(op, h) && i < |h| && op.IsUnsafe()
    ensures |h[i].cell.world.effects| <= 1
  {
    HistorySound(op, h, i);
  }

  /** Every call ever made for one invocation carries one effect key and one input, and calls are bounded. */
  lemma SameEffectKeyAndInput(op: OpPlan, h: seq<Snap>, i: nat, p: nat, q: nat)
    requires History(op, h) && i < |h| && p < |h[i].cell.world.calls| && q < |h[i].cell.world.calls|
    ensures var calls := h[i].cell.world.calls;
      && calls[p].effectKey == calls[q].effectKey == op.EffectKey() && calls[p].input == calls[q].input
      && |calls| <= op.retry.maxAttempts
  {
    HistorySound(op, h, i);
  }

  lemma CarriesTransitive(op: OpPlan, a: Snap, b: Snap, c: Snap)
    requires Carries(op, a, b) && Carries(op, b, c)
    ensures Carries(op, a, c)
  {
  }

  /**
   Calls and effects are never forgotten, attempts never go back, Applied is never lowered, a result never changes,
   and an unconfirmed record keeps its input.
   */
  lemma {:induction false} HistoryCarries(op: OpPlan, h: seq<Snap>, i: nat, j: nat)
    requires History(op, h) && i <= j < |h|
    ensures Carries(op, h[i], h[j])
    decreases j
  {
    hide SnapSound, Moves;
    if i < j {
      HistoryCarries(op, h, i, j - 1);
      HistorySound(op, h, j - 1);
      MoveKeeps(op, h[j - 1], h[j]);
      hide History;
      CarriesTransitive(op, h[i], h[j - 1], h[j]);
    } else {
      assert Carries(op, h[i], h[i]);
    }
  }

  /** Attempts stay within the limit, and a scheduled retry has budget and is due before the deadline. */
  lemma RetryDiscipline(op: OpPlan, h: seq<Snap>, i: nat)
    requires History(op, h) && i < |h| && h[i].cell.record.Some?
    ensures var r := h[i].cell.record.value;
      && 1 <= r.attempts <= op.retry.maxAttempts
      && (r.state == RetryScheduled ==>
            r.attempts < op.retry.maxAttempts && r.nextAttemptAt.Some? && r.nextAttemptAt.value < h[i].clock.deadlineAt)
      && (r.state == InvocationState.Failed || r.state == InvocationState.Cancelled ==> r.certainty == NotApplied)
  {
    HistorySound(op, h, i);
  }

  /** Certainty is lowered by nothing but quiescent evidence on an unknown record. */
  lemma OnlySettlementLowers(op: OpPlan, c: Cell, clock: Clock, e: CellEvent)
    requires Sound(op, c, clock.deadlineAt, clock.ready) && Enabled(op, c, clock, e) && op.IsWrite() && c.record.Some?
    ensures var after := Next(op, c, clock, e).record;
      after.Some? && (Level(after.value.certainty) < Level(c.record.value.certainty) ==>
        e.Settle? && e.settlement.NeverApplied? && c.record.value.state == InvocationState.Unknown
        && c.record.value.certainty == EffectCertainty.Unknown)
  {
    if (e.Fail? && FailureApplies(c.record, c.task.value.attempt)) || e.Recover? {
      var report := if e.Fail? then c.task.value.report else Interrupted(op, clock.cancelRequested);
      FailedWrite(op.descriptor, c.record.value, report, MomentAt(clock, e.at));
      hide ClassifyFailure;
    }
  }
}
