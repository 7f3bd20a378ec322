/**
 One run under every actor at once: its worker with any number of live operations, waits
 and control frames, signals, cancellation, reconciliation, late observations, the clock,
 crashes and recovery. Each event is one commit or one step that commits nothing.
 */
module RunMachine {
  import opened Wrappers
  import opened Text
  import opened Json
  import opened Protocol
  import opened Checkpoint
  import opened WaitHistory
  import opened RunEdits
  import D = Dispatch
  import opened Reconciliation

  /** What the prepared plan puts at a key. */
  datatype NodeKind = OpNode(op: D.OpPlan) | WaitNode | ControlNode

  datatype Plan = Plan(kindOf: string -> NodeKind, host: Host)

  /** How far a wait activation got in this worker. */
  datatype Stage = Reserving | Reserved | Started

  datatype Waiter = Waiter(id: string, kind: WaitKind, input: Value, stage: Stage)

  datatype Worker = Off | Body | Closing(output: Value)

  datatype Machine = Machine(
    run: RunSnapshot,
    now: nat,
    ready: bool,
    worker: Worker,
    tasks: map<string, D.Task>,
    waiters: map<string, Waiter>,
    open: set<string>,
    worlds: map<string, D.World>)

  function CellOf(m: Machine, key: string): D.Cell {
    D.Cell(if key in m.run.invocations then Some(m.run.invocations[key]) else None,
           if key in m.tasks then Some(m.tasks[key]) else None,
           if key in m.worlds then m.worlds[key] else D.EMPTY_WORLD)
  }

  function ClockOf(m: Machine): D.Clock {
    D.Clock(m.now, m.run.deadlineAt, m.run.cancelRequested, m.ready)
  }

  /** Nothing of the worker's body is still live. */
  predicate Quiet(m: Machine) {
    m.tasks == map[] && m.waiters == map[] && m.open == {}
  }

  datatype Event =
    | OpStep(key: string, step: D.CellEvent)
    | WaitStep(key: string, wait: WaitEvent)
    | ControlStep(key: string, control: ControlEvent)
    | RunStep(event: RunEvent)

  datatype RunEvent =
    | StartRun
    | SuspendRun
    | CloseBody(output: Value)
    | FinishRun(cancelled: bool, overBudget: bool)
    | FailRun(error: ForgeError, cancelled: bool)
    | CancelRun
    | SettleEffect(key: string, command: ReconcileCommand, actor: string, listed: seq<string>)
    | Observe(entry: AuditEntry)
    | Tick(elapsed: nat)
    | Crash
    | BecomeReady
    | Deliver(id: string, delivery: SignalDelivery)

  datatype WaitEvent =
    | EnterWait(waiter: Waiter)
    | ReserveWait(recordId: string, duration: nat)
    | FindWait
    | ConfirmWaitStart
    | ConsumeWait
    | ExpireWait
    | FaultWait(error: ForgeError)
    | LeaveWait

  datatype ControlEvent =
    | EnterControl(record: InvocationRecord)
    | Reframe(frame: ControlFrame)
    | StopGroup(frame: ControlFrame)
    | ConfirmControl(value: Value)
    | FailControl(error: ForgeError)
    | LeaveControl

  // ---------------------------------------------------------------- guards

  ghost predicate NothingUnresolved(nodes: map<string, InvocationRecord>) {
    forall k :: k in nodes ==> !nodes[k].IsUnresolved()
  }

  ghost predicate NoneRunning(nodes: map<string, InvocationRecord>) {
    forall k :: k in nodes && nodes[k].operation.Some? ==> nodes[k].state != InvocationState.Running
  }

  /** What the signal loop checks before it commits a delivery. */
  predicate Deliverable(m: Machine, id: string, d: SignalDelivery) {
    && id in m.run.waits && m.run.waits[id].kind.Signal? && m.run.waits[id].delivery == None
    && d.command.correlation == m.run.waits[id].kind.correlation
    && m.run.waits[id].state != Expired && m.run.waits[id].state != Closed
    && !IsTerminal(m.run.state) && !m.run.cancelRequested && m.now < m.run.waits[id].deadlineAt
    && d.command.runId == m.run.id && d.command.waitId == id
    && d.command.messageId != "" && Bytes(d.command.messageId) <= 256
    && |d.command.artifacts| <= 1000
    && (forall i :: 0 <= i < |d.command.artifacts| ==> d.command.artifacts[i].scope == m.run.scope)
    && SortedArtifacts(d.command.artifacts)
    && d.receipt.runId == m.run.id && d.receipt.waitId == id && d.receipt.messageId == d.command.messageId
    && d.receipt.acceptedAt == m.now && !d.receipt.duplicate
  }

  predicate Waits(m: Machine, key: string) {
    key in m.waiters && m.waiters[key].id in m.run.waits && m.run.waits[m.waiters[key].id].node == key
    && key in m.run.invocations
  }

  predicate EntersWait(m: Machine, key: string, w: Waiter) {
    && key !in m.waiters && w.stage == Reserving && KindAllowed(w.kind)
    && (key in m.run.invocations ==>
          m.run.invocations[key].state == InvocationState.Pending && m.run.invocations[key].input == w.input)
  }

  /** The last check of a wait: confirmed and due, or not at all. */
  predicate Consumable(m: Machine, w: WaitRecord) {
    && w.state == Open && !m.run.cancelRequested && m.now < m.run.deadlineAt
    && (w.kind.Timer? ==> w.deadlineAt <= m.now)
    && (w.kind.Signal? ==> w.delivery.Some? && w.startConfirmed)
  }

  predicate Activation(r: InvocationRecord) {
    && r.state == InvocationState.Running && r.operation == None && r.control.Some? && !r.IsWait()
    && r.certainty == NotApplied && r.output == None
  }

  ghost predicate RunEnabled(plan: Plan, m: Machine, e: RunEvent) {
    match e
    case StartRun =>
      && m.ready && m.worker == Off
      && (m.run.state == Accepted || m.run.state == RunState.Running || m.run.state == Cancelling || m.run.state == Waiting)
    case SuspendRun => m.ready && m.worker == Body && Quiet(m)
    case CloseBody(_) => m.ready && m.worker == Body && Quiet(m) && !m.run.cancelRequested && NothingUnresolved(m.run.invocations)
    case FinishRun(_, _) => m.ready && m.worker.Closing?
    case FailRun(_, _) => m.ready && (m.worker == Body || m.worker.Closing?) && Quiet(m)
    case CancelRun => m.ready && !IsTerminal(m.run.state)
    case SettleEffect(key, command, actor, listed) =>
      && m.ready && m.run.state == Blocked && plan.kindOf(key).OpNode?
      && Targets(m.run, command, key) && ListsUnknown(m.run.invocations, listed)
      && Proposal(plan.host, m.run, key, command, actor, listed, m.now).Ok?
      && (DeniesEffect(plan, m, key, command) ==> CellOf(m, key).world.flying == {} && CellOf(m, key).world.effects == [])
    case Observe(entry) => entry.Late?
    case Tick(_) => true
    case Crash => true
    case BecomeReady => !m.ready && NoneRunning(m.run.invocations)
    case Deliver(id, delivery) => m.ready && Deliverable(m, id, delivery)
  }

  /** Evidence of non-application that will be believed: assumed true, with nothing in flight. */
  predicate DeniesEffect(plan: Plan, m: Machine, key: string, command: ReconcileCommand)
    requires key in m.run.invocations
  {
    var ruling := Rule(plan.host, m.run, m.run.invocations[key], command.resolution, m.now);
    ruling.Ok? && ruling.value.settlement.Some? && ruling.value.settlement.value.NeverApplied?
  }

  predicate WaitEnabled(plan: Plan, m: Machine, key: string, e: WaitEvent) {
    match e
    case EnterWait(w) => m.worker == Body && plan.kindOf(key).WaitNode? && EntersWait(m, key, w)
    case ReserveWait(_, _) =>
      && key in m.waiters && m.waiters[key].stage == Reserving && m.waiters[key].id !in m.run.waits
      && !m.run.cancelRequested && m.now < m.run.deadlineAt && key !in m.run.invocations
    case FindWait =>
      && key in m.waiters && m.waiters[key].stage == Reserving && m.waiters[key].id in m.run.waits
      && m.run.waits[m.waiters[key].id].node == key && m.run.waits[m.waiters[key].id].kind == m.waiters[key].kind
    case ConfirmWaitStart =>
      && Waits(m, key) && m.waiters[key].stage == Reserved
      && m.waiters[key].kind.Signal? && m.waiters[key].kind.startNode.Some?
      && NodeSucceeded(m.run, m.waiters[key].kind.startNode.value)
    case ConsumeWait => Waits(m, key) && m.waiters[key].stage != Reserving && Consumable(m, m.run.waits[m.waiters[key].id])
    case ExpireWait =>
      && Waits(m, key) && m.waiters[key].stage != Reserving
      && var w := m.run.waits[m.waiters[key].id];
         w.kind.Signal? && w.state == Open && w.delivery == None && w.deadlineAt <= m.now
    case FaultWait(_) => Waits(m, key)
    case LeaveWait => key in m.waiters
  }

  predicate ControlEnabled(plan: Plan, m: Machine, key: string, e: ControlEvent) {
    match e
    case EnterControl(record) =>
      && m.worker == Body && plan.kindOf(key).ControlNode? && key !in m.open && Activation(record)
      && (key in m.run.invocations ==>
            m.run.invocations[key].state == InvocationState.Pending || m.run.invocations[key].state == InvocationState.Running)
    case Reframe(frame) => key in m.open && key in m.run.invocations && !frame.Wait?
    case StopGroup(frame) => key in m.open && key in m.run.invocations && !frame.Wait?
    case ConfirmControl(_) => key in m.open && key in m.run.invocations
    case FailControl(_) => key in m.open && key in m.run.invocations
    case LeaveControl => key in m.open
  }

  ghost predicate OpEnabled(plan: Plan, m: Machine, key: string, step: D.CellEvent) {
    && plan.kindOf(key).OpNode? && !step.Doubt? && !step.Settle?
    && (step.Enter? ==> m.worker == Body)
    && D.Enabled(plan.kindOf(key).op, CellOf(m, key), ClockOf(m), step)
  }

  ghost predicate Enabled(plan: Plan, m: Machine, e: Event) {
    match e
    case OpStep(key, step) => OpEnabled(plan, m, key, step)
    case WaitStep(key, step) => WaitEnabled(plan, m, key, step)
    case ControlStep(key, step) => ControlEnabled(plan, m, key, step)
    case RunStep(step) => RunEnabled(plan, m, step)
  }

  // ---------------------------------------------------------------- effects of the events

  function WithoutTask(tasks: map<string, D.Task>, key: string): map<string, D.Task> {
    map k | k in tasks && k != key :: tasks[k]
  }

  function WithoutWaiter(waiters: map<string, Waiter>, key: string): map<string, Waiter> {
    map k | k in waiters && k != key :: waiters[k]
  }

  /** A commit of the full edited snapshot. */
  function Commit(m: Machine, edited: RunSnapshot): Machine {
    m.(run := Proposed(edited))
  }

  /** A commit of one record. */
  function CommitNode(m: Machine, key: string, record: InvocationRecord): Machine {
    m.(run := WithNode(m.run, key, record))
  }

  function WithCell(m: Machine, key: string, c: D.Cell): Machine {
    var committed := if c.record.Some? && c.record != CellOf(m, key).record then CommitNode(m, key, c.record.value) else m;
    committed.(tasks := if c.task.Some? then m.tasks[key := c.task.value] else WithoutTask(m.tasks, key),
               worlds := m.worlds[key := c.world])
  }

  function Staged(m: Machine, key: string, stage: Stage): Machine
    requires key in m.waiters
  {
    m.(waiters := m.waiters[key := m.waiters[key].(stage := stage)])
  }

  function AfterStart(m: Machine, key: string): Machine
    requires Waits(m, key)
  {
    var id := m.waiters[key].id;
    var w := m.run.waits[id];
    Staged(if w.state == Open && !w.startConfirmed then Commit(m, ConfirmStart(m.run, id)) else m, key, Started)
  }

  function AfterFault(m: Machine, key: string, error: ForgeError): Machine
    requires Waits(m, key)
  {
    var id := m.waiters[key].id;
    (if m.run.waits[id].state == Consumed then m else Commit(m, RunEdits.FaultWait(m.run, id, error)))
      .(waiters := WithoutWaiter(m.waiters, key))
  }

  function ConfirmedControl(r: InvocationRecord, value: Value): InvocationRecord {
    r.(state := InvocationState.Succeeded, output := Some(value), input := Null, error := None)
  }

  function FailedControl(r: InvocationRecord, error: ForgeError): InvocationRecord {
    r.(state := FaultState(error), error := Some(error))
  }

  function RunNext(plan: Plan, m: Machine, e: RunEvent): Machine
    requires RunEnabled(plan, m, e)
  {
    match e
    case StartRun => Commit(m, StartWorker(m.run)).(worker := Body)
    case SuspendRun => Commit(m, Suspend(m.run)).(worker := Off)
    case CloseBody(output) => m.(worker := Closing(output))
    case FinishRun(cancelled, overBudget) =>
      Commit(m, FinishBody(m.run, m.now, m.worker.output, cancelled, overBudget)).(worker := Off)
    case FailRun(error, cancelled) => Commit(m, FinishError(m.run, m.now, error, cancelled)).(worker := Off)
    case CancelRun => Commit(m, Cancel(m.run))
    case SettleEffect(key, command, actor, listed) =>
      Commit(m, Proposal(plan.host, m.run, key, command, actor, listed, m.now).value)
    case Observe(entry) => Commit(m, Audited(m.run, entry))
    case Tick(elapsed) => m.(now := m.now + elapsed)
    case Crash => m.(ready := false, worker := Off, tasks := map[], waiters := map[], open := {})
    case BecomeReady => m.(ready := true)
    case Deliver(id, delivery) => Commit(m, RunEdits.Deliver(m.run, id, delivery))
  }

  function WaitNext(plan: Plan, m: Machine, key: string, e: WaitEvent): Machine
    requires WaitEnabled(plan, m, key, e)
  {
    match e
    case EnterWait(w) => m.(waiters := m.waiters[key := w])
    case ReserveWait(recordId, duration) =>
      var w := m.waiters[key];
      Staged(Commit(m, Reserve(m.run, w.id, key, recordId, w.kind, duration, w.input, m.now)), key, Reserved)
    case FindWait => Staged(m, key, Reserved)
    case ConfirmWaitStart => AfterStart(m, key)
    case ConsumeWait =>
      Commit(m, Consume(m.run, m.waiters[key].id, m.waiters[key].input)).(waiters := WithoutWaiter(m.waiters, key))
    case ExpireWait => Commit(m, Expire(m.run, m.waiters[key].id))
    case FaultWait(error) => AfterFault(m, key, error)
    case LeaveWait => m.(waiters := WithoutWaiter(m.waiters, key))
  }

  function ControlNext(plan: Plan, m: Machine, key: string, e: ControlEvent): Machine
    requires ControlEnabled(plan, m, key, e)
  {
    match e
    case EnterControl(record) =>
      (if key in m.run.invocations then m else CommitNode(m, key, record)).(open := m.open + {key})
    case Reframe(frame) => CommitNode(m, key, m.run.invocations[key].(control := Some(frame)))
    case StopGroup(frame) => Commit(m, RunEdits.StopGroup(m.run, key, frame))
    case ConfirmControl(value) => CommitNode(m, key, ConfirmedControl(m.run.invocations[key], value)).(open := m.open - {key})
    case FailControl(error) => CommitNode(m, key, FailedControl(m.run.invocations[key], error)).(open := m.open - {key})
    case LeaveControl => m.(open := m.open - {key})
  }

  function OpNext(plan: Plan, m: Machine, key: string, step: D.CellEvent): Machine
    requires OpEnabled(plan, m, key, step)
  {
    WithCell(m, key, D.Next(plan.kindOf(key).op, CellOf(m, key), ClockOf(m), step))
  }

  function Next(plan: Plan, m: Machine, e: Event): Machine
    requires Enabled(plan, m, e)
  {
    match e
    case OpStep(key, step) => OpNext(plan, m, key, step)
    case WaitStep(key, step) => WaitNext(plan, m, key, step)
    case ControlStep(key, step) => ControlNext(plan, m, key, step)
    case RunStep(step) => RunNext(plan, m, step)
  }

  // ---------------------------------------------------------------- invariants

  predicate WaitRecordFits(r: InvocationRecord) {
    && r.operation == None && r.IsWait() && r.certainty == NotApplied
    && (r.state == InvocationState.Pending || r.state == InvocationState.Succeeded || r.state == InvocationState.Failed
        || r.state == InvocationState.Cancelled)
  }

  predicate ControlRecordFits(r: InvocationRecord) {
    r.operation == None && r.control.Some? && !r.IsWait() && r.certainty == NotApplied && r.state != InvocationState.Unknown
  }

  /** What the worker remembers of a wait still matches the run. */
  predicate WaiterFits(m: Machine, key: string, w: Waiter) {
    && KindAllowed(w.kind)
    && (if w.stage == Reserving then
          key in m.run.invocations ==> m.run.invocations[key].state == InvocationState.Succeeded || m.run.invocations[key].input == w.input
        else
          && w.id in m.run.waits && m.run.waits[w.id].node == key && m.run.waits[w.id].kind == w.kind
          && key in m.run.invocations
          && (m.run.invocations[key].state == InvocationState.Succeeded || m.run.invocations[key].input == w.input))
  }

  ghost predicate KeyFits(plan: Plan, m: Machine, key: string) {
    match plan.kindOf(key)
    case OpNode(op) =>
      key !in m.waiters && key !in m.open && D.Sound(op, CellOf(m, key), m.run.deadlineAt, m.ready)
    case WaitNode =>
      && key !in m.tasks && key !in m.open
      && (key in m.run.invocations ==> WaitRecordFits(m.run.invocations[key]))
      && (key in m.waiters ==> WaiterFits(m, key, m.waiters[key]))
    case ControlNode =>
      && key !in m.tasks && key !in m.waiters
      && (key in m.run.invocations ==> ControlRecordFits(m.run.invocations[key]))
      && (key in m.open ==> key in m.run.invocations && m.run.invocations[key].state != InvocationState.Succeeded)
  }

  ghost predicate AllKeysFit(plan: Plan, m: Machine) {
    forall key: string :: KeyFits(plan, m, key)
  }

  predicate WaitsPast(run: RunSnapshot, now: nat) {
    forall id :: id in run.waits ==> run.waits[id].createdAt <= now
  }

  /** A stopped run names exactly its unresolved effects. */
  ghost predicate NamesUnresolved(run: RunSnapshot) {
    exists listed, reason ::
      && ListsUnknown(run.invocations, listed) && run.unresolvedEffects == Listed(run.invocations, listed, reason)
      && (forall k :: k in run.invocations ==> (run.invocations[k].IsUnresolved() <==> k in listed))
  }

  /** A finished run hides no effect. */
  ghost predicate NothingHidden(run: RunSnapshot) {
    && NoneRunning(run.invocations)
    && (|| (NothingUnresolved(run.invocations) && run.unresolvedEffects == [])
        || (run.state != RunState.Succeeded && run.error == Some(Plain("effect.unresolved")) && NamesUnresolved(run)))
  }

  ghost predicate Settled(run: RunSnapshot) {
    && NoneRunning(run.invocations)
    && forall k :: k in run.invocations && run.invocations[k].IsUnresolved() ==> run.invocations[k].state == InvocationState.Unknown
  }

  ghost predicate LifeFits(m: Machine) {
    && (m.worker != Body ==> Quiet(m)) && (!m.ready ==> m.worker == Off)
    && (m.worker.Closing? ==> NothingUnresolved(m.run.invocations))
    && (m.worker != Off ==> !IsTerminal(m.run.state) && m.run.state != Blocked)
    && (!IsTerminal(m.run.state) ==> m.run.unresolvedEffects == [])
    && (m.run.state == Blocked ==> Settled(m.run))
    && (IsTerminal(m.run.state) ==> NothingHidden(m.run))
  }

  ghost predicate Inv(plan: Plan, m: Machine) {
    && WaitsConsistent(m.run) && WaitsPast(m.run, m.now)
    && AllKeysFit(plan, m) && LifeFits(m)
  }

  ghost predicate PlanFits(plan: Plan) {
    forall key: string :: plan.kindOf(key).OpNode? ==> plan.kindOf(key).op.retry.maxAttempts >= 1
  }

  ghost predicate Initial(plan: Plan, m: Machine) {
    && ValidInitial(m.run) && m.run.createdAt <= m.now && m.ready && m.worker == Off && Quiet(m) && m.worlds == map[]
    && PlanFits(plan)
  }
}
