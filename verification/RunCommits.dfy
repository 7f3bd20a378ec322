/**
 What each commit of the run machine changes and what it leaves alone, read off the snapshots before and after it:
 the ends of a run, the life of a wait, controls, and deliveries.
 */
module RunCommits {
  import opened Wrappers
  import opened Json
  import opened Protocol
  import opened Checkpoint
  import opened RunEdits
  import D = Dispatch
  import opened Reconciliation
  import opened RunMachine

  // ---------------------------------------------------------------- the worker's commits

  /** Waits that were open are closed and nothing else about any wait changes. */
  predicate ClosesWaits(a: RunSnapshot, b: RunSnapshot) {
    && b.waits.Keys == a.waits.Keys
    && forall id :: id in a.waits ==>
      b.waits[id] == if a.waits[id].state == Open then a.waits[id].(state := Closed) else a.waits[id]
  }

  /**
   The closing commit: cancellation outranks the deadline, the deadline the budget, and only then the value the
   body returned becomes the result. No record changes and every open wait is closed.
   */
  lemma ClosingCommit(plan: Plan, m: Machine, cancelled: bool, overBudget: bool)
    requires RunEnabled(plan, m, FinishRun(cancelled, overBudget))
    ensures var n := RunNext(plan, m, FinishRun(cancelled, overBudget)).run;
      var stop, late := m.run.cancelRequested || cancelled, m.now >= m.run.deadlineAt;
      && (n.state == RunState.Cancelled <==> stop) && (stop ==> n.error == Some(Plain("operation.cancelled")))
      && (n.state == RunState.Failed <==> !stop && (late || overBudget))
      && (!stop && late ==> n.error == Some(Plain("operation.timeout")))
      && (!stop && !late && overBudget ==> n.error == Some(Plain("resource.limit")))
      && (n.state == RunState.Succeeded <==> !stop && !late && !overBudget)
      && (n.state == RunState.Succeeded ==> n.output == Some(m.worker.output) && n.error == None)
      && (n.state != RunState.Succeeded ==> n.output == m.run.output)
      && n.finishedAt == Some(m.now) && n.invocations == m.run.invocations && ClosesWaits(m.run, n)
  {
  }

  /**
   The failing commit: every record of a possible effect becomes unknown. Behind an unknown record the run is
   blocked and keeps its waits; otherwise it ends with the error, cancelled or failed as the worker says.
   */
  lemma FailingCommit(plan: Plan, m: Machine, error: ForgeError, cancelled: bool)
    requires RunEnabled(plan, m, FailRun(error, cancelled))
    ensures var n := RunNext(plan, m, FailRun(error, cancelled)).run;
      && n.invocations.Keys == m.run.invocations.Keys && n.output == m.run.output
      && (forall k :: k in m.run.invocations ==> var r := m.run.invocations[k];
            n.invocations[k] == if r.state != InvocationState.Succeeded && r.certainty != NotApplied
                                then r.(state := InvocationState.Unknown) else r)
      && (n.state == Blocked <==> exists k :: k in n.invocations && n.invocations[k].state == InvocationState.Unknown)
      && (n.state == Blocked ==> n.error == Some(Plain("effect.unknown")) && n.finishedAt == None && n.waits == m.run.waits)
      && (n.state != Blocked ==>
            && n.state == (if cancelled then RunState.Cancelled else RunState.Failed)
            && n.error == Some(error) && n.finishedAt == Some(m.now) && ClosesWaits(m.run, n))
  {
  }

  /** Starting, suspending and cancelling move the state alone; cancellation also closes the waits and is final. */
  lemma WorkerCommits(plan: Plan, m: Machine)
    ensures RunEnabled(plan, m, StartRun) ==>
      var n := RunNext(plan, m, StartRun).run;
      n == m.run.(revision := n.revision, state := if m.run.cancelRequested then m.run.state else RunState.Running)
    ensures RunEnabled(plan, m, SuspendRun) ==>
      var n := RunNext(plan, m, SuspendRun).run;
      n == m.run.(revision := n.revision, state := if m.run.cancelRequested then m.run.state else Waiting)
    ensures RunEnabled(plan, m, CancelRun) ==>
      var n := RunNext(plan, m, CancelRun).run;
      && n == m.run.(revision := n.revision, cancelRequested := true, state := Cancelling, waits := n.waits)
      && ClosesWaits(m.run, n)
  {
  }

  // ---------------------------------------------------------------- the life of a wait

  /** The two are the same run but for one wait and one record. */
  predicate OnlyWaitAndNode(a: RunSnapshot, b: RunSnapshot, id: string, key: string) {
    && id in b.waits && key in b.invocations
    && b == a.(revision := b.revision, waits := a.waits[id := b.waits[id]], invocations := a.invocations[key := b.invocations[key]])
  }

  /** A reservation falls due after its duration or at the run's deadline, whichever comes first. */
  predicate DueTime(now: nat, duration: nat, deadlineAt: nat, due: nat) {
    due <= now + duration && due <= deadlineAt && (due == now + duration || due == deadlineAt)
  }

  lemma ReservationCommit(plan: Plan, m: Machine, key: string, recordId: string, duration: nat)
    requires WaitEnabled(plan, m, key, ReserveWait(recordId, duration))
    ensures var n, w := WaitNext(plan, m, key, ReserveWait(recordId, duration)), m.waiters[key];
      && OnlyWaitAndNode(m.run, n.run, w.id, key) && !m.run.cancelRequested && m.now < m.run.deadlineAt
      && var made, r := n.run.waits[w.id], n.run.invocations[key];
      && made.id == w.id && made.node == key && made.kind == w.kind && made.createdAt == m.now
      && DueTime(m.now, duration, m.run.deadlineAt, made.deadlineAt)
      && made.state == Open && made.delivery == None
      && (made.startConfirmed <==> !(w.kind.Signal? && w.kind.startNode.Some?))
      && r.id == recordId && r.state == InvocationState.Pending && r.attempts == 0 && r.input == w.input && r.output == None
      && r.error == None && r.operation == None && r.effectKey == None && r.certainty == NotApplied && r.nextAttemptAt == None
      && r.control == Some(ControlFrame.Wait(w.id))
  {
    hide KindAllowed;
  }

  /** What the start of a signal wait contributed to it. */
  predicate StartGave(run: RunSnapshot, start: Option<string>, v: Value) {
    if start.Some? && start.value in run.invocations && run.invocations[start.value].output.Some?
    then run.invocations[start.value].output == Some(v) else v == Null
  }

  predicate SignalGave(run: RunSnapshot, w: WaitRecord, output: Value)
    requires w.kind.Signal? && w.delivery.Some?
  {
    && output.Object? && |output.fields| == 2 && output.fields[0] == Field("signal", w.delivery.value.command.payload)
    && output.fields[1].key == "start" && StartGave(run, w.kind.startNode, output.fields[1].value)
  }

  /** Consuming a wait: a timer hands its input on, a signal its payload and the result of its start. */
  lemma ConsumptionCommit(plan: Plan, m: Machine, key: string)
    requires WaitEnabled(plan, m, key, ConsumeWait)
    ensures var n, id := WaitNext(plan, m, key, ConsumeWait), m.waiters[key].id;
      && OnlyWaitAndNode(m.run, n.run, id, key) && !m.run.cancelRequested && m.now < m.run.deadlineAt
      && var w, before, r := m.run.waits[id], m.run.invocations[key], n.run.invocations[key];
      && n.run.waits[id] == w.(state := Consumed)
      && r.state == InvocationState.Succeeded && r.input == Null && r.error == None && r.output.Some?
      && r == before.(state := r.state, output := r.output, input := r.input, error := r.error)
      && (w.kind.Timer? ==> w.deadlineAt <= m.now && r.output == Some(m.waiters[key].input))
      && (w.kind.Signal? ==> w.delivery.Some? && w.startConfirmed && SignalGave(m.run, w, r.output.value))
  {
  }

  lemma ExpiryCommit(plan: Plan, m: Machine, key: string)
    requires WaitEnabled(plan, m, key, ExpireWait)
    ensures var n, id := WaitNext(plan, m, key, ExpireWait), m.waiters[key].id;
      && m.run.waits[id].kind.Signal? && m.run.waits[id].delivery == None && m.run.waits[id].deadlineAt <= m.now
      && n.run == m.run.(revision := n.run.revision, waits := m.run.waits[id := m.run.waits[id].(state := Expired)])
  {
  }

  lemma StartCommit(plan: Plan, m: Machine, key: string)
    requires WaitEnabled(plan, m, key, ConfirmWaitStart)
    ensures var n, id := WaitNext(plan, m, key, ConfirmWaitStart), m.waiters[key].id;
      if m.run.waits[id].state == Open && !m.run.waits[id].startConfirmed then
        && NodeSucceeded(m.run, m.waiters[key].kind.startNode.value)
        && n.run == m.run.(revision := n.run.revision, waits := m.run.waits[id := m.run.waits[id].(startConfirmed := true)])
      else n.run == m.run
  {
  }

  /** A record that ended in an error: to be tried again behind an unknown effect, otherwise settled. */
  predicate FaultedAs(before: InvocationRecord, after: InvocationRecord, error: ForgeError) {
    && after == before.(state := after.state, error := Some(error))
    && (after.state == InvocationState.Pending <==> error.Code() == "effect.unknown")
    && (after.state == InvocationState.Cancelled <==> error.Code() == "operation.cancelled")
    && (after.state == InvocationState.Failed <==> error.Code() != "effect.unknown" && error.Code() != "operation.cancelled")
  }

  lemma FaultedMeans(before: InvocationRecord, error: ForgeError)
    ensures FaultedAs(before, before.(state := FaultState(error), error := Some(error)), error)
  {
  }

  /** A wait that ended in an error: a consumed one is left alone, one behind an unknown effect stays open, others close. */
  lemma FaultCommit(plan: Plan, m: Machine, key: string, error: ForgeError)
    requires WaitEnabled(plan, m, key, RunMachine.FaultWait(error))
    ensures var n, id := WaitNext(plan, m, key, RunMachine.FaultWait(error)), m.waiters[key].id;
      if m.run.waits[id].state == Consumed then n.run == m.run
      else
        && OnlyWaitAndNode(m.run, n.run, id, key)
        && n.run.waits[id] == (if error.Code() != "effect.unknown" && m.run.waits[id].state == Open
                               then m.run.waits[id].(state := Closed) else m.run.waits[id])
        && FaultedAs(m.run.invocations[key], n.run.invocations[key], error)
  {
    hide RunEdits.FaultWait, FaultedAs, OnlyWaitAndNode;
    if m.run.waits[m.waiters[key].id].state != Consumed {
      FaultEdit(m.run, m.waiters[key].id, key, error);
      CommitKeeps(m.run, RunEdits.FaultWait(m.run, m.waiters[key].id, error), m.waiters[key].id, key);
    }
  }

  lemma CommitKeeps(a: RunSnapshot, b: RunSnapshot, id: string, key: string)
    requires OnlyWaitAndNode(a, b, id, key)
    ensures OnlyWaitAndNode(a, Proposed(b), id, key)
  {
  }

  lemma FaultEdit(run: RunSnapshot, id: string, key: string, error: ForgeError)
    requires id in run.waits && run.waits[id].node == key && key in run.invocations && run.waits[id].state != Consumed
    ensures var n := RunEdits.FaultWait(run, id, error);
      && OnlyWaitAndNode(run, n, id, key)
      && n.waits[id] == (if error.Code() != "effect.unknown" && run.waits[id].state == Open
                         then run.waits[id].(state := Closed) else run.waits[id])
      && FaultedAs(run.invocations[key], n.invocations[key], error)
  {
    hide FaultState, FaultedAs;
    FaultedMeans(run.invocations[key], error);
    assert run.waits[id := run.waits[id]] == run.waits;
  }

  /** A delivery is recorded on its own wait and wakes a waiting run. */
  lemma DeliveryCommit(plan: Plan, m: Machine, id: string, d: SignalDelivery)
    requires RunEnabled(plan, m, RunMachine.Deliver(id, d))
    ensures var n := RunNext(plan, m, RunMachine.Deliver(id, d));
      && n == m.(run := n.run)
      && n.run == m.run.(revision := n.run.revision, waits := m.run.waits[id := m.run.waits[id].(delivery := Some(d))],
                         state := n.run.state)
      && m.run.waits[id].delivery == None && m.now < m.run.waits[id].deadlineAt && d.receipt.acceptedAt == m.now
      && !IsTerminal(m.run.state) && !m.run.cancelRequested
      && (n.run.state == RunState.Running <==> m.run.state == Waiting || m.run.state == RunState.Running)
      && (m.run.state != Waiting ==> n.run.state == m.run.state)
  {
  }

  // ---------------------------------------------------------------- controls

  /** A stopped group: its frame, and every open wait at a key strictly below it closed. */
  lemma StopCommit(plan: Plan, m: Machine, key: string, frame: ControlFrame)
    requires ControlEnabled(plan, m, key, RunMachine.StopGroup(frame))
    ensures var n := ControlNext(plan, m, key, RunMachine.StopGroup(frame));
      && n == m.(run := n.run) && n.run.waits.Keys == m.run.waits.Keys
      && n.run == m.run.(revision := n.run.revision, waits := n.run.waits,
                         invocations := m.run.invocations[key := m.run.invocations[key].(control := Some(frame))])
      && forall id :: id in m.run.waits ==>
           var w := m.run.waits[id];
           n.run.waits[id] == if w.state == Open && key + "/" <= w.node then w.(state := Closed) else w
  {
  }

  /** Entering a control commits its record only the first time; reframing changes its frame and nothing else. */
  lemma FrameCommit(plan: Plan, m: Machine, key: string, record: InvocationRecord, frame: ControlFrame)
    ensures ControlEnabled(plan, m, key, EnterControl(record)) ==>
      var n := ControlNext(plan, m, key, EnterControl(record));
      && n.open == m.open + {key}
      && n.run == (if key in m.run.invocations then m.run
                   else m.run.(revision := n.run.revision, invocations := m.run.invocations[key := record]))
    ensures ControlEnabled(plan, m, key, Reframe(frame)) ==>
      var n := ControlNext(plan, m, key, Reframe(frame)).run;
      n == m.run.(revision := n.revision, invocations := m.run.invocations[key := m.run.invocations[key].(control := Some(frame))])
  {
    hide Activation;
  }

  /** A control ends as a value, with nothing of its input kept, or as its error. */
  lemma ControlCommit(plan: Plan, m: Machine, key: string, value: Value, error: ForgeError)
    requires ControlEnabled(plan, m, key, ConfirmControl(value)) && ControlEnabled(plan, m, key, FailControl(error))
    ensures var n, r := ControlNext(plan, m, key, ConfirmControl(value)).run, m.run.invocations[key];
      n == m.run.(revision := n.revision, invocations := m.run.invocations[key :=
        r.(state := InvocationState.Succeeded, output := Some(value), input := Null, error := None)])
    ensures var n, r := ControlNext(plan, m, key, FailControl(error)).run, m.run.invocations[key];
      && key in n.invocations && n == m.run.(revision := n.revision, invocations := m.run.invocations[key := n.invocations[key]])
      && FaultedAs(r, n.invocations[key], error)
  {
  }
}
