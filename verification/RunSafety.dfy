/** What every reachable state of a run keeps, and what that means for its effects. */
module RunSafety {
  import opened Wrappers
  import opened Text
  import opened Json
  import opened Protocol
  import opened Checkpoint
  import opened WaitHistory
  import opened RunEdits
  import D = Dispatch
  import opened Reconciliation
  import opened RunMachine

  // ---------------------------------------------------------------- reading the invariant

  lemma AnyKeyFits(plan: Plan, m: Machine, key: string)
    requires AllKeysFit(plan, m)
    ensures KeyFits(plan, m, key)
  {
  }

  lemma OpIsNoWait(plan: Plan, m: Machine, key: string)
    requires plan.kindOf(key).OpNode? && KeyFits(plan, m, key) && key in m.run.invocations
    ensures !m.run.invocations[key].IsWait() && m.run.invocations[key].operation.Some?
  {
  }

  lemma WaiterRemembers(plan: Plan, m: Machine, key: string)
    requires AllKeysFit(plan, m) && key in m.waiters
    ensures plan.kindOf(key).WaitNode? && WaiterFits(m, key, m.waiters[key])
    ensures key in m.run.invocations ==> WaitRecordFits(m.run.invocations[key])
  {
    assert KeyFits(plan, m, key);
    hide WaiterFits, WaitRecordFits, D.Sound;
  }

  lemma ControlRemembers(plan: Plan, m: Machine, key: string)
    requires AllKeysFit(plan, m) && key in m.open
    ensures plan.kindOf(key).ControlNode? && key in m.run.invocations
    ensures m.run.invocations[key].state != InvocationState.Succeeded && ControlRecordFits(m.run.invocations[key])
  {
    assert KeyFits(plan, m, key);
    hide D.Sound;
  }

  // ---------------------------------------------------------------- every commit is accepted

  /** Nothing was committed, or every store accepts what was. */
  ghost predicate Lawful(m: Machine, after: Machine) {
    after.run == m.run || ValidSuccessor(m.run, m.run.revision, after.run)
  }

  lemma NodeLawful(m: Machine, key: string, record: InvocationRecord)
    requires WaitsConsistent(m.run) && NodeCommitAllowed(m.run, m.run.revision, key, record)
    ensures Lawful(m, CommitNode(m, key, record))
  {
    hide WaitsConsistent, ValidSuccessor, NodeCommitAllowed;
    NodeCommitRefinesFullCommit(m.run, m.run.revision, key, record);
  }

  /** A record written by the dispatch protocol is never a wait and never replaces a result. */
  lemma OpRecordChange(op: D.OpPlan, c: D.Cell, clock: D.Clock, step: D.CellEvent)
    requires D.Sound(op, c, clock.deadlineAt, clock.ready) && D.Enabled(op, c, clock, step)
    ensures var after := D.Next(op, c, clock, step);
      && (after.record.Some? ==> after.record.value.control == None)
      && (c.record.Some? ==> after.record.Some? && c.record.value.control == None)
      && (c.record.Some? && c.record.value.state == InvocationState.Succeeded ==> after.record == c.record)
  {
    hide D.Next, D.Enabled, D.CallsFit, D.UnsafeFits, D.TaskFits;
    D.StepKeeps(op, c, clock, step);
    D.EventCarries(op, c, clock, step);
  }

  /** Once the run ended no operation has a task and none is recorded as running, so no record changes. */
  lemma TerminalCellsRest(plan: Plan, m: Machine, key: string, step: D.CellEvent)
    requires Inv(plan, m) && IsTerminal(m.run.state) && OpEnabled(plan, m, key, step)
    ensures D.Next(plan.kindOf(key).op, CellOf(m, key), ClockOf(m), step).record == CellOf(m, key).record
  {
    hide WaitsConsistent, D.Conclude;
    assert KeyFits(plan, m, key);
    assert m.worker == Off && Quiet(m);
  }

  lemma OpLawful(plan: Plan, m: Machine, key: string, step: D.CellEvent)
    requires Inv(plan, m) && OpEnabled(plan, m, key, step) && m.run.revision < MAX_REVISION
    ensures Lawful(m, OpNext(plan, m, key, step))
  {
    if IsTerminal(m.run.state) {
      TerminalCellsRest(plan, m, key, step);
    }
    AnyKeyFits(plan, m, key);
    hide D.Next, D.Enabled, WaitsConsistent, ValidSuccessor, D.Sound, AllKeysFit, LifeFits;
    var op, c, clock := plan.kindOf(key).op, CellOf(m, key), ClockOf(m);
    OpRecordChange(op, c, clock, step);
    var after := D.Next(op, c, clock, step);
    if after.record.Some? && after.record != c.record {
      NodeLawful(m, key, after.record.value);
    }
  }

  /** A worker that still has something live means the run has not ended. */
  lemma LiveMeansUnfinished(plan: Plan, m: Machine, e: Event)
    requires Inv(plan, m) && Enabled(plan, m, e) && (e.WaitStep? || e.ControlStep?)
    ensures !IsTerminal(m.run.state) && m.run.state != Blocked && m.worker == Body && m.ready
  {
    hide WaitsConsistent, AllKeysFit, NothingHidden, RunMachine.Settled, NothingUnresolved, KindAllowed;
  }

  lemma WaitLawful(plan: Plan, m: Machine, key: string, e: WaitEvent)
    requires WaitsConsistent(m.run) && AllKeysFit(plan, m) && WaitEnabled(plan, m, key, e)
    requires m.run.revision < MAX_REVISION && !IsTerminal(m.run.state)
    ensures Lawful(m, WaitNext(plan, m, key, e))
  {
    hide ValidSuccessor, WaitsConsistent, Reserve, ConfirmStart, Consume, Expire, RunEdits.FaultWait, AllKeysFit;
    if key in m.waiters {
      WaiterRemembers(plan, m, key);
      var w := m.waiters[key];
      match e {
        case ReserveWait(recordId, duration) => ReserveAccepted(m.run, w.id, key, recordId, w.kind, duration, w.input, m.now);
        case ConfirmWaitStart =>
          if m.run.waits[w.id].state == Open {
            ConfirmStartAccepted(m.run, w.id);
          }
        case ConsumeWait =>
          ConsumableInput(plan, m, key);
          ConsumeAccepted(m.run, w.id, w.input);
        case ExpireWait => ExpireAccepted(m.run, w.id);
        case FaultWait(error) =>
          if m.run.waits[w.id].state != Consumed {
            FaultWaitAccepted(m.run, w.id, error);
          }
        case _ =>
      }
    }
  }

  /** The input a waiter remembers is still the input of its open activation. */
  lemma ConsumableInput(plan: Plan, m: Machine, key: string)
    requires WaitsConsistent(m.run) && WaitEnabled(plan, m, key, ConsumeWait) && WaiterFits(m, key, m.waiters[key])
    ensures m.waiters[key].input == m.run.invocations[key].input
  {
    WaitBefore(m.run, m.waiters[key].id);
    hide WaitsConsistent, WaitKindFits;
  }

  lemma ControlLawful(plan: Plan, m: Machine, key: string, e: ControlEvent)
    requires WaitsConsistent(m.run) && AllKeysFit(plan, m) && ControlEnabled(plan, m, key, e)
    requires m.run.revision < MAX_REVISION && !IsTerminal(m.run.state)
    ensures Lawful(m, ControlNext(plan, m, key, e))
  {
    hide ValidSuccessor, WaitsConsistent, RunEdits.StopGroup, AllKeysFit, WithNode;
    if key in m.open {
      ControlRemembers(plan, m, key);
      match e {
        case Reframe(frame) => NodeLawful(m, key, m.run.invocations[key].(control := Some(frame)));
        case StopGroup(frame) => StopGroupAccepted(m.run, key, frame);
        case ConfirmControl(value) => NodeLawful(m, key, ConfirmedControl(m.run.invocations[key], value));
        case FailControl(error) => NodeLawful(m, key, FailedControl(m.run.invocations[key], error));
        case _ =>
      }
    } else if e.EnterControl? && key !in m.run.invocations {
      NodeLawful(m, key, e.record);
    }
  }

  /** With a monotone clock the accepted moment lies between the reservation and its deadline. */
  lemma DeliverableFits(m: Machine, id: string, d: SignalDelivery)
    requires WaitsConsistent(m.run) && WaitsPast(m.run, m.now) && Deliverable(m, id, d)
    ensures !IsTerminal(m.run.state) && id in m.run.waits && m.run.waits[id].kind.Signal? && m.run.waits[id].delivery == None
    ensures m.run.waits[id].state == Open && DeliveryFits(m.run, m.run.waits[id], d)
  {
    WaitBefore(m.run, id);
    hide WaitsConsistent, Bytes;
  }

  lemma WorkerLawful(plan: Plan, m: Machine, e: RunEvent)
    requires e.StartRun? || e.SuspendRun? || e.CloseBody? || e.FinishRun? || e.FailRun? || e.CancelRun?
    requires WaitsConsistent(m.run) && LifeFits(m) && RunEnabled(plan, m, e) && m.run.revision < MAX_REVISION
    ensures Lawful(m, RunNext(plan, m, e))
  {
    hide WaitsConsistent, ValidSuccessor, StartWorker, Suspend, FinishBody, FinishError, Cancel, NothingHidden,
      NothingUnresolved, RunMachine.Settled;
    if e.FailRun? {
      FinishErrorAccepted(m.run, m.now, e.error, e.cancelled);
    } else if e.FinishRun? {
      WorkerEditsAccepted(m.run, m.now, m.worker.output, e.cancelled, e.overBudget);
    } else {
      WorkerEditsAccepted(m.run, 0, Null, false, false);
    }
  }

  lemma HostLawful(plan: Plan, m: Machine, e: RunEvent)
    requires e.SettleEffect? || e.Observe? || e.Tick? || e.BecomeReady? || e.Deliver? || e.Crash?
    requires Inv(plan, m) && RunEnabled(plan, m, e) && m.run.revision < MAX_REVISION
    ensures Lawful(m, RunNext(plan, m, e))
  {
    hide WaitsConsistent, ValidSuccessor, Proposal, RunEdits.Deliver, Audited, Rule, ListsUnknown, LifeFits, AllKeysFit, Deliverable;
    match e
    case SettleEffect(key, command, actor, listed) =>
      AnyKeyFits(plan, m, key);
      OpIsNoWait(plan, m, key);
      ProposalAccepted(plan.host, m.run, key, command, actor, listed, m.now);
    case Observe(entry) => AuditAccepted(m.run, entry);
    case Deliver(id, delivery) =>
      DeliverableFits(m, id, delivery);
      DeliverAccepted(m.run, id, delivery);
    case _ =>
  }

  /**
   The engine never proposes a bad transition: from every state that keeps the invariant,
   each event either commits nothing or commits a successor every store accepts.
   */
  lemma EveryCommitAccepted(plan: Plan, m: Machine, e: Event)
    requires Inv(plan, m) && Enabled(plan, m, e) && m.run.revision < MAX_REVISION
    ensures Lawful(m, Next(plan, m, e))
  {
    match e
    case OpStep(key, step) => OpLawful(plan, m, key, step);
    case WaitStep(key, step) =>
      LiveMeansUnfinished(plan, m, e);
      WaitLawful(plan, m, key, step);
    case ControlStep(key, step) =>
      LiveMeansUnfinished(plan, m, e);
      ControlLawful(plan, m, key, step);
    case RunStep(step) =>
      if step.SettleEffect? || step.Observe? || step.Tick? || step.BecomeReady? || step.Deliver? || step.Crash? {
        HostLawful(plan, m, step);
      } else {
        WorkerLawful(plan, m, step);
      }
  }

  // ---------------------------------------------------------------- the effect protocol inside the run

  function SnapOf(m: Machine, key: string): D.Snap {
    D.Snap(CellOf(m, key), ClockOf(m))
  }

  lemma OpCell(plan: Plan, m: Machine, key: string, step: D.CellEvent)
    requires OpEnabled(plan, m, key, step)
    requires D.Sound(plan.kindOf(key).op, CellOf(m, key), m.run.deadlineAt, m.ready)
    ensures CellOf(OpNext(plan, m, key, step), key) == D.Next(plan.kindOf(key).op, CellOf(m, key), ClockOf(m), step)
  {
    OpRecordChange(plan.kindOf(key).op, CellOf(m, key), ClockOf(m), step);
    hide D.Next, D.Enabled, D.Sound;
  }

  lemma OtherCell(m: Machine, key: string, c: D.Cell, other: string)
    requires other != key
    ensures CellOf(WithCell(m, key, c), other) == CellOf(m, other)
  {
  }

  lemma OpProjects(plan: Plan, m: Machine, key: string, step: D.CellEvent, other: string)
    requires OpEnabled(plan, m, key, step) && plan.kindOf(other).OpNode?
    requires D.Sound(plan.kindOf(key).op, CellOf(m, key), m.run.deadlineAt, m.ready)
    ensures D.Moves(plan.kindOf(other).op, SnapOf(m, other), SnapOf(OpNext(plan, m, key, step), other))
  {
    var op, c, clock := plan.kindOf(key).op, CellOf(m, key), ClockOf(m);
    var next := OpNext(plan, m, key, step);
    assert ClockOf(next) == clock;
    if other == key {
      OpCell(plan, m, key, step);
      assert D.Enabled(op, c, clock, step);
    } else {
      OtherCell(m, key, D.Next(op, c, clock, step), other);
    }
    hide D.Next, D.Enabled, D.Sound, CellOf, OpNext;
  }

  lemma WaitProjects(plan: Plan, m: Machine, key: string, e: WaitEvent, other: string)
    requires AllKeysFit(plan, m) && WaitEnabled(plan, m, key, e) && plan.kindOf(other).OpNode?
    ensures CellOf(WaitNext(plan, m, key, e), other) == CellOf(m, other)
    ensures ClockOf(WaitNext(plan, m, key, e)) == ClockOf(m)
  {
    hide KindAllowed, StartsConfirmed, AllKeysFit, Consumable, FaultState, ClosedWait, Consume, Expire, AfterFault, AfterStart, WaiterFits,
      WaitRecordFits;
    match e
    case FaultWait(_) => WaitCommitProjects(plan, m, key, e, other);
    case ConsumeWait => WaitCommitProjects(plan, m, key, e, other);
    case ConfirmWaitStart => WaitFlagProjects(plan, m, key, e, other);
    case ExpireWait => WaitFlagProjects(plan, m, key, e, other);
    case _ =>
      if key in m.waiters {
        WaiterRemembers(plan, m, key);
      }
  }

  lemma WaitFlagProjects(plan: Plan, m: Machine, key: string, e: WaitEvent, other: string)
    requires e.ConfirmWaitStart? || e.ExpireWait?
    requires WaitEnabled(plan, m, key, e)
    ensures CellOf(WaitNext(plan, m, key, e), other) == CellOf(m, other)
    ensures ClockOf(WaitNext(plan, m, key, e)) == ClockOf(m)
  {
    hide Consumable, Consume;
  }

  lemma WaitCommitProjects(plan: Plan, m: Machine, key: string, e: WaitEvent, other: string)
    requires e.FaultWait? || e.ConsumeWait?
    requires AllKeysFit(plan, m) && WaitEnabled(plan, m, key, e) && plan.kindOf(other).OpNode?
    ensures CellOf(WaitNext(plan, m, key, e), other) == CellOf(m, other)
    ensures ClockOf(WaitNext(plan, m, key, e)) == ClockOf(m)
  {
    hide KindAllowed, StartsConfirmed, AllKeysFit, WaitOutput, FaultState, ClosedWait, Expire, Reserve, WaitRecordFits;
    WaiterRemembers(plan, m, key);
  }

  lemma ControlProjects(plan: Plan, m: Machine, key: string, e: ControlEvent, other: string)
    requires AllKeysFit(plan, m) && ControlEnabled(plan, m, key, e) && plan.kindOf(other).OpNode?
    ensures CellOf(ControlNext(plan, m, key, e), other) == CellOf(m, other)
    ensures ClockOf(ControlNext(plan, m, key, e)) == ClockOf(m)
  {
    if key in m.open {
      ControlRemembers(plan, m, key);
    }
    hide AllKeysFit, FaultState, ClosedWait;
  }

  /** Every record of a failing run that may hide an effect is doubted, all at once. */
  lemma FailProjects(plan: Plan, m: Machine, e: RunEvent, other: string)
    requires e.FailRun? && RunEnabled(plan, m, e) && plan.kindOf(other).OpNode?
    ensures D.Moves(plan.kindOf(other).op, SnapOf(m, other), SnapOf(RunNext(plan, m, e), other))
  {
    hide CloseWaits, AnyUnknown;
    var op, c, clock := plan.kindOf(other).op, CellOf(m, other), ClockOf(m);
    assert D.Enabled(op, c, clock, D.Doubt);
    assert CellOf(RunNext(plan, m, e), other) == D.Next(op, c, clock, D.Doubt);
  }

  /** The remaining run events leave every cell alone, or take its task away, or open the doors. */
  lemma QuietRunProjects(plan: Plan, m: Machine, e: RunEvent, other: string)
    requires !e.FailRun? && !e.SettleEffect? && RunEnabled(plan, m, e)
    requires other in m.run.invocations ==> m.run.invocations[other].operation.Some?
    ensures if e.Crash? then CellOf(RunNext(plan, m, e), other) == D.Crashed(CellOf(m, other)) else CellOf(RunNext(plan, m, e), other) == CellOf(m, other)
    ensures var before, after := ClockOf(m), ClockOf(RunNext(plan, m, e));
      if e.Crash? then after == before.(ready := false)
      else if e.BecomeReady? then
        after == before.(ready := true) && !before.ready
        && (other in m.run.invocations ==> m.run.invocations[other].state != InvocationState.Running)
      else D.Ticks(before, after)
  {
    hide Deliverable, CloseWaits, NothingUnresolved;
  }

  lemma RunProjects(plan: Plan, m: Machine, e: RunEvent, other: string)
    requires RunEnabled(plan, m, e) && LifeFits(m) && plan.kindOf(other).OpNode?
    requires KeyFits(plan, m, other)
    ensures D.Moves(plan.kindOf(other).op, SnapOf(m, other), SnapOf(RunNext(plan, m, e), other))
  {
    if other in m.run.invocations {
      OpIsNoWait(plan, m, other);
    }
    hide RunEnabled, RunNext, LifeFits, KeyFits, D.Next, D.Enabled;
    if e.SettleEffect? {
      SettleProjects(plan, m, e, other);
    } else if e.FailRun? {
      FailProjects(plan, m, e, other);
    } else {
      QuietRunProjects(plan, m, e, other);
    }
  }

  lemma SettleProjects(plan: Plan, m: Machine, e: RunEvent, other: string)
    requires e.SettleEffect? && RunEnabled(plan, m, e) && LifeFits(m) && plan.kindOf(other).OpNode?
    ensures D.Moves(plan.kindOf(other).op, SnapOf(m, other), SnapOf(RunNext(plan, m, e), other))
  {
    hide RunEnabled, RunNext, LifeFits;
    if other == e.key {
      SettleMoves(plan, m, e);
    } else {
      SettleSpares(plan, m, e, other);
    }
  }

  /** The ruling on a record settles it as the protocol does, or leaves it. */
  lemma SettleMoves(plan: Plan, m: Machine, e: RunEvent)
    requires e.SettleEffect? && RunEnabled(plan, m, e) && LifeFits(m) && plan.kindOf(e.key).OpNode?
    ensures D.Moves(plan.kindOf(e.key).op, SnapOf(m, e.key), SnapOf(RunNext(plan, m, e), e.key))
  {
    ProposalShape(plan.host, m.run, e.key, e.command, e.actor, e.listed, m.now);
    hide Proposal, ListsUnknown;
    var op, c, clock := plan.kindOf(e.key).op, CellOf(m, e.key), ClockOf(m);
    var next := RunNext(plan, m, e);
    var ruling := Rule(plan.host, m.run, m.run.invocations[e.key], e.command.resolution, m.now).value;
    if ruling.settlement.Some? {
      var step := D.Settle(ruling.settlement.value);
      SettlementAllowed(plan, m, e);
      assert D.Enabled(op, c, clock, step);
      assert CellOf(next, e.key) == D.Next(op, c, clock, step);
    } else {
      RuledNothing(m.run, m.run.invocations[e.key], ruling, m.now);
      assert CellOf(next, e.key) == c;
    }
  }

  /** A ruling on one record is not seen by any other operation. */
  lemma SettleSpares(plan: Plan, m: Machine, e: RunEvent, other: string)
    requires e.SettleEffect? && RunEnabled(plan, m, e) && other != e.key
    ensures CellOf(RunNext(plan, m, e), other) == CellOf(m, other) && ClockOf(RunNext(plan, m, e)) == ClockOf(m)
  {
    ProposalShape(plan.host, m.run, e.key, e.command, e.actor, e.listed, m.now);
    hide Proposal, ListsUnknown, Rule;
  }

  lemma SettlementAllowed(plan: Plan, m: Machine, e: RunEvent)
    requires e.SettleEffect? && RunEnabled(plan, m, e) && LifeFits(m)
    requires Rule(plan.host, m.run, m.run.invocations[e.key], e.command.resolution, m.now).value.settlement.Some?
    ensures D.Enabled(plan.kindOf(e.key).op, CellOf(m, e.key), ClockOf(m),
                      D.Settle(Rule(plan.host, m.run, m.run.invocations[e.key], e.command.resolution, m.now).value.settlement.value))
  {
    hide ListsUnknown, NothingHidden, RunMachine.Settled, NothingUnresolved, Resolved;
    assert Quiet(m);
  }

  /** Seen from one operation, every event of the run is a move of its effect protocol. */
  lemma Projects(plan: Plan, m: Machine, e: Event, key: string)
    requires Inv(plan, m) && Enabled(plan, m, e) && plan.kindOf(key).OpNode?
    ensures D.Moves(plan.kindOf(key).op, SnapOf(m, key), SnapOf(Next(plan, m, e), key))
  {
    AnyKeyFits(plan, m, key);
    match e
    case OpStep(k, step) =>
      AnyKeyFits(plan, m, k);
      OpProjects(plan, m, k, step, key);
    case WaitStep(k, step) => WaitProjects(plan, m, k, step, key);
    case ControlStep(k, step) => ControlProjects(plan, m, k, step, key);
    case RunStep(step) => RunProjects(plan, m, step, key);
  }
}
