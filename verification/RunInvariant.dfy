/** Every event keeps the invariant, so every reachable state has it. */
module RunInvariant {
  import opened Wrappers
  import Text
  import opened Protocol
  import opened Checkpoint
  import opened RunEdits
  import D = Dispatch
  import opened Reconciliation
  import opened RunMachine
  import opened RunSafety

  // ---------------------------------------------------------------- keys of waits and controls

  /** What one key sees of the machine, apart from the effect protocol. */
  ghost predicate PlainKeyFits(plan: Plan, m: Machine, key: string) {
    match plan.kindOf(key)
    case OpNode(op) => key !in m.waiters && key !in m.open
    case WaitNode =>
      && key !in m.tasks && key !in m.open
      && (key in m.run.invocations ==> WaitRecordFits(m.run.invocations[key]))
      && (key in m.waiters ==> WaiterFits(m, key, m.waiters[key]))
    case ControlNode =>
      && key !in m.tasks && key !in m.waiters
      && (key in m.run.invocations ==> ControlRecordFits(m.run.invocations[key]))
      && (key in m.open ==> key in m.run.invocations && m.run.invocations[key].state != InvocationState.Succeeded)
  }

  /** Nothing a key relies on changed: its record, its place in the worker, the wait it remembers. */
  predicate SameForKey(m: Machine, n: Machine, key: string) {
    && (key in n.tasks ==> key in m.tasks) && (key in n.open ==> key in m.open)
    && (key in n.waiters ==> key in m.waiters && n.waiters[key] == m.waiters[key])
    && (key in m.run.invocations <==> key in n.run.invocations)
    && (key in m.run.invocations ==> n.run.invocations[key] == m.run.invocations[key])
    && (key in m.waiters && m.waiters[key].id in m.run.waits ==>
          && m.waiters[key].id in n.run.waits
          && n.run.waits[m.waiters[key].id].node == m.run.waits[m.waiters[key].id].node
          && n.run.waits[m.waiters[key].id].kind == m.run.waits[m.waiters[key].id].kind)
  }

  lemma SameFits(plan: Plan, m: Machine, n: Machine, key: string)
    requires PlainKeyFits(plan, m, key) && SameForKey(m, n, key)
    ensures PlainKeyFits(plan, n, key)
  {
    hide WaitRecordFits, ControlRecordFits, KindAllowed;
  }

  lemma PlainOfAll(plan: Plan, m: Machine, key: string)
    requires AllKeysFit(plan, m)
    ensures PlainKeyFits(plan, m, key)
  {
    AnyKeyFits(plan, m, key);
    hide D.Sound, WaitRecordFits, ControlRecordFits, WaiterFits;
  }

  lemma OpPlain(plan: Plan, m: Machine, k: string, step: D.CellEvent, key: string)
    requires AllKeysFit(plan, m) && OpEnabled(plan, m, k, step)
    ensures PlainKeyFits(plan, OpNext(plan, m, k, step), key)
  {
    PlainOfAll(plan, m, key);
    hide D.Next, D.Enabled, AllKeysFit, WaitRecordFits, ControlRecordFits, KindAllowed;
    var n := OpNext(plan, m, k, step);
    if key != k {
      assert SameForKey(m, n, key);
      SameFits(plan, m, n, key);
    }
  }

  lemma ControlPlain(plan: Plan, m: Machine, k: string, e: ControlEvent, key: string)
    requires AllKeysFit(plan, m) && ControlEnabled(plan, m, k, e)
    ensures PlainKeyFits(plan, ControlNext(plan, m, k, e), key)
  {
    PlainOfAll(plan, m, key);
    if k in m.open {
      ControlRemembers(plan, m, k);
    }
    hide AllKeysFit, WaitRecordFits, KindAllowed;
    var n := ControlNext(plan, m, k, e);
    if key != k {
      assert SameForKey(m, n, key);
      SameFits(plan, m, n, key);
    }
  }

  lemma WaitPlain(plan: Plan, m: Machine, k: string, e: WaitEvent, key: string)
    requires AllKeysFit(plan, m) && WaitEnabled(plan, m, k, e) && WaitsConsistent(m.run)
    ensures PlainKeyFits(plan, WaitNext(plan, m, k, e), key)
  {
    PlainOfAll(plan, m, key);
    if k in m.waiters {
      WaiterRemembers(plan, m, k);
    }
    hide AllKeysFit, WaitsConsistent;
    if key != k {
      OtherWaitSame(plan, m, k, e, key);
      SameFits(plan, m, WaitNext(plan, m, k, e), key);
    } else if e.EnterWait? || e.ReserveWait? || e.FindWait? || e.LeaveWait? {
      WaitBeginsPlain(plan, m, k, e);
    } else {
      WaitEndsPlain(plan, m, k, e);
    }
  }

  lemma OtherWaitSame(plan: Plan, m: Machine, k: string, e: WaitEvent, key: string)
    requires WaitEnabled(plan, m, k, e) && key != k && PlainKeyFits(plan, m, key)
    requires k in m.waiters ==> plan.kindOf(k).WaitNode? && WaiterFits(m, k, m.waiters[k])
    ensures SameForKey(m, WaitNext(plan, m, k, e), key)
  {
    hide WaitEnabled, WaitNext, PlainKeyFits, WaiterFits, SameForKey;
    if e.EnterWait? || e.ReserveWait? || e.FindWait? || e.LeaveWait? {
      OtherWaitBegins(plan, m, k, e, key);
    } else if e.ConsumeWait? || e.FaultWait? {
      OtherWaitEnds(plan, m, k, e, key);
    } else {
      OtherWaitMoves(plan, m, k, e, key);
    }
  }

  lemma OtherWaitBegins(plan: Plan, m: Machine, k: string, e: WaitEvent, key: string)
    requires e.EnterWait? || e.ReserveWait? || e.FindWait? || e.LeaveWait?
    requires WaitEnabled(plan, m, k, e) && key != k && PlainKeyFits(plan, m, key)
    requires k in m.waiters ==> plan.kindOf(k).WaitNode? && WaiterFits(m, k, m.waiters[k])
    ensures SameForKey(m, WaitNext(plan, m, k, e), key)
  {
    hide WaitRecordFits, ControlRecordFits, KindAllowed, Consumable, WaitOutput, FaultState, StartsConfirmed;
  }

  lemma OtherWaitEnds(plan: Plan, m: Machine, k: string, e: WaitEvent, key: string)
    requires e.ConsumeWait? || e.FaultWait?
    requires WaitEnabled(plan, m, k, e) && key != k && PlainKeyFits(plan, m, key)
    requires k in m.waiters ==> plan.kindOf(k).WaitNode? && WaiterFits(m, k, m.waiters[k])
    ensures SameForKey(m, WaitNext(plan, m, k, e), key)
  {
    hide WaitRecordFits, ControlRecordFits, KindAllowed, Consumable, WaitOutput, FaultState, StartsConfirmed;
  }

  lemma OtherWaitMoves(plan: Plan, m: Machine, k: string, e: WaitEvent, key: string)
    requires e.ConfirmWaitStart? || e.ExpireWait?
    requires WaitEnabled(plan, m, k, e) && key != k && PlainKeyFits(plan, m, key)
    requires k in m.waiters ==> plan.kindOf(k).WaitNode? && WaiterFits(m, k, m.waiters[k])
    ensures SameForKey(m, WaitNext(plan, m, k, e), key)
  {
    hide WaitRecordFits, ControlRecordFits, KindAllowed, Consumable, WaitOutput, FaultState, StartsConfirmed;
  }

  lemma WaitBeginsPlain(plan: Plan, m: Machine, k: string, e: WaitEvent)
    requires e.EnterWait? || e.ReserveWait? || e.FindWait? || e.LeaveWait?
    requires WaitEnabled(plan, m, k, e) && PlainKeyFits(plan, m, k) && WaitsConsistent(m.run)
    requires k in m.waiters ==> plan.kindOf(k).WaitNode? && WaiterFits(m, k, m.waiters[k])
    ensures PlainKeyFits(plan, WaitNext(plan, m, k, e), k)
  {
    if e.FindWait? {
      WaitBefore(m.run, m.waiters[k].id);
    }
    hide KindAllowed, StartsConfirmed, WaitsConsistent, WaitKindFits, WaitSettled;
  }

  lemma WaitEndsPlain(plan: Plan, m: Machine, k: string, e: WaitEvent)
    requires e.ConfirmWaitStart? || e.ConsumeWait? || e.ExpireWait? || e.FaultWait?
    requires WaitEnabled(plan, m, k, e) && PlainKeyFits(plan, m, k)
    requires k in m.waiters && plan.kindOf(k).WaitNode? && WaiterFits(m, k, m.waiters[k])
    ensures PlainKeyFits(plan, WaitNext(plan, m, k, e), k)
  {
    hide KindAllowed, StartsConfirmed, WaitOutput, Consumable, Text.Bytes;
  }

  lemma RunPlain(plan: Plan, m: Machine, e: RunEvent, key: string)
    requires AllKeysFit(plan, m) && RunEnabled(plan, m, e) && LifeFits(m)
    requires Lawful(m, RunNext(plan, m, e))
    ensures PlainKeyFits(plan, RunNext(plan, m, e), key)
  {
    PlainOfAll(plan, m, key);
    var n := RunNext(plan, m, e);
    WaitsPersist(m, n);
    if !(plan.kindOf(key).OpNode? && (e.FailRun? || e.SettleEffect?)) {
      RunSameForKey(plan, m, e, key);
      hide RunNext, RunEnabled;
      SameFits(plan, m, n, key);
    } else {
      hide Proposal, FinishError, ListsUnknown, AllKeysFit, Lawful;
    }
  }

  lemma RunSameForKey(plan: Plan, m: Machine, e: RunEvent, key: string)
    requires plan.kindOf(key).OpNode? ==> !e.FailRun? && !e.SettleEffect?
    requires RunEnabled(plan, m, e) && PlainKeyFits(plan, m, key)
    requires forall id :: id in m.run.waits ==> var n := RunNext(plan, m, e);
      id in n.run.waits && n.run.waits[id].node == m.run.waits[id].node && n.run.waits[id].kind == m.run.waits[id].kind
    ensures SameForKey(m, RunNext(plan, m, e), key)
  {
    hide RunEnabled, RunNext, PlainKeyFits, SameForKey;
    if e.SettleEffect? {
      SettleSameForKey(plan, m, e, key);
    } else if e.FailRun? {
      FailSameForKey(plan, m, e, key);
    } else {
      PlainRunSameForKey(plan, m, e, key);
    }
  }

  lemma SettleSameForKey(plan: Plan, m: Machine, e: RunEvent, key: string)
    requires e.SettleEffect? && !plan.kindOf(key).OpNode?
    requires RunEnabled(plan, m, e) && PlainKeyFits(plan, m, key)
    requires forall id :: id in m.run.waits ==> var n := RunNext(plan, m, e);
      id in n.run.waits && n.run.waits[id].node == m.run.waits[id].node && n.run.waits[id].kind == m.run.waits[id].kind
    ensures SameForKey(m, RunNext(plan, m, e), key)
  {
    hide WaitRecordFits, ControlRecordFits, WaiterFits, KindAllowed, Deliverable, Proposal, CloseWaits, ListsUnknown, Doubted, AnyUnknown, NothingUnresolved;
    ProposalShape(plan.host, m.run, e.key, e.command, e.actor, e.listed, m.now);
  }

  lemma FailSameForKey(plan: Plan, m: Machine, e: RunEvent, key: string)
    requires e.FailRun? && !plan.kindOf(key).OpNode?
    requires RunEnabled(plan, m, e) && PlainKeyFits(plan, m, key)
    requires forall id :: id in m.run.waits ==> var n := RunNext(plan, m, e);
      id in n.run.waits && n.run.waits[id].node == m.run.waits[id].node && n.run.waits[id].kind == m.run.waits[id].kind
    ensures SameForKey(m, RunNext(plan, m, e), key)
  {
    hide WaitRecordFits, ControlRecordFits, WaiterFits, KindAllowed, Deliverable, Proposal, CloseWaits, ListsUnknown, Doubted, AnyUnknown, NothingUnresolved;
    if key in m.run.invocations {
      DoubtSpares(plan, m, key);
    }
  }

  lemma PlainRunSameForKey(plan: Plan, m: Machine, e: RunEvent, key: string)
    requires !e.FailRun? && !e.SettleEffect?
    requires RunEnabled(plan, m, e) && PlainKeyFits(plan, m, key)
    requires forall id :: id in m.run.waits ==> var n := RunNext(plan, m, e);
      id in n.run.waits && n.run.waits[id].node == m.run.waits[id].node && n.run.waits[id].kind == m.run.waits[id].kind
    ensures SameForKey(m, RunNext(plan, m, e), key)
  {
    hide WaitRecordFits, ControlRecordFits, WaiterFits, KindAllowed, Deliverable, Proposal, CloseWaits, ListsUnknown, Doubted, AnyUnknown, NothingUnresolved;
  }

  lemma WaitsPersist(m: Machine, n: Machine)
    requires Lawful(m, n)
    ensures forall id :: id in m.run.waits ==>
      id in n.run.waits && n.run.waits[id].node == m.run.waits[id].node && n.run.waits[id].kind == m.run.waits[id].kind
      && n.run.waits[id].createdAt == m.run.waits[id].createdAt
  {
    hide WaitsConsistent, KeepsConfirmed, TerminalStable;
  }

  /** Doubting a run's effects never touches waits or controls. */
  lemma DoubtSpares(plan: Plan, m: Machine, key: string)
    requires PlainKeyFits(plan, m, key) && key in m.run.invocations && !plan.kindOf(key).OpNode?
    ensures DoubtAll(m.run.invocations)[key] == m.run.invocations[key]
  {
  }

  lemma AllKeysKept(plan: Plan, m: Machine, e: Event)
    requires Inv(plan, m) && Enabled(plan, m, e) && m.run.revision < MAX_REVISION
    ensures AllKeysFit(plan, Next(plan, m, e))
  {
    EveryCommitAccepted(plan, m, e);
    var n := Next(plan, m, e);
    forall key: string
      ensures KeyFits(plan, n, key)
    {
      match e {
        case OpStep(k, step) => OpPlain(plan, m, k, step, key);
        case WaitStep(k, step) => WaitPlain(plan, m, k, step, key);
        case ControlStep(k, step) => ControlPlain(plan, m, k, step, key);
        case RunStep(step) => RunPlain(plan, m, step, key);
      }
      if plan.kindOf(key).OpNode? {
        Projects(plan, m, e, key);
        AnyKeyFits(plan, m, key);
        D.MoveKeeps(plan.kindOf(key).op, SnapOf(m, key), SnapOf(n, key));
      }
      hide Next, Enabled, Inv, Lawful, D.Sound, D.Moves, CellOf, WaitRecordFits, ControlRecordFits, WaiterFits;
    }
  }

  // ---------------------------------------------------------------- reservations precede the present

  lemma WaitsPastKept(plan: Plan, m: Machine, e: Event)
    requires Inv(plan, m) && Enabled(plan, m, e) && m.run.revision < MAX_REVISION
    ensures WaitsPast(Next(plan, m, e).run, Next(plan, m, e).now)
  {
    EveryCommitAccepted(plan, m, e);
    WaitsPersist(m, Next(plan, m, e));
    NewWaitsNow(plan, m, e);
    hide Enabled, Next, Lawful, AllKeysFit, LifeFits, WaitsConsistent;
  }

  lemma NewWaitsNow(plan: Plan, m: Machine, e: Event)
    requires Enabled(plan, m, e)
    ensures m.now <= Next(plan, m, e).now
    ensures forall id :: id in Next(plan, m, e).run.waits && id !in m.run.waits ==> Next(plan, m, e).run.waits[id].createdAt == m.now
  {
    match e
    case OpStep(key, step) => OpWaits(plan, m, key, step);
    case WaitStep(key, step) => WaitKeys(plan, m, key, step);
    case ControlStep(key, step) => ControlWaits(plan, m, key, step);
    case RunStep(step) => RunWaits(plan, m, step);
  }

  lemma OpWaits(plan: Plan, m: Machine, key: string, step: D.CellEvent)
    requires OpEnabled(plan, m, key, step)
    ensures OpNext(plan, m, key, step).now == m.now && OpNext(plan, m, key, step).run.waits == m.run.waits
  {
    hide D.Next, D.Enabled;
  }

  lemma ControlWaits(plan: Plan, m: Machine, key: string, e: ControlEvent)
    requires ControlEnabled(plan, m, key, e)
    ensures ControlNext(plan, m, key, e).now == m.now && ControlNext(plan, m, key, e).run.waits.Keys == m.run.waits.Keys
    ensures ControlNext(plan, m, key, e).(run := m.run, open := m.open) == m
    ensures ControlNext(plan, m, key, e).run.state == m.run.state
    ensures ControlNext(plan, m, key, e).run.unresolvedEffects == m.run.unresolvedEffects
  {
    hide Activation, ClosedWait, FaultState;
  }

  lemma RunWaits(plan: Plan, m: Machine, e: RunEvent)
    requires RunEnabled(plan, m, e)
    ensures m.now <= RunNext(plan, m, e).now && RunNext(plan, m, e).run.waits.Keys == m.run.waits.Keys
  {
    if e.SettleEffect? {
      ProposalShape(plan.host, m.run, e.key, e.command, e.actor, e.listed, m.now);
    }
    hide Proposal, ListsUnknown, Deliverable, NothingUnresolved, DoubtAll, AnyUnknown;
  }

  lemma WaitKeys(plan: Plan, m: Machine, key: string, e: WaitEvent)
    requires WaitEnabled(plan, m, key, e)
    ensures WaitNext(plan, m, key, e).(run := m.run, waiters := m.waiters) == m
    ensures WaitNext(plan, m, key, e).run.state == m.run.state
    ensures WaitNext(plan, m, key, e).run.unresolvedEffects == m.run.unresolvedEffects
    ensures forall id :: id in WaitNext(plan, m, key, e).run.waits && id !in m.run.waits ==> WaitNext(plan, m, key, e).run.waits[id].createdAt == m.now
  {
    hide KindAllowed, StartsConfirmed, WaitOutput, Consumable;
  }

  // ---------------------------------------------------------------- the life of the run

  /** With nothing live and the doors open, no operation is recorded as running. */
  lemma QuietMeansNoneRunning(plan: Plan, m: Machine)
    requires AllKeysFit(plan, m) && m.ready && Quiet(m)
    ensures NoneRunning(m.run.invocations)
  {
    forall k | k in m.run.invocations && m.run.invocations[k].operation.Some?
      ensures m.run.invocations[k].state != InvocationState.Running
    {
      AnyKeyFits(plan, m, k);
      hide D.RecordFits, D.CallsFit, D.UnsafeFits, D.TaskFits;
    }
  }

  /** Outside the body only recovery writes a record, and it never runs on a settled run. */
  lemma OpLife(plan: Plan, m: Machine, key: string, step: D.CellEvent)
    requires Inv(plan, m) && OpEnabled(plan, m, key, step)
    ensures LifeFits(OpNext(plan, m, key, step))
  {
    hide D.Next, D.Enabled, D.Sound, WaitsConsistent, AllKeysFit, NothingHidden, RunMachine.Settled, NothingUnresolved, KeyFits;
    AnyKeyFits(plan, m, key);
    if m.worker != Body {
      RestingCell(plan, m, key, step);
    }
  }

  lemma RestingCell(plan: Plan, m: Machine, key: string, step: D.CellEvent)
    requires m.worker != Body && LifeFits(m) && KeyFits(plan, m, key) && OpEnabled(plan, m, key, step)
    ensures OpNext(plan, m, key, step).tasks == map[]
    ensures IsTerminal(m.run.state) || m.run.state == Blocked || m.ready ==> OpNext(plan, m, key, step).run == m.run
    ensures OpNext(plan, m, key, step).run == m.run.(revision := OpNext(plan, m, key, step).run.revision,
                                                     invocations := OpNext(plan, m, key, step).run.invocations)
  {
    hide D.CallsFit, D.UnsafeFits, D.TaskFits, NamesUnresolved, NothingUnresolved;
    var c := D.Next(plan.kindOf(key).op, CellOf(m, key), ClockOf(m), step);
    assert c.task == None;
    assert WithoutTask(m.tasks, key) == map[];
  }

  lemma LiveLife(plan: Plan, m: Machine, e: Event)
    requires Inv(plan, m) && Enabled(plan, m, e) && (e.WaitStep? || e.ControlStep?)
    ensures LifeFits(Next(plan, m, e))
  {
    LiveMeansUnfinished(plan, m, e);
    if e.WaitStep? {
      WaitKeys(plan, m, e.key, e.wait);
    } else {
      ControlWaits(plan, m, e.key, e.control);
    }
    hide WaitsConsistent, AllKeysFit, NothingHidden, RunMachine.Settled, NothingUnresolved, Quiet, WaitEnabled, ControlEnabled,
      WaitNext, ControlNext;
  }

  lemma WorkerLife(plan: Plan, m: Machine, e: RunEvent)
    requires e.StartRun? || e.SuspendRun? || e.CloseBody? || e.FinishRun? || e.CancelRun? || e.Tick? || e.Crash? || e.BecomeReady?
    requires Inv(plan, m) && RunEnabled(plan, m, e)
    ensures LifeFits(RunNext(plan, m, e))
  {
    hide WaitsConsistent, AllKeysFit, RunMachine.Settled, NothingUnresolved, NoneRunning, NamesUnresolved, CloseWaits;
    if e.FinishRun? {
      QuietMeansNoneRunning(plan, m);
    }
  }

  lemma FailLife(plan: Plan, m: Machine, e: RunEvent)
    requires e.FailRun? && Inv(plan, m) && RunEnabled(plan, m, e)
    ensures LifeFits(RunNext(plan, m, e))
  {
    QuietMeansNoneRunning(plan, m);
    hide WaitsConsistent, AllKeysFit, NamesUnresolved, CloseWaits;
    assert NoneRunning(DoubtAll(m.run.invocations));
    assert forall k :: k in DoubtAll(m.run.invocations) && DoubtAll(m.run.invocations)[k].IsUnresolved() ==>
      DoubtAll(m.run.invocations)[k].state == InvocationState.Unknown;
    if !AnyUnknown(DoubtAll(m.run.invocations)) {
      assert NothingUnresolved(DoubtAll(m.run.invocations));
    }
    hide DoubtAll, NoneRunning, NothingUnresolved, AnyUnknown;
  }

  lemma HostLife(plan: Plan, m: Machine, e: RunEvent)
    requires e.Observe? || e.Deliver?
    requires Inv(plan, m) && RunEnabled(plan, m, e)
    ensures LifeFits(RunNext(plan, m, e))
  {
    hide WaitsConsistent, AllKeysFit, NothingUnresolved, NoneRunning, NamesUnresolved;
    if e.Observe? && IsTerminal(m.run.state) && NamesUnresolved(m.run) {
      AuditSpares(m.run, e.entry);
    }
  }

  lemma AuditSpares(run: RunSnapshot, entry: AuditEntry)
    requires NamesUnresolved(run)
    ensures NamesUnresolved(Proposed(Audited(run, entry)))
  {
    var listed, reason :| ListsUnknown(run.invocations, listed) && run.unresolvedEffects == Listed(run.invocations, listed, reason)
      && forall k :: k in run.invocations ==> (run.invocations[k].IsUnresolved() <==> k in listed);
    var after := Proposed(Audited(run, entry));
    assert ListsUnknown(after.invocations, listed) && after.unresolvedEffects == Listed(after.invocations, listed, reason);
  }

  lemma SettleLife(plan: Plan, m: Machine, e: RunEvent)
    requires e.SettleEffect? && Inv(plan, m) && RunEnabled(plan, m, e)
    ensures LifeFits(RunNext(plan, m, e))
  {
    ProposalShape(plan.host, m.run, e.key, e.command, e.actor, e.listed, m.now);
    var n := RunNext(plan, m, e);
    var ruling := Rule(plan.host, m.run, m.run.invocations[e.key], e.command.resolution, m.now).value;
    SettledKeeps(m.run, e.key, ruling, m.now);
    hide Proposal, AllKeysFit, WaitsConsistent, Rule, RuledRecord;
    if e.command.resolution.StopTracking? {
      RuledNothing(m.run, m.run.invocations[e.key], ruling, m.now);
      assert n.run.invocations == m.run.invocations;
      StoppedNames(m.run, n.run, e.listed, e.command.resolution.reason);
    }
    hide NamesUnresolved, NothingUnresolved, NoneRunning, ListsUnknown, RunMachine.Settled, AnyUnknown;
  }

  lemma SettledKeeps(run: RunSnapshot, key: string, ruling: Ruling, now: nat)
    requires RunMachine.Settled(run) && key in run.invocations && run.invocations[key].state == InvocationState.Unknown
    ensures RunMachine.Settled(run.(invocations := run.invocations[key := RuledRecord(run, run.invocations[key], ruling, now)]))
  {
  }

  lemma StoppedNames(run: RunSnapshot, after: RunSnapshot, listed: seq<string>, reason: string)
    requires RunMachine.Settled(run) && after.invocations == run.invocations && ListsUnknown(run.invocations, listed)
    requires after.unresolvedEffects == Listed(run.invocations, listed, reason)
    ensures NamesUnresolved(after)
  {
    forall k | k in run.invocations
      ensures run.invocations[k].IsUnresolved() <==> k in listed
    {
    }
  }

  /** Every event keeps the whole invariant. */
  lemma InvKept(plan: Plan, m: Machine, e: Event)
    requires Inv(plan, m) && Enabled(plan, m, e) && m.run.revision < MAX_REVISION
    ensures Inv(plan, Next(plan, m, e)) && Lawful(m, Next(plan, m, e))
  {
    EveryCommitAccepted(plan, m, e);
    AllKeysKept(plan, m, e);
    WaitsPastKept(plan, m, e);
    assert LifeFits(Next(plan, m, e)) by {
      match e {
        case OpStep(key, step) => OpLife(plan, m, key, step);
        case RunStep(step) =>
          if step.FailRun? {
            FailLife(plan, m, step);
          } else if step.SettleEffect? {
            SettleLife(plan, m, step);
          } else if step.Observe? || step.Deliver? {
            HostLife(plan, m, step);
          } else {
            WorkerLife(plan, m, step);
          }
        case _ => LiveLife(plan, m, e);
      }
    }
    LawfulConsistent(m, Next(plan, m, e));
    hide Next, Enabled, Lawful, AllKeysFit, LifeFits, WaitsPast, WaitsConsistent;
  }

  lemma LawfulConsistent(m: Machine, n: Machine)
    requires Lawful(m, n) && WaitsConsistent(m.run)
    ensures WaitsConsistent(n.run)
  {
    hide WaitsConsistent, KeepsConfirmed, TerminalStable;
  }

  lemma InitialHolds(plan: Plan, m: Machine)
    requires Initial(plan, m)
    ensures Inv(plan, m)
  {
    forall key: string
      ensures KeyFits(plan, m, key)
    {
      assert plan.kindOf(key).OpNode? ==> plan.kindOf(key).op.retry.maxAttempts >= 1;
    }
  }
}
