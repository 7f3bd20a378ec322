/**
 How a run ends, over whole executions: whose value a result is, when a run is cancelled, failed or blocked
 instead, and that no attempt of any operation is made before it is due.
 */
module RunOutcome {
  import opened Wrappers
  import opened Json
  import opened Protocol
  import opened Checkpoint
  import opened WaitHistory
  import opened RunEdits
  import D = Dispatch
  import DispatchLaws
  import opened Reconciliation
  import opened RunMachine
  import opened RunSafety
  import opened RunInvariant
  import opened RunTheorems

  // ---------------------------------------------------------------- no attempt is early

  /** The record of an operation counts one more attempt than a moment before. */
  predicate Attempts(a: RunSnapshot, b: RunSnapshot, key: string) {
    && key in b.invocations && b.invocations[key].state == InvocationState.Running
    && b.invocations[key].attempts == (if key in a.invocations then a.invocations[key].attempts + 1 else 1)
  }

  /**
   In every execution of a run, an attempt of an operation begins before the run's deadline, with no cancellation
   recorded and within its limit; a scheduled retry is dispatched only at or after its due time.
   */
  lemma NoAttemptIsEarly(plan: Plan, t: seq<Machine>, i: nat, key: string)
    requires Execution(plan, t) && 0 < i < |t| && plan.kindOf(key).OpNode? && Attempts(t[i - 1].run, t[i].run, key)
    ensures t[i].ready && !t[i].run.cancelRequested && t[i].now < t[i].run.deadlineAt
    ensures key in t[i - 1].run.invocations ==>
      var r := t[i - 1].run.invocations[key];
      && r.attempts < plan.kindOf(key).op.retry.maxAttempts
      && (r.state == RetryScheduled ==> r.nextAttemptAt.Some? && r.nextAttemptAt.value <= t[i].now)
      && (r.state == RetryScheduled || r.state == InvocationState.Pending)
  {
    hide Execution;
    var h := seq(|t|, j requires 0 <= j < |t| => SnapOf(t[j], key));
    ExecutionIsDispatchHistory(plan, t, key);
    assert h[i] == SnapOf(t[i], key) && h[i - 1] == SnapOf(t[i - 1], key);
    DispatchLaws.RetryWaits(plan.kindOf(key).op, h, i);
    hide D.History;
  }

  // ---------------------------------------------------------------- every effect is accounted for

  /** The run names this invocation and attempt among the effects it gave up. */
  predicate Named(run: RunSnapshot, r: InvocationRecord) {
    exists i :: 0 <= i < |run.unresolvedEffects| && NamesAttempt(run.unresolvedEffects[i], r)
  }

  predicate NamesAttempt(e: UnresolvedEffect, r: InvocationRecord) {
    e.invocationId == r.id && e.attemptId == r.attemptId && e.effectKey == r.effectKey
  }

  lemma UnresolvedIsNamed(run: RunSnapshot, key: string)
    requires NamesUnresolved(run) && key in run.invocations && run.invocations[key].IsUnresolved()
    ensures Named(run, run.invocations[key])
  {
    var listed, reason :| ListsUnknown(run.invocations, listed) && run.unresolvedEffects == Listed(run.invocations, listed, reason)
      && forall k :: k in run.invocations ==> (run.invocations[k].IsUnresolved() <==> k in listed);
    var i :| 0 <= i < |listed| && listed[i] == key;
    assert NamesAttempt(run.unresolvedEffects[i], run.invocations[key]);
  }

  /**
   Every effect of a finished run is accounted for: whatever a write of the plan did to the outside world, or may still
   do, its record is a confirmed result, or the run names that very attempt among its unresolved effects.
   */
  lemma EffectsAreAccountedFor(plan: Plan, t: seq<Machine>, i: nat, key: string)
    requires Execution(plan, t) && i < |t| && IsTerminal(t[i].run.state)
    requires plan.kindOf(key).OpNode? && plan.kindOf(key).op.IsWrite()
    requires CellOf(t[i], key).world.effects != [] || CellOf(t[i], key).world.flying != {}
    ensures key in t[i].run.invocations
    ensures t[i].run.invocations[key].state == InvocationState.Succeeded || Named(t[i].run, t[i].run.invocations[key])
  {
    hide Execution, NamesUnresolved;
    NoHiddenEffect(plan, t, i);
    EffectsShow(plan, t, i, key);
    Operates(plan, t, i, key);
    if t[i].run.invocations[key].IsUnresolved() {
      UnresolvedIsNamed(t[i].run, key);
    }
  }

  lemma Operates(plan: Plan, t: seq<Machine>, i: nat, key: string)
    requires Execution(plan, t) && i < |t| && plan.kindOf(key).OpNode? && key in t[i].run.invocations
    ensures t[i].run.invocations[key].operation.Some?
  {
    Reachable(plan, t, i);
    AnyKeyFits(plan, t[i], key);
    OpIsNoWait(plan, t[i], key);
    hide Execution, Inv;
  }

  /** At every moment of a run, what a write did shows in its record. */
  lemma EffectsShow(plan: Plan, t: seq<Machine>, i: nat, key: string)
    requires Execution(plan, t) && i < |t| && plan.kindOf(key).OpNode? && plan.kindOf(key).op.IsWrite()
    requires CellOf(t[i], key).world.effects != [] || CellOf(t[i], key).world.flying != {}
    ensures key in t[i].run.invocations
    ensures var r := t[i].run.invocations[key];
      r.state == InvocationState.Succeeded || r.state == InvocationState.Running || r.IsUnresolved()
  {
    hide Execution;
    var h := seq(|t|, j requires 0 <= j < |t| => SnapOf(t[j], key));
    ExecutionIsDispatchHistory(plan, t, key);
    assert h[i] == SnapOf(t[i], key);
    DispatchLaws.NothingBehindTheRecord(plan.kindOf(key).op, h, i);
    hide D.History;
  }

  // ---------------------------------------------------------------- the outcome of a run

  /** A result belongs to success alone, an end to a finished run, and cancellation never ends in success. */
  predicate OutcomeFits(run: RunSnapshot) {
    && (run.output.Some? <==> run.state == RunState.Succeeded)
    && (run.finishedAt.Some? <==> IsTerminal(run.state))
    && (run.state == RunState.Succeeded ==> run.error == None && !run.cancelRequested && run.finishedAt.value < run.deadlineAt)
    && (run.state == RunState.Failed || run.state == RunState.Cancelled ==> run.error.Some?)
    && (run.state == Blocked ==> run.error == Some(Plain("effect.unknown")))
    && (run.state == Accepted || run.state == RunState.Running || run.state == Waiting ==>
          run.error == None && !run.cancelRequested)
    && (run.state == Cancelling ==> run.cancelRequested)
  }

  /** None of the fields that tell how a run ended differ. */
  predicate SameOutcome(a: RunSnapshot, b: RunSnapshot) {
    && b.state == a.state && b.output == a.output && b.error == a.error && b.finishedAt == a.finishedAt
    && b.cancelRequested == a.cancelRequested && b.deadlineAt == a.deadlineAt
  }

  /** Nodes, waits and controls never touch the outcome. */
  lemma StepsSpareOutcome(plan: Plan, m: Machine, e: Event)
    requires Enabled(plan, m, e) && !e.RunStep?
    ensures SameOutcome(m.run, Next(plan, m, e).run)
  {
    match e
    case OpStep(key, step) => OpSparesOutcome(plan, m, key, step);
    case WaitStep(key, step) => WaitSparesOutcome(plan, m, key, step);
    case ControlStep(key, step) => ControlSparesOutcome(plan, m, key, step);
  }

  lemma OpSparesOutcome(plan: Plan, m: Machine, key: string, step: D.CellEvent)
    requires OpEnabled(plan, m, key, step)
    ensures SameOutcome(m.run, OpNext(plan, m, key, step).run)
  {
    hide D.Next, D.Enabled;
  }

  lemma WaitSparesOutcome(plan: Plan, m: Machine, key: string, e: WaitEvent)
    requires WaitEnabled(plan, m, key, e)
    ensures SameOutcome(m.run, WaitNext(plan, m, key, e).run)
  {
    hide SameOutcome, Reserve, Consume, Expire, AfterStart, AfterFault;
    SelfOutcome(m.run);
    if Waits(m, key) {
      WaitEndsSpare(plan, m, key, e);
    }
    if e.ReserveWait? {
      var w := m.waiters[key];
      ReserveSpares(m.run, w.id, key, e.recordId, w.kind, e.duration, w.input, m.now);
    }
  }

  lemma SelfOutcome(run: RunSnapshot)
    ensures SameOutcome(run, run)
  {
  }

  lemma ReserveSpares(run: RunSnapshot, id: string, key: string, recordId: string, kind: WaitKind, duration: nat, input: Value, now: nat)
    ensures SameOutcome(run, Proposed(Reserve(run, id, key, recordId, kind, duration, input, now)))
  {
  }

  lemma WaitEndsSpare(plan: Plan, m: Machine, key: string, e: WaitEvent)
    requires Waits(m, key) && WaitEnabled(plan, m, key, e) && !e.ReserveWait?
    ensures SameOutcome(m.run, WaitNext(plan, m, key, e).run)
  {
    hide KindAllowed, StartsConfirmed, WaitOutput, Consumable, FaultState, ClosedWait;
  }

  lemma ControlSparesOutcome(plan: Plan, m: Machine, key: string, e: ControlEvent)
    requires ControlEnabled(plan, m, key, e)
    ensures SameOutcome(m.run, ControlNext(plan, m, key, e).run)
  {
    hide Activation, ClosedWait, FaultState;
  }

  lemma RunKeepsOutcome(plan: Plan, m: Machine, e: RunEvent)
    requires Inv(plan, m) && RunEnabled(plan, m, e) && OutcomeFits(m.run)
    ensures OutcomeFits(RunNext(plan, m, e).run)
  {
    if e.SettleEffect? {
      SettleKeepsOutcome(plan, m, e);
    } else if e.FinishRun? || e.FailRun? {
      EndKeepsOutcome(plan, m, e);
    } else {
      hide WaitsConsistent, AllKeysFit, NothingHidden, RunMachine.Settled, NothingUnresolved, Proposal, Deliverable, ListsUnknown,
        CloseWaits, FinishBody, FinishError;
    }
  }

  lemma EndKeepsOutcome(plan: Plan, m: Machine, e: RunEvent)
    requires e.FinishRun? || e.FailRun?
    requires Inv(plan, m) && RunEnabled(plan, m, e) && OutcomeFits(m.run)
    ensures OutcomeFits(RunNext(plan, m, e).run)
  {
    hide WaitsConsistent, AllKeysFit, NothingHidden, RunMachine.Settled, NothingUnresolved, CloseWaits, DoubtAll, AnyUnknown;
  }

  lemma SettleKeepsOutcome(plan: Plan, m: Machine, e: RunEvent)
    requires e.SettleEffect? && RunEnabled(plan, m, e) && OutcomeFits(m.run)
    ensures OutcomeFits(RunNext(plan, m, e).run)
  {
    hide Proposal, Rule, RuledAs, Acceptable, AnyUnknown, CloseWaits, ListsUnknown, DeniesEffect, Listed;
    ProposalMeans(plan.host, m.run, e.key, e.command, e.actor, e.listed, m.now);
    if e.command.resolution.StopTracking? {
      StopAcceptable(plan.host, m.run.invocations[e.key], e.command.resolution);
      StoppedMeans(plan.host, m.run, e.key, e.command, e.actor, e.listed, m.now);
    }
  }

  lemma StopAcceptable(host: Host, record: InvocationRecord, resolution: EffectResolution)
    requires resolution.StopTracking? && Acceptable(host, record, resolution)
    ensures !host.blank(resolution.reason)
  {
  }

  lemma StepKeepsOutcome(plan: Plan, m: Machine, n: Machine)
    requires Inv(plan, m) && Steps(plan, m, n) && OutcomeFits(m.run)
    ensures OutcomeFits(n.run)
  {
    hide Inv, RunEnabled, RunNext, OpEnabled, OpNext, WaitEnabled, WaitNext, ControlEnabled, ControlNext;
    var e :| Enabled(plan, m, e) && n == Next(plan, m, e);
    if e.RunStep? {
      RunKeepsOutcome(plan, m, e.event);
    } else {
      StepsSpareOutcome(plan, m, e);
    }
  }

  /** Every snapshot of every execution has a lawful outcome. */
  lemma {:induction false} OutcomeLawful(plan: Plan, t: seq<Machine>, i: nat)
    requires Execution(plan, t) && i < |t|
    ensures OutcomeFits(t[i].run)
    decreases i
  {
    hide Inv, Steps;
    if i > 0 {
      OutcomeLawful(plan, t, i - 1);
      Reachable(plan, t, i - 1);
      assert Steps(plan, t[i - 1], t[i]);
      StepKeepsOutcome(plan, t[i - 1], t[i]);
    }
  }

  /** The moment a run succeeded: its closing body's value is the result, then and ever after. */
  ghost predicate SucceedsAt(t: seq<Machine>, k: nat) {
    && k + 1 < |t| && t[k].worker.Closing? && !IsTerminal(t[k].run.state)
    && !t[k].run.cancelRequested && t[k].now < t[k].run.deadlineAt
    && forall j :: k < j < |t| ==> Holds(t[j].run, t[k].worker.output, t[k].now)
  }

  predicate Holds(run: RunSnapshot, result: Value, at: nat) {
    run.state == RunState.Succeeded && run.output == Some(result) && run.error == None && run.finishedAt == Some(at)
  }

  lemma OnlyClosingSucceeds(plan: Plan, m: Machine, n: Machine)
    requires Inv(plan, m) && Steps(plan, m, n) && m.run.state != RunState.Succeeded && n.run.state == RunState.Succeeded
    ensures m.worker.Closing? && !IsTerminal(m.run.state) && !m.run.cancelRequested && m.now < m.run.deadlineAt
    ensures Holds(n.run, m.worker.output, m.now)
  {
    hide Inv, RunEnabled, RunNext, OpEnabled, OpNext, WaitEnabled, WaitNext, ControlEnabled, ControlNext;
    var e :| Enabled(plan, m, e) && n == Next(plan, m, e);
    if e.RunStep? {
      OnlyFinishSucceeds(plan, m, e.event);
    } else {
      StepsSpareOutcome(plan, m, e);
    }
  }

  lemma OnlyFinishSucceeds(plan: Plan, m: Machine, e: RunEvent)
    requires Inv(plan, m) && RunEnabled(plan, m, e)
    requires m.run.state != RunState.Succeeded && RunNext(plan, m, e).run.state == RunState.Succeeded
    ensures m.worker.Closing? && !IsTerminal(m.run.state) && !m.run.cancelRequested && m.now < m.run.deadlineAt
    ensures Holds(RunNext(plan, m, e).run, m.worker.output, m.now)
  {
    hide WaitsConsistent, AllKeysFit, NothingHidden, RunMachine.Settled, NothingUnresolved, Deliverable, ListsUnknown,
      CloseWaits, DoubtAll, AnyUnknown, Proposal, DeniesEffect;
    if e.SettleEffect? {
      SettleSucceedsNot(plan, m, e);
    }
  }

  lemma SettleSucceedsNot(plan: Plan, m: Machine, e: RunEvent)
    requires e.SettleEffect? && RunEnabled(plan, m, e)
    ensures RunNext(plan, m, e).run.state != RunState.Succeeded
  {
    hide Proposal, ListsUnknown, DeniesEffect, AnyUnknown;
    ProposalShape(plan.host, m.run, e.key, e.command, e.actor, e.listed, m.now);
  }

  /**
   The result of a succeeded run is the value its body returned, whatever else happened: it was committed by the
   closing commit, before the deadline and without cancellation, and every later snapshot keeps it.
   */
  lemma {:induction false} ResultIsTheBodys(plan: Plan, t: seq<Machine>, i: nat)
    requires Execution(plan, t) && i < |t| && t[i].run.state == RunState.Succeeded
    ensures exists k :: 0 <= k < i && SucceedsAt(t, k)
    decreases i
  {
    hide Inv, Steps, Preserved;
    assert i > 0;
    if t[i - 1].run.state == RunState.Succeeded {
      ResultIsTheBodys(plan, t, i - 1);
    } else {
      Reachable(plan, t, i - 1);
      assert Steps(plan, t[i - 1], t[i]);
      OnlyClosingSucceeds(plan, t[i - 1], t[i]);
      forall j | i <= j < |t|
        ensures Holds(t[j].run, t[i - 1].worker.output, t[i - 1].now)
      {
        CommitsPreserve(plan, t, i, j);
        ResultKept(t[i].run, t[j].run);
      }
      assert SucceedsAt(t, i - 1);
    }
  }

  lemma ResultKept(a: RunSnapshot, b: RunSnapshot)
    requires Preserved(a, b) && IsTerminal(a.state)
    ensures SameOutcome(a, b)
  {
    hide KeepsConfirmed;
  }

  /** Cancellation wins: once it is recorded on an unfinished run, that run never succeeds. */
  lemma CancelledNeverSucceeds(plan: Plan, t: seq<Machine>, i: nat, j: nat)
    requires Execution(plan, t) && i <= j < |t| && t[i].run.cancelRequested
    ensures t[j].run.state != RunState.Succeeded && t[j].run.output == None
    ensures t[j].run.state == Cancelling || t[j].run.state == Blocked || t[j].run.state == RunState.Failed
         || t[j].run.state == RunState.Cancelled
  {
    hide Execution;
    CommitsPreserve(plan, t, i, j);
    OutcomeLawful(plan, t, j);
  }

  /** Started, closed and finished with this value. */
  function Started(m: Machine): Machine {
    m.(run := m.run.(revision := 1, state := RunState.Running), worker := Body)
  }

  function Finished(m: Machine, v: Value): Machine {
    m.(run := m.run.(revision := 2, state := RunState.Succeeded, output := Some(v), error := None, finishedAt := Some(m.now)),
       worker := Off)
  }

  /** The guarantees are not empty: from every accepted run, before its deadline, a body that returns a value succeeds with it. */
  lemma SuccessIsReachable(plan: Plan, m: Machine, v: Value)
    requires Initial(plan, m) && m.now < m.run.deadlineAt
    ensures Execution(plan, [m, Started(m), Started(m).(worker := Closing(v)), Finished(m, v)])
  {
    hide PlanFits, DistinctArtifacts;
    var t := [m, Started(m), Started(m).(worker := Closing(v)), Finished(m, v)];
    assert Steps(plan, t[0], t[1]) by {
      var e := RunStep(StartRun);
      assert Enabled(plan, t[0], e) && t[1] == Next(plan, t[0], e);
    }
    assert Steps(plan, t[1], t[2]) by {
      var e := RunStep(CloseBody(v));
      assert Enabled(plan, t[1], e) && t[2] == Next(plan, t[1], e);
    }
    assert Steps(plan, t[2], t[3]) by {
      var e := RunStep(FinishRun(false, false));
      assert CloseWaits(m.run.waits) == m.run.waits;
      assert Enabled(plan, t[2], e) && t[3] == Next(plan, t[2], e);
    }
    hide Steps, Initial;
    forall i | 0 < i < |t|
      ensures Steps(plan, t[i - 1], t[i])
    {
      assert i == 1 || i == 2 || i == 3;
    }
  }
}
