/**
 The edits the engine commits to a run, and the proof that each of them is a successor
 every store accepts.
 */
module RunEdits {
  import opened Wrappers
  import opened Text
  import opened Json
  import opened Protocol
  import opened Checkpoint

  /** An edited snapshot becomes a proposal for the next revision. */
  function Proposed(run: RunSnapshot): RunSnapshot {
    run.(revision := run.revision + 1)
  }

  predicate Accepts(run: RunSnapshot, edited: RunSnapshot) {
    ValidSuccessor(run, run.revision, Proposed(edited))
  }

  // ---------------------------------------------------------------- edits that settle no wait

  function ClosedWait(w: WaitRecord): WaitRecord {
    if w.state == Open then w.(state := Closed) else w
  }

  function CloseWaits(waits: map<string, WaitRecord>): map<string, WaitRecord> {
    map id | id in waits :: ClosedWait(waits[id])
  }

  /** A record edit that keeps what is confirmed and never touches a wait's bond or confirms it. */
  predicate QuietRecord(a: InvocationRecord, b: InvocationRecord) {
    a == b
    || (&& a.state != InvocationState.Succeeded
        && (if a.IsWait() then b.control == a.control && b.state != InvocationState.Succeeded else !b.IsWait()))
  }

  /** Edits of run fields and records that at most close open waits. */
  ghost predicate QuietEdit(run: RunSnapshot, next: RunSnapshot) {
    && SameIdentity(run, next) && next.revision == run.revision
    && (run.cancelRequested ==> next.cancelRequested) && run.audit <= next.audit
    && next.waits.Keys == run.waits.Keys
    && (forall id :: id in run.waits ==> next.waits[id] == run.waits[id] || next.waits[id] == ClosedWait(run.waits[id]))
    && (IsTerminal(next.state) ==> forall id :: id in next.waits ==> next.waits[id].state != Open)
    && next.invocations.Keys == run.invocations.Keys
    && (forall k :: k in run.invocations ==> QuietRecord(run.invocations[k], next.invocations[k]))
  }

  lemma DeliveryKept(run: RunSnapshot, next: RunSnapshot, w: WaitRecord, d: SignalDelivery)
    requires w.kind.Signal? && next.id == run.id && next.scope == run.scope
    ensures DeliveryFits(run, w, d) ==> DeliveryFits(next, w, d) && DeliveryFits(next, ClosedWait(w), d)
  {
  }

  lemma QuietWait(run: RunSnapshot, next: RunSnapshot, id: string)
    requires WaitsConsistent(run) && QuietEdit(run, next) && id in run.waits
    ensures WaitShape(next, id) && WaitKindFits(next, next.waits[id]) && WaitSettled(next, id)
    ensures WaitContinues(run.waits[id], next.waits[id]) && TimerOutput(run, next, id)
  {
    hide WaitsConsistent, Bytes, DeliveryFits;
    var w := run.waits[id];
    WaitBefore(run, id);
    if w.kind.Signal? && w.delivery.Some? {
      DeliveryKept(run, next, w, w.delivery.value);
    }
    assert QuietRecord(run.invocations[w.node], next.invocations[w.node]);
    if w.kind.Signal? && w.kind.startNode.Some? && w.startConfirmed {
      var start := w.kind.startNode.value;
      assert NodeSucceeded(run, start) && QuietRecord(run.invocations[start], next.invocations[start]);
    }
  }

  lemma QuietBond(before: InvocationRecord, after: InvocationRecord)
    requires QuietRecord(before, after)
    ensures after.IsWait() ==> before.IsWait() && after.control == before.control
    ensures before.state == InvocationState.Succeeded ==> after == before
  {
  }

  /** Every quiet edit of a consistent unfinished run is accepted. */
  lemma QuietAccepted(run: RunSnapshot, next: RunSnapshot)
    requires WaitsConsistent(run) && !IsTerminal(run.state) && run.revision < MAX_REVISION && QuietEdit(run, next)
    ensures Accepts(run, next)
  {
    hide WaitShape, WaitKindFits, WaitSettled, WaitContinues, TimerOutput, QuietRecord;
    var p := Proposed(next);
    forall id | id in p.waits
      ensures WaitShape(p, id) && WaitKindFits(p, p.waits[id]) && WaitSettled(p, id)
      ensures p.waits[id].node in p.invocations
      ensures WaitContinues(run.waits[id], p.waits[id]) && TimerOutput(run, p, id)
    {
      QuietWait(run, next, id);
      WaitIgnoresRevision(run, next, p, id);
    }
    forall key | key in p.invocations && p.invocations[key].IsWait()
      ensures p.invocations[key].control.value.id in p.waits && p.waits[p.invocations[key].control.value.id].node == key
    {
      QuietBond(run.invocations[key], next.invocations[key]);
    }
    forall key | NodeSucceeded(run, key)
      ensures key in p.invocations && p.invocations[key] == run.invocations[key]
    {
      QuietBond(run.invocations[key], next.invocations[key]);
    }
  }

  lemma WaitIgnoresRevision(run: RunSnapshot, a: RunSnapshot, b: RunSnapshot, id: string)
    requires b == a.(revision := b.revision) && id in a.waits
    requires WaitShape(a, id) && WaitKindFits(a, a.waits[id]) && WaitSettled(a, id) && TimerOutput(run, a, id)
    ensures b.waits[id].node in b.invocations
    ensures WaitShape(b, id) && WaitKindFits(b, b.waits[id]) && WaitSettled(b, id) && TimerOutput(run, b, id)
  {
    var w := a.waits[id];
    if w.kind.Signal? && w.delivery.Some? {
      assert DeliveryFits(b, w, w.delivery.value);
      assert SignalOutput(a, w) == SignalOutput(b, w);
    }
    if w.kind.Signal? && w.kind.startNode.Some? && w.startConfirmed {
      assert NodeSucceeded(a, w.kind.startNode.value);
    }
  }

  // ---------------------------------------------------------------- worker and run edits

  function StartWorker(run: RunSnapshot): RunSnapshot {
    if run.cancelRequested then run else run.(state := RunState.Running)
  }

  function Suspend(run: RunSnapshot): RunSnapshot {
    if run.cancelRequested then run else run.(state := Waiting)
  }

  function Cancel(run: RunSnapshot): RunSnapshot {
    run.(cancelRequested := true, state := Cancelling, waits := CloseWaits(run.waits))
  }

  function UnknownError(): ForgeError { Plain("effect.unknown") }

  /** A certainty other than non-application is never settled by the end of a run. */
  function Doubted(r: InvocationRecord): InvocationRecord {
    if r.state != InvocationState.Succeeded && r.certainty != NotApplied then r.(state := InvocationState.Unknown) else r
  }

  function DoubtAll(nodes: map<string, InvocationRecord>): map<string, InvocationRecord> {
    map k | k in nodes :: Doubted(nodes[k])
  }

  predicate AnyUnknown(nodes: map<string, InvocationRecord>) {
    exists k :: k in nodes && nodes[k].state == InvocationState.Unknown
  }

  function FinishError(run: RunSnapshot, now: nat, error: ForgeError, cancelled: bool): RunSnapshot {
    var nodes := DoubtAll(run.invocations);
    if AnyUnknown(nodes) then
      run.(invocations := nodes, state := Blocked, error := Some(UnknownError()), finishedAt := None)
    else
      run.(invocations := nodes, state := if cancelled then RunState.Cancelled else RunState.Failed, error := Some(error),
           finishedAt := Some(now), waits := CloseWaits(run.waits))
  }

  /** The closing commit after the body returned: cancellation, deadline and budget outrank success. */
  function FinishBody(run: RunSnapshot, now: nat, output: Value, cancelled: bool, overBudget: bool): RunSnapshot {
    var ended :=
      if run.cancelRequested || cancelled then run.(state := RunState.Cancelled, error := Some(Plain("operation.cancelled")))
      else if now >= run.deadlineAt then run.(state := RunState.Failed, error := Some(Plain("operation.timeout")))
      else if overBudget then run.(state := RunState.Failed, error := Some(Plain("resource.limit")))
      else run.(output := Some(output), error := None, state := RunState.Succeeded);
    ended.(finishedAt := Some(now), waits := CloseWaits(run.waits))
  }

  lemma WorkerEditsAccepted(run: RunSnapshot, now: nat, output: Value, cancelled: bool, overBudget: bool)
    requires WaitsConsistent(run) && !IsTerminal(run.state) && run.revision < MAX_REVISION
    ensures Accepts(run, StartWorker(run)) && Accepts(run, Suspend(run)) && Accepts(run, Cancel(run))
    ensures Accepts(run, FinishBody(run, now, output, cancelled, overBudget))
  {
    hide WaitsConsistent, Accepts, StartWorker, Suspend, Cancel, FinishBody;
    StartAccepted(run);
    CancelAccepted(run);
    FinishBodyAccepted(run, now, output, cancelled, overBudget);
  }

  lemma StartAccepted(run: RunSnapshot)
    requires WaitsConsistent(run) && !IsTerminal(run.state) && run.revision < MAX_REVISION
    ensures Accepts(run, StartWorker(run)) && Accepts(run, Suspend(run))
  {
    hide WaitsConsistent, Accepts;
    FieldEditAccepted(run, StartWorker(run));
    FieldEditAccepted(run, Suspend(run));
  }

  lemma CancelAccepted(run: RunSnapshot)
    requires WaitsConsistent(run) && !IsTerminal(run.state) && run.revision < MAX_REVISION
    ensures Accepts(run, Cancel(run))
  {
    hide WaitsConsistent, Accepts;
    FieldEditAccepted(run, Cancel(run));
  }

  lemma FinishBodyAccepted(run: RunSnapshot, now: nat, output: Value, cancelled: bool, overBudget: bool)
    requires WaitsConsistent(run) && !IsTerminal(run.state) && run.revision < MAX_REVISION
    ensures Accepts(run, FinishBody(run, now, output, cancelled, overBudget))
  {
    hide WaitsConsistent, Accepts, CloseWaits;
    FieldEditAccepted(run, FinishBody(run, now, output, cancelled, overBudget));
  }

  /** Run fields change, records do not, and open waits survive only in an unfinished run. */
  lemma FieldEditAccepted(run: RunSnapshot, next: RunSnapshot)
    requires WaitsConsistent(run) && !IsTerminal(run.state) && run.revision < MAX_REVISION
    requires next == run.(waits := next.waits, state := next.state, output := next.output, error := next.error,
                          finishedAt := next.finishedAt, cancelRequested := next.cancelRequested)
    requires run.cancelRequested ==> next.cancelRequested
    requires next.waits == CloseWaits(run.waits) || (next.waits == run.waits && !IsTerminal(next.state))
    ensures Accepts(run, next)
  {
    hide WaitsConsistent, Accepts;
    QuietAccepted(run, next);
  }

  lemma FinishErrorAccepted(run: RunSnapshot, now: nat, error: ForgeError, cancelled: bool)
    requires WaitsConsistent(run) && !IsTerminal(run.state) && run.revision < MAX_REVISION
    ensures Accepts(run, FinishError(run, now, error, cancelled))
  {
    hide WaitsConsistent, Accepts, AnyUnknown;
    QuietAccepted(run, FinishError(run, now, error, cancelled));
  }

  // ---------------------------------------------------------------- group stop and wait faults

  /** Persist a stopped group's frame and close every open reservation below it. */
  function StopGroup(run: RunSnapshot, key: string, frame: ControlFrame): RunSnapshot
    requires key in run.invocations
  {
    var prefix := key + "/";
    run.(invocations := run.invocations[key := run.invocations[key].(control := Some(frame))],
         waits := map id | id in run.waits ::
           if prefix <= run.waits[id].node then ClosedWait(run.waits[id]) else run.waits[id])
  }

  function FaultState(error: ForgeError): InvocationState {
    if error.Code() == "effect.unknown" then InvocationState.Pending
    else if error.Code() == "operation.cancelled" then InvocationState.Cancelled
    else InvocationState.Failed
  }

  /** A wait activation that ended in an execution error; a consumed wait is left alone. */
  function FaultWait(run: RunSnapshot, id: string, error: ForgeError): RunSnapshot
    requires id in run.waits && run.waits[id].node in run.invocations
  {
    var key := run.waits[id].node;
    if run.waits[id].state == Consumed then run
    else run.(waits := if error.Code() != "effect.unknown" then run.waits[id := ClosedWait(run.waits[id])] else run.waits,
              invocations := run.invocations[key := run.invocations[key].(state := FaultState(error), error := Some(error))])
  }

  lemma StopGroupAccepted(run: RunSnapshot, key: string, frame: ControlFrame)
    requires WaitsConsistent(run) && !IsTerminal(run.state) && run.revision < MAX_REVISION
    requires key in run.invocations && !run.invocations[key].IsWait() && !frame.Wait?
    requires run.invocations[key].state != InvocationState.Succeeded
    ensures Accepts(run, StopGroup(run, key, frame))
  {
    hide WaitsConsistent, Accepts;
    QuietAccepted(run, StopGroup(run, key, frame));
  }

  lemma FaultWaitAccepted(run: RunSnapshot, id: string, error: ForgeError)
    requires WaitsConsistent(run) && !IsTerminal(run.state) && run.revision < MAX_REVISION
    requires id in run.waits && run.waits[id].node in run.invocations && run.waits[id].state != Consumed
    ensures Accepts(run, FaultWait(run, id, error))
  {
    WaitBefore(run, id);
    hide WaitsConsistent, Accepts, WaitKindFits;
    QuietAccepted(run, FaultWait(run, id, error));
  }

  // ---------------------------------------------------------------- the life of a wait

  predicate StartsConfirmed(kind: WaitKind) {
    kind.Timer? || kind.startNode.None?
  }

  predicate KindAllowed(kind: WaitKind) {
    kind.Signal? ==> kind.correlation != "" && Bytes(kind.correlation) <= 256
  }

  function Min(a: nat, b: nat): nat {
    if a < b then a else b
  }

  function WaitActivation(recordId: string, id: string, input: Value): InvocationRecord {
    InvocationRecord(recordId, "", 0, InvocationState.Pending, input, None, None, None, Null, None, DEFAULT_RETRY, None,
                     NotApplied, Some(ControlFrame.Wait(id)))
  }

  function Reserve(run: RunSnapshot, id: string, key: string, recordId: string, kind: WaitKind, duration: nat, input: Value,
                   now: nat): RunSnapshot
  {
    run.(waits := run.waits[id := WaitRecord(id, key, kind, now, Min(now + duration, run.deadlineAt), StartsConfirmed(kind),
                                             Open, None)],
         invocations := run.invocations[key := WaitActivation(recordId, id, input)])
  }

  function ConfirmStart(run: RunSnapshot, id: string): RunSnapshot
    requires id in run.waits
  {
    run.(waits := run.waits[id := run.waits[id].(startConfirmed := true)])
  }

  /** The output a wait is consumed with. */
  function WaitOutput(run: RunSnapshot, id: string, input: Value): Value
    requires id in run.waits && (run.waits[id].kind.Signal? ==> run.waits[id].delivery.Some?)
  {
    var w := run.waits[id];
    if w.kind.Timer? then input else SignalOutput(run, w)
  }

  function Consume(run: RunSnapshot, id: string, input: Value): RunSnapshot
    requires id in run.waits && (run.waits[id].kind.Signal? ==> run.waits[id].delivery.Some?)
    requires run.waits[id].node in run.invocations
  {
    var key := run.waits[id].node;
    run.(waits := run.waits[id := run.waits[id].(state := Consumed)],
         invocations := run.invocations[key := run.invocations[key].(state := InvocationState.Succeeded,
           output := Some(WaitOutput(run, id, input)), input := Null, error := None)])
  }

  function Expire(run: RunSnapshot, id: string): RunSnapshot
    requires id in run.waits
  {
    run.(waits := run.waits[id := run.waits[id].(state := Expired)])
  }

  function Deliver(run: RunSnapshot, id: string, delivery: SignalDelivery): RunSnapshot
    requires id in run.waits
  {
    run.(waits := run.waits[id := run.waits[id].(delivery := Some(delivery))],
         state := if run.state == Waiting then RunState.Running else run.state)
  }

  /** One wait and its own record change; every other wait sees the same records it relies on. */
  lemma OtherWaits(run: RunSnapshot, next: RunSnapshot, id: string, key: string)
    requires WaitsConsistent(run)
    requires next.id == run.id && next.scope == run.scope && next.deadlineAt == run.deadlineAt
    requires forall other :: other != id ==> (other in run.waits <==> other in next.waits)
    requires forall other :: other != id && other in run.waits ==> next.waits[other] == run.waits[other]
    requires run.invocations.Keys <= next.invocations.Keys
    requires forall k :: k != key && k in run.invocations ==> next.invocations[k] == run.invocations[k]
    requires key in run.invocations ==> run.invocations[key].control == Some(ControlFrame.Wait(id))
                                        && run.invocations[key].state != InvocationState.Succeeded
    ensures forall other :: other in next.waits && other != id ==>
      && WaitShape(next, other) && WaitKindFits(next, next.waits[other]) && WaitSettled(next, other)
      && TimerOutput(run, next, other) && WaitContinues(run.waits[other], next.waits[other])
  {
    forall other | other in next.waits && other != id
      ensures WaitShape(next, other) && WaitKindFits(next, next.waits[other]) && WaitSettled(next, other)
      ensures TimerOutput(run, next, other) && WaitContinues(run.waits[other], next.waits[other])
    {
      OtherWait(run, next, key, other);
    }
  }

  lemma OtherWait(run: RunSnapshot, next: RunSnapshot, key: string, other: string)
    requires WaitsConsistent(run) && other in run.waits && other in next.waits && next.waits[other] == run.waits[other]
    requires next.id == run.id && next.scope == run.scope && next.deadlineAt == run.deadlineAt
    requires run.invocations.Keys <= next.invocations.Keys
    requires forall k :: k != key && k in run.invocations ==> next.invocations[k] == run.invocations[k]
    requires key in run.invocations ==> run.invocations[key].control != Some(ControlFrame.Wait(other))
                                        && run.invocations[key].state != InvocationState.Succeeded
    ensures WaitShape(next, other) && WaitKindFits(next, next.waits[other]) && WaitSettled(next, other)
    ensures TimerOutput(run, next, other)
  {
    var w := run.waits[other];
    assert WaitShape(run, other) && WaitKindFits(run, w) && WaitSettled(run, other);
    assert w.node != key;
    if w.kind.Signal? && w.kind.startNode.Some? && w.startConfirmed {
      assert NodeSucceeded(run, w.kind.startNode.value);
      assert w.kind.startNode.value != key;
    }
    if w.kind.Signal? && w.delivery.Some? {
      assert DeliveryFits(next, w, w.delivery.value);
    }
  }

  /** The transition of one wait, checked on its own. */
  ghost predicate WaitStep(run: RunSnapshot, p: RunSnapshot, id: string)
    requires id in p.waits
  {
    && WaitShape(p, id) && WaitKindFits(p, p.waits[id]) && WaitSettled(p, id)
    && (if id in run.waits then WaitContinues(run.waits[id], p.waits[id]) else NewWait(p.waits[id]))
    && TimerOutput(run, p, id)
  }

  lemma SameNode(before: WaitRecord, after: WaitRecord)
    requires WaitContinues(before, after)
    ensures before.node == after.node
  {
  }

  /** An edit of one open wait and of its own record is accepted when that one transition is. */
  lemma SingleWaitAccepted(run: RunSnapshot, next: RunSnapshot, id: string, key: string)
    requires WaitsConsistent(run) && !IsTerminal(run.state) && run.revision < MAX_REVISION
    requires id in next.waits && key in next.invocations && next.waits[id].node == key
    requires next == run.(waits := run.waits[id := next.waits[id]], invocations := run.invocations[key := next.invocations[key]],
                          state := next.state)
    requires !IsTerminal(next.state)
    requires key in run.invocations ==> run.invocations[key].control == Some(ControlFrame.Wait(id))
                                        && run.invocations[key].state != InvocationState.Succeeded
    requires next.invocations[key].control == Some(ControlFrame.Wait(id))
    requires WaitStep(run, Proposed(next), id)
    ensures Accepts(run, next)
  {
    hide WaitShape, WaitKindFits, WaitSettled, WaitContinues, TimerOutput;
    var p := Proposed(next);
    OtherWaits(run, p, id, key);
    if id in run.waits {
      SameNode(run.waits[id], p.waits[id]);
    }
    forall k | k in p.invocations && p.invocations[k].IsWait()
      ensures p.invocations[k].control.value.id in p.waits && p.waits[p.invocations[k].control.value.id].node == k
    {
      if k != key {
        assert run.invocations[k].IsWait();
      }
    }
  }

  lemma ReserveAccepted(run: RunSnapshot, id: string, key: string, recordId: string, kind: WaitKind, duration: nat,
                        input: Value, now: nat)
    requires WaitsConsistent(run) && !IsTerminal(run.state) && run.revision < MAX_REVISION
    requires id !in run.waits && key !in run.invocations && now < run.deadlineAt && KindAllowed(kind)
    ensures Accepts(run, Reserve(run, id, key, recordId, kind, duration, input, now))
  {
    hide WaitsConsistent, Accepts, Bytes;
    var next := Reserve(run, id, key, recordId, kind, duration, input, now);
    assert WaitStep(run, Proposed(next), id);
    SingleWaitAccepted(run, next, id, key);
  }

  /** What the checks say of one wait before its transition. */
  lemma WaitBefore(run: RunSnapshot, id: string)
    requires WaitsConsistent(run) && id in run.waits
    ensures WaitShape(run, id) && WaitKindFits(run, run.waits[id]) && WaitSettled(run, id)
  {
  }

  lemma ConfirmStartAccepted(run: RunSnapshot, id: string)
    requires WaitsConsistent(run) && !IsTerminal(run.state) && run.revision < MAX_REVISION
    requires id in run.waits && run.waits[id].state == Open
    requires run.waits[id].kind.Signal? && run.waits[id].kind.startNode.Some? ==> NodeSucceeded(run, run.waits[id].kind.startNode.value)
    ensures Accepts(run, ConfirmStart(run, id))
  {
    WaitBefore(run, id);
    hide WaitsConsistent, Accepts, Bytes;
    var next, key := ConfirmStart(run, id), run.waits[id].node;
    assert WaitStep(run, Proposed(next), id);
    assert next.invocations == run.invocations[key := next.invocations[key]];
    SingleWaitAccepted(run, next, id, key);
  }

  lemma ConsumeAccepted(run: RunSnapshot, id: string, input: Value)
    requires WaitsConsistent(run) && !IsTerminal(run.state) && run.revision < MAX_REVISION
    requires id in run.waits && run.waits[id].state == Open && run.waits[id].node in run.invocations
    requires run.waits[id].kind.Signal? ==> run.waits[id].delivery.Some? && run.waits[id].startConfirmed
    requires run.waits[id].kind.Timer? ==> input == run.invocations[run.waits[id].node].input
    ensures Accepts(run, Consume(run, id, input))
  {
    hide WaitsConsistent, Accepts, Bytes, WaitStep, WaitShape, WaitKindFits, WaitSettled;
    WaitBefore(run, id);
    var next, key := Consume(run, id, input), run.waits[id].node;
    ConsumedStep(run, id, input);
    ConsumedRecord(run, id);
    SingleWaitAccepted(run, next, id, key);
  }

  lemma ConsumedRecord(run: RunSnapshot, id: string)
    requires id in run.waits && WaitShape(run, id) && WaitSettled(run, id) && run.waits[id].state == Open
    ensures run.waits[id].node in run.invocations
    ensures run.invocations[run.waits[id].node].control == Some(ControlFrame.Wait(id))
    ensures run.invocations[run.waits[id].node].state != InvocationState.Succeeded
  {
  }

  lemma ConsumedStep(run: RunSnapshot, id: string, input: Value)
    requires id in run.waits && WaitShape(run, id) && WaitKindFits(run, run.waits[id]) && WaitSettled(run, id)
    requires run.waits[id].state == Open && run.waits[id].node in run.invocations
    requires run.waits[id].kind.Signal? ==> run.waits[id].delivery.Some? && run.waits[id].startConfirmed
    requires run.waits[id].kind.Timer? ==> input == run.invocations[run.waits[id].node].input
    ensures WaitStep(run, Proposed(Consume(run, id, input)), id)
  {
    hide Bytes;
    ConsumedOutputFits(run, Proposed(Consume(run, id, input)), id, input);
  }

  lemma ConsumedOutputFits(run: RunSnapshot, p: RunSnapshot, id: string, input: Value)
    requires id in run.waits && WaitShape(run, id) && WaitKindFits(run, run.waits[id]) && WaitSettled(run, id)
    requires run.waits[id].state == Open
    requires run.waits[id].kind.Signal? ==> run.waits[id].delivery.Some? && run.waits[id].startConfirmed
    requires p == Proposed(Consume(run, id, input))
    ensures run.waits[id].kind.Signal? ==>
      && SignalOutput(p, p.waits[id]) == SignalOutput(run, run.waits[id])
      && (run.waits[id].kind.startNode.Some? ==> NodeSucceeded(p, run.waits[id].kind.startNode.value))
  {
    var w := run.waits[id];
    if w.kind.Signal? && w.kind.startNode.Some? {
      assert NodeSucceeded(run, w.kind.startNode.value) && w.kind.startNode.value != w.node;
    }
  }

  lemma ExpireAccepted(run: RunSnapshot, id: string)
    requires WaitsConsistent(run) && !IsTerminal(run.state) && run.revision < MAX_REVISION
    requires id in run.waits && run.waits[id].state == Open && run.waits[id].kind.Signal? && run.waits[id].delivery == None
    ensures Accepts(run, Expire(run, id))
  {
    WaitBefore(run, id);
    hide WaitsConsistent, Accepts, Bytes;
    var next, key := Expire(run, id), run.waits[id].node;
    assert WaitStep(run, Proposed(next), id);
    assert next.invocations == run.invocations[key := next.invocations[key]];
    SingleWaitAccepted(run, next, id, key);
  }

  /** The accepted moment must not precede the reservation: this is where the clock must be monotone. */
  lemma DeliverAccepted(run: RunSnapshot, id: string, delivery: SignalDelivery)
    requires WaitsConsistent(run) && !IsTerminal(run.state) && run.revision < MAX_REVISION
    requires id in run.waits && run.waits[id].kind.Signal? && run.waits[id].delivery == None && run.waits[id].state == Open
    requires DeliveryFits(run, run.waits[id], delivery)
    ensures Accepts(run, Deliver(run, id, delivery))
  {
    WaitBefore(run, id);
    hide WaitsConsistent, Accepts, Bytes;
    var next, key := Deliver(run, id, delivery), run.waits[id].node;
    assert WaitStep(run, Proposed(next), id);
    assert next.invocations == run.invocations[key := next.invocations[key]];
    SingleWaitAccepted(run, next, id, key);
  }

  // ---------------------------------------------------------------- audit

  function Audited(run: RunSnapshot, entry: AuditEntry): RunSnapshot {
    run.(audit := run.audit + [entry])
  }

  /** Late observations are accepted even after the run ended. */
  lemma AuditAccepted(run: RunSnapshot, entry: AuditEntry)
    requires WaitsConsistent(run) && run.revision < MAX_REVISION
    ensures Accepts(run, Audited(run, entry))
  {
    var p := Proposed(Audited(run, entry));
    forall id | id in p.waits
      ensures WaitShape(p, id) && WaitKindFits(p, p.waits[id]) && WaitSettled(p, id)
      ensures WaitContinues(run.waits[id], p.waits[id]) && TimerOutput(run, p, id)
    {
      var w := run.waits[id];
      assert WaitShape(run, id) && WaitKindFits(run, w) && WaitSettled(run, id);
      if w.kind.Signal? && w.delivery.Some? {
        assert DeliveryFits(p, w, w.delivery.value);
        assert SignalOutput(run, w) == SignalOutput(p, w);
      }
    }
    assert WaitControlsMatch(p);
    assert p.(revision := run.revision, audit := run.audit) == run;
  }
}
