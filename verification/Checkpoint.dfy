/**
 The storage invariants of a checkpoint: which snapshots may be created and which
 snapshot may replace which.
 */
module Checkpoint {
  import opened Wrappers
  import opened Text
  import opened Json
  import opened Protocol

  predicate DistinctArtifacts(artifacts: seq<ArtifactRef>) {
    forall i, j :: 0 <= i < j < |artifacts| ==> artifacts[i].id != artifacts[j].id
  }

  predicate ValidInitial(run: RunSnapshot) {
    && run.revision == 0
    && run.checkpointFormat == CHECKPOINT_FORMAT
    && run.state == RunState.Accepted
    && run.invocations == map[] && run.waits == map[]
    && run.output == None && run.error == None && run.finishedAt == None
    && !run.cancelRequested
    && run.audit == [] && run.unresolvedEffects == []
    && run.createdAt <= run.deadlineAt
    && |run.artifacts| <= 1000
    && (forall i :: 0 <= i < |run.artifacts| ==> run.artifacts[i].scope == run.scope)
    && DistinctArtifacts(run.artifacts)
  }

  // ---------------------------------------------------------------- waits of one snapshot

  predicate WaitControlsMatch(run: RunSnapshot) {
    forall key :: key in run.invocations && run.invocations[key].IsWait() ==>
      var id := run.invocations[key].control.value.id;
      id in run.waits && run.waits[id].node == key
  }

  predicate WaitShape(run: RunSnapshot, id: string)
    requires id in run.waits
  {
    var w := run.waits[id];
    && w.id == id
    && w.createdAt <= w.deadlineAt <= run.deadlineAt
    && w.node in run.invocations
    && run.invocations[w.node].control == Some(ControlFrame.Wait(id))
  }

  predicate SortedArtifacts(artifacts: seq<ArtifactRef>) {
    forall i :: 0 < i < |artifacts| ==> Less(artifacts[i - 1].id, artifacts[i].id)
  }

  predicate DeliveryFits(run: RunSnapshot, w: WaitRecord, d: SignalDelivery)
    requires w.kind.Signal?
  {
    && d.command.runId == run.id && d.command.waitId == w.id
    && d.command.correlation == w.kind.correlation
    && d.command.messageId != "" && Bytes(d.command.messageId) <= 256
    && d.receipt.runId == run.id && d.receipt.waitId == w.id
    && d.receipt.messageId == d.command.messageId
    && !d.receipt.duplicate
    && w.createdAt <= d.receipt.acceptedAt < w.deadlineAt
    && w.state != Expired
    && |d.command.artifacts| <= 1000
    && (forall i :: 0 <= i < |d.command.artifacts| ==> d.command.artifacts[i].scope == run.scope)
    && SortedArtifacts(d.command.artifacts)
  }

  predicate WaitKindFits(run: RunSnapshot, w: WaitRecord) {
    match w.kind
    case Timer => w.delivery == None && w.startConfirmed && w.state != Expired
    case Signal(correlation, _, startNode) =>
      && correlation != "" && Bytes(correlation) <= 256
      && (startNode == None ==> w.startConfirmed)
      && (w.startConfirmed && startNode.Some? ==> NodeSucceeded(run, startNode.value))
      && (w.delivery.Some? ==> DeliveryFits(run, w, w.delivery.value))
      && (w.state == Consumed ==> w.delivery.Some? && w.startConfirmed)
  }

  /** What a start node contributed, or null. */
  function StartedValue(run: RunSnapshot, startNode: Option<string>): Value {
    if startNode.Some? && startNode.value in run.invocations && run.invocations[startNode.value].output.Some?
    then run.invocations[startNode.value].output.value
    else Null
  }

  /** The output a consumed signal wait must have. */
  function SignalOutput(run: RunSnapshot, w: WaitRecord): Value
    requires w.kind.Signal? && w.delivery.Some?
  {
    Object([Field("signal", w.delivery.value.command.payload), Field("start", StartedValue(run, w.kind.startNode))])
  }

  predicate WaitSettled(run: RunSnapshot, id: string)
    requires WaitShape.requires(run, id) && WaitShape(run, id)
  {
    var w := run.waits[id];
    var r := run.invocations[w.node];
    && (r.state == InvocationState.Succeeded <==> w.state == Consumed)
    && (w.state == Consumed && w.kind.Signal? && w.delivery.Some? ==> r.output == Some(SignalOutput(run, w)))
  }

  /** Everything the wait checks say about a single snapshot. */
  predicate WaitsConsistent(run: RunSnapshot) {
    && (IsTerminal(run.state) ==> forall id :: id in run.waits ==> run.waits[id].state != Open)
    && WaitControlsMatch(run)
    && (forall id :: id in run.waits ==>
          WaitShape(run, id) && WaitKindFits(run, run.waits[id]) && WaitSettled(run, id))
  }

  // ---------------------------------------------------------------- wait transitions

  predicate WaitContinues(old_: WaitRecord, w: WaitRecord) {
    && old_.id == w.id && old_.node == w.node && old_.kind == w.kind
    && old_.createdAt == w.createdAt && old_.deadlineAt == w.deadlineAt
    && (old_.startConfirmed ==> w.startConfirmed)
    && (old_.state != Open ==> old_ == w)
    && (old_.delivery.Some? ==> old_.delivery == w.delivery)
  }

  predicate NewWait(w: WaitRecord) {
    w.state == Open && w.delivery == None
  }

  /** A timer's output is its own input, checked in the commit that consumes it. */
  predicate TimerOutput(previous: RunSnapshot, run: RunSnapshot, id: string)
    requires id in run.waits && run.waits[id].node in run.invocations
  {
    var w := run.waits[id];
    w.state == Consumed && w.kind.Timer? && id in previous.waits && previous.waits[id].state == Open ==>
      run.invocations[w.node].output ==
      (if w.node in previous.invocations then Some(previous.invocations[w.node].input) else None)
  }

  /** The wait checks made against the replaced snapshot. */
  predicate ValidWaits(previous: RunSnapshot, run: RunSnapshot) {
    && previous.waits.Keys <= run.waits.Keys
    && WaitsConsistent(run)
    && (forall id :: id in run.waits ==>
          && (if id in previous.waits then WaitContinues(previous.waits[id], run.waits[id]) else NewWait(run.waits[id]))
          && TimerOutput(previous, run, id))
  }

  // ---------------------------------------------------------------- successors

  predicate SameIdentity(run: RunSnapshot, next: RunSnapshot) {
    && run.id == next.id && run.scope == next.scope && run.actor == next.actor
    && run.resources == next.resources && run.definition == next.definition && run.package == next.package
    && run.input == next.input && run.artifacts == next.artifacts
    && run.createdAt == next.createdAt && run.deadlineAt == next.deadlineAt
    && run.checkpointFormat == next.checkpointFormat
  }

  predicate KeepsConfirmed(run: RunSnapshot, next: RunSnapshot) {
    forall key :: key in run.invocations && NodeSucceeded(run, key) ==> key in next.invocations && next.invocations[key] == run.invocations[key]
  }

  predicate TerminalStable(run: RunSnapshot, next: RunSnapshot) {
    IsTerminal(run.state) ==> next.(revision := run.revision, audit := run.audit) == run
  }

  /** The whole commit check, at the expected revision. */
  predicate ValidSuccessor(run: RunSnapshot, expected: nat, next: RunSnapshot) {
    && ValidWaits(run, next)
    && run.revision == expected
    && expected < MAX_REVISION && next.revision == expected + 1
    && SameIdentity(run, next)
    && (run.cancelRequested ==> next.cancelRequested)
    && KeepsConfirmed(run, next)
    && run.audit <= next.audit
    && TerminalStable(run, next)
  }
}
