/**
 The persisted contracts of a run: invocation records, waits, the checkpoint and its
 recomputed projections. Serialised sizes are a parameter (`Sizer`).
 */
module Protocol {
  import opened Wrappers
  import opened Json
  import opened MapSums

  const MAX_REVISION: nat := 0xFFFF_FFFF_FFFF_FFFF
  const CHECKPOINT_FORMAT: nat := 3

  // ---------------------------------------------------------------- operations and errors

  datatype EffectKind = Pure | Read | Write

  datatype Repetition = Safe | Keyed | Unsafe

  datatype EffectCertainty = NotApplied | Applied | Unknown

  datatype ErrorClass = InvalidInput | Rejected | Transient | Resource | Internal | CancelledClass

  datatype OperationError = OperationError(code: string, kind: ErrorClass, certainty: EffectCertainty)

  datatype Diagnostic = Diagnostic(code: string, operationError: Option<OperationError>)

  datatype ForgeError = ForgeError(diagnostics: seq<Diagnostic>)
  {
    function Code(): string {
      if diagnostics == [] then "internal" else diagnostics[0].code
    }
  }

  function Plain(code: string): ForgeError {
    ForgeError([Diagnostic(code, None)])
  }

  datatype OperationDescriptor = OperationDescriptor(revision: string, effect: EffectKind, repetition: Repetition)

  datatype RetryPolicy = RetryPolicy(maxAttempts: nat, initialDelayMs: nat, maxDelayMs: nat, jitter: bool)

  const DEFAULT_RETRY: RetryPolicy := RetryPolicy(1, 100, 30_000, true)

  datatype Package = Package(definitions: seq<string>, operations: seq<OperationDescriptor>, schemas: seq<string>)

  const NO_PACKAGE: Package := Package([], [], [])

  datatype ArtifactRef = ArtifactRef(id: string, scope: string, bytes: nat, mediaType: string)

  // ---------------------------------------------------------------- invocations

  datatype ControlFrame =
    | Try(handler: Option<string>, error: Option<ForgeError>)
    | Wait(id: string)
    | Decision(selected: string)
    | Parallel(branches: seq<string>, nextIndex: nat, stopped: bool, error: Option<ForgeError>)
    | Foreach(total: nat, nextIndex: nat, stopped: bool, error: Option<ForgeError>)
    | Loop(iteration: nat, state: Value)
    | Subworkflow(id: string, revision: string)

  datatype InvocationState = Pending | Running | RetryScheduled | Succeeded | Failed | Cancelled | Unknown

  datatype InvocationRecord = InvocationRecord(
    id: string,
    attemptId: string,
    attempts: nat,
    state: InvocationState,
    input: Value,
    output: Option<Value>,
    error: Option<ForgeError>,
    operation: Option<string>,
    config: Value,
    effectKey: Option<string>,
    retry: RetryPolicy,
    nextAttemptAt: Option<nat>,
    certainty: EffectCertainty,
    control: Option<ControlFrame>)
  {
    predicate IsWait() {
      control.Some? && control.value.Wait?
    }

    /** An effect that may exist without a confirmed result. */
    predicate IsUnresolved() {
      state == InvocationState.Unknown
      || (operation.Some? && state != InvocationState.Succeeded && certainty != NotApplied)
    }
  }

  // ---------------------------------------------------------------- waits

  datatype SignalCommand = SignalCommand(runId: string, waitId: string, messageId: string, correlation: string,
                                         payload: Value, artifacts: seq<ArtifactRef>)

  datatype SignalReceipt = SignalReceipt(runId: string, waitId: string, messageId: string, acceptedAt: nat,
                                         durable: bool, duplicate: bool)

  datatype SignalDelivery = SignalDelivery(command: SignalCommand, actor: string, receipt: SignalReceipt)

  datatype WaitKind = Timer | Signal(correlation: string, payloadSchema: Value, startNode: Option<string>)

  datatype WaitState = Open | Consumed | Expired | Closed

  datatype WaitRecord = WaitRecord(id: string, node: string, kind: WaitKind, createdAt: nat, deadlineAt: nat,
                                   startConfirmed: bool, state: WaitState, delivery: Option<SignalDelivery>)

  // ---------------------------------------------------------------- reconciliation and audit

  datatype EffectEvidence = EffectEvidence(authority: string, reference: string)

  datatype EffectResolution =
    | ConfirmApplied(output: Value, evidence: EffectEvidence)
    | ConfirmNotApplied(evidence: EffectEvidence, quiescent: bool, retry: bool)
    | RecordInconclusive(reason: string)
    | StopTracking(reason: string)

  datatype ReconcileCommand = ReconcileCommand(commandId: string, runId: string, invocationId: string,
                                               expectedRevision: nat, observedAttempt: string,
                                               resolution: EffectResolution)

  datatype ResolutionStatus = AppliedStatus | RetryReady | FailedStatus | StillBlocked | StoppedTracking

  datatype ReconcileReceipt = ReconcileReceipt(commandId: string, runId: string, revision: nat,
                                               status: ResolutionStatus, diagnostic: Option<ForgeError>)

  datatype LateObservation = LateObservation(invocationId: string, attemptId: string, at: nat,
                                             output: Option<Value>, error: Option<ForgeError>)

  datatype AuditEntry =
    | Resolution(command: ReconcileCommand, actor: string, at: nat, receipt: ReconcileReceipt)
    | Late(observation: LateObservation)

  datatype UnresolvedEffect = UnresolvedEffect(invocationId: string, attemptId: string, effectKey: Option<string>,
                                               reason: string)

  // ---------------------------------------------------------------- the checkpoint

  datatype RunState = Accepted | Running | Waiting | Blocked | Cancelling | Succeeded | Failed | Cancelled

  predicate IsTerminal(s: RunState) {
    s == RunState.Succeeded || s == RunState.Failed || s == RunState.Cancelled
  }

  datatype RunSnapshot = RunSnapshot(
    waits: map<string, WaitRecord>,
    checkpointFormat: nat,
    id: string,
    scope: string,
    actor: string,
    resources: set<string>,
    revision: nat,
    definition: string,
    package: Package,
    input: Value,
    state: RunState,
    artifacts: seq<ArtifactRef>,
    invocations: map<string, InvocationRecord>,
    output: Option<Value>,
    error: Option<ForgeError>,
    createdAt: nat,
    deadlineAt: nat,
    finishedAt: Option<nat>,
    cancelRequested: bool,
    audit: seq<AuditEntry>,
    unresolvedEffects: seq<UnresolvedEffect>)

  /** The recorded state of a node, if it has a record. */
  predicate NodeSucceeded(run: RunSnapshot, key: string) {
    key in run.invocations && run.invocations[key].state == InvocationState.Succeeded
  }

  // ---------------------------------------------------------------- recomputed projections

  /** Serialised sizes: any functions at all. */
  datatype Sizer = Sizer(
    value: Value -> nat,
    error: ForgeError -> nat,
    frame: ControlFrame -> nat,
    artifact: ArtifactRef -> nat,
    audit: seq<AuditEntry> -> nat,
    effects: seq<UnresolvedEffect> -> nat,
    wait: WaitRecord -> nat)

  function RecordBytes(sz: Sizer, r: InvocationRecord): nat {
    sz.value(r.input) + sz.value(r.config)
    + (if r.output.Some? then sz.value(r.output.value) else 0)
    + (if r.error.Some? then sz.error(r.error.value) else 0)
    + (if r.control.Some? then sz.frame(r.control.value) else 0)
  }

  ghost function WaitBytes(sz: Sizer, waits: map<string, WaitRecord>): nat {
    Sum(map k | k in waits :: sz.wait(waits[k]))
  }

  function ArtifactBytes(sz: Sizer, artifacts: seq<ArtifactRef>): nat {
    if artifacts == [] then 0 else sz.artifact(artifacts[0]) + ArtifactBytes(sz, artifacts[1..])
  }

  ghost function NodeSizes(sz: Sizer, nodes: map<string, InvocationRecord>): map<string, nat> {
    map k | k in nodes :: RecordBytes(sz, nodes[k])
  }

  ghost function NodeBytes(sz: Sizer, nodes: map<string, InvocationRecord>): nat {
    Sum(NodeSizes(sz, nodes))
  }

  /** Output, diagnostics, audit and waits: everything but the immutable input and the nodes. */
  ghost function ResultBytes(sz: Sizer, run: RunSnapshot): nat {
    (if run.output.Some? then sz.value(run.output.value) else 0)
    + (if run.error.Some? then sz.error(run.error.value) else 0)
    + sz.audit(run.audit) + sz.effects(run.unresolvedEffects) + WaitBytes(sz, run.waits)
  }

  ghost function RunBytes(sz: Sizer, run: RunSnapshot): nat {
    sz.value(run.input) + ArtifactBytes(sz, run.artifacts) + ResultBytes(sz, run) + NodeBytes(sz, run.invocations)
  }

  ghost function UnresolvedKeys(nodes: map<string, InvocationRecord>): (keys: set<string>) {
    set k | k in nodes && nodes[k].IsUnresolved()
  }

  datatype RunHead = RunHead(nextWakeup: Option<nat>, id: string, scope: string, revision: nat, state: RunState,
                             cancelRequested: bool, deadlineAt: nat, invocationCount: nat, retainedBytes: nat,
                             unresolvedInvocations: nat)

  datatype ExecutionView = ExecutionView(head: RunHead, invocation: Option<InvocationRecord>,
                                         unresolvedDescendants: bool)

  /** When one open wait becomes ready; `None` while a delivery waits for its start. */
  function WaitReadyAt(w: WaitRecord): Option<nat> {
    if w.state != Open then None
    else if w.delivery.Some? then (if w.startConfirmed then Some(0) else None)
    else Some(w.deadlineAt)
  }

  ghost predicate EarliestReady(waits: map<string, WaitRecord>, at: nat) {
    && (exists k :: k in waits && WaitReadyAt(waits[k]) == Some(at))
    && (forall k :: k in waits && WaitReadyAt(waits[k]).Some? ==> at <= WaitReadyAt(waits[k]).value)
  }

  ghost function PendingWakeup(waits: map<string, WaitRecord>): (at: Option<nat>)
    ensures at.Some? ==> EarliestReady(waits, at.value)
    ensures at.None? ==> forall k :: k in waits ==> WaitReadyAt(waits[k]).None?
  {
    if forall k :: k in waits ==> WaitReadyAt(waits[k]).None? then None
    else
      var k :| k in waits && WaitReadyAt(waits[k]).Some?;
      EarliestExists(waits, k);
      var at :| EarliestReady(waits, at);
      Some(at)
  }

  lemma {:induction false} EarliestExists(waits: map<string, WaitRecord>, k: string)
    requires k in waits && WaitReadyAt(waits[k]).Some?
    ensures exists at :: EarliestReady(waits, at)
    decreases WaitReadyAt(waits[k]).value
  {
    var at := WaitReadyAt(waits[k]).value;
    if !EarliestReady(waits, at) {
      var earlier :| earlier in waits && WaitReadyAt(waits[earlier]).Some? && WaitReadyAt(waits[earlier]).value < at;
      EarliestExists(waits, earlier);
    }
  }

  ghost function NextWakeup(run: RunSnapshot): Option<nat> {
    var pending := PendingWakeup(run.waits);
    if run.state == RunState.Waiting then
      Some(if pending.Some? && pending.value < run.deadlineAt then pending.value else run.deadlineAt)
    else pending
  }

  /** An open wait is ready at once when its delivery and its start are both there, at its deadline when nothing was delivered. */
  predicate ReadyAt(w: WaitRecord, at: nat) {
    && w.state == Open
    && ((w.delivery == None && at == w.deadlineAt) || (w.delivery.Some? && w.startConfirmed && at == 0))
  }

  /** The first moment any wait is ready. */
  ghost predicate FirstReady(waits: map<string, WaitRecord>, at: nat) {
    && (exists k :: k in waits && ReadyAt(waits[k], at))
    && (forall k, b: nat :: k in waits && ReadyAt(waits[k], b) ==> at <= b)
  }

  ghost predicate NeverReady(waits: map<string, WaitRecord>) {
    forall k, b: nat :: k in waits ==> !ReadyAt(waits[k], b)
  }

  /** A run wakes when its first wait is ready; a waiting run wakes at its deadline at the latest. */
  lemma WakeupMeans(run: RunSnapshot, at: nat)
    ensures run.state != RunState.Waiting ==> (NextWakeup(run) == Some(at) <==> FirstReady(run.waits, at))
    ensures run.state != RunState.Waiting ==> (NextWakeup(run) == None <==> NeverReady(run.waits))
    ensures run.state == RunState.Waiting ==> (NextWakeup(run) == Some(at) <==>
      || (at < run.deadlineAt && FirstReady(run.waits, at))
      || (at == run.deadlineAt && forall b: nat :: FirstReady(run.waits, b) ==> run.deadlineAt <= b))
  {
    PendingMeans(run.waits, at);
    var pending := PendingWakeup(run.waits);
    if pending.Some? {
      PendingMeans(run.waits, pending.value);
      assert forall b: nat :: FirstReady(run.waits, b) ==> b == pending.value by {
        forall b: nat | FirstReady(run.waits, b)
          ensures b == pending.value
        {
          PendingMeans(run.waits, b);
        }
      }
    } else {
      forall b: nat
        ensures !FirstReady(run.waits, b)
      {
        PendingMeans(run.waits, b);
      }
    }
  }

  lemma PendingMeans(waits: map<string, WaitRecord>, at: nat)
    ensures PendingWakeup(waits) == Some(at) <==> FirstReady(waits, at)
    ensures PendingWakeup(waits) == None <==> NeverReady(waits)
  {
    hide PendingWakeup;
    var pending := PendingWakeup(waits);
    assert forall k, b: nat :: k in waits ==> (WaitReadyAt(waits[k]) == Some(b) <==> ReadyAt(waits[k], b));
    if pending.Some? {
      var k :| k in waits && WaitReadyAt(waits[k]) == pending;
      assert ReadyAt(waits[k], pending.value) && FirstReady(waits, pending.value);
    } else {
      forall k, b: nat | k in waits
        ensures !ReadyAt(waits[k], b)
      {
        assert WaitReadyAt(waits[k]).None?;
      }
    }
  }

  ghost function Head(sz: Sizer, run: RunSnapshot): RunHead {
    RunHead(NextWakeup(run), run.id, run.scope, run.revision, run.state, run.cancelRequested, run.deadlineAt,
            |run.invocations|, RunBytes(sz, run), |UnresolvedKeys(run.invocations)|)
  }

  ghost predicate UnresolvedBelow(nodes: map<string, InvocationRecord>, prefix: string) {
    exists k :: k in nodes && nodes[k].IsUnresolved() && prefix <= k
  }

  /** The coherent projection of one snapshot, recomputed from scratch. */
  ghost function View(sz: Sizer, run: RunSnapshot, node: Option<string>): ExecutionView {
    match node
    case None => ExecutionView(Head(sz, run), None, exists k :: k in run.invocations && run.invocations[k].IsUnresolved())
    case Some(key) =>
      ExecutionView(Head(sz, run), if key in run.invocations then Some(run.invocations[key]) else None,
                    UnresolvedBelow(run.invocations, key + "/"))
  }

  // ---------------------------------------------------------------- incremental accounting

  /** What replacing one record does to the byte total. */
  lemma NodeBytesReplaced(sz: Sizer, nodes: map<string, InvocationRecord>, key: string, record: InvocationRecord)
    ensures NodeBytes(sz, nodes[key := record]) + (if key in nodes then RecordBytes(sz, nodes[key]) else 0)
      == NodeBytes(sz, nodes) + RecordBytes(sz, record)
  {
    var sizes := NodeSizes(sz, nodes);
    assert NodeSizes(sz, nodes[key := record]) == sizes[key := RecordBytes(sz, record)];
    SumUpdate(sizes, key, RecordBytes(sz, record));
  }

  lemma UnresolvedReplaced(nodes: map<string, InvocationRecord>, key: string, record: InvocationRecord)
    ensures UnresolvedKeys(nodes[key := record]) ==
      if record.IsUnresolved() then UnresolvedKeys(nodes) + {key} else UnresolvedKeys(nodes) - {key}
  {
  }
}
