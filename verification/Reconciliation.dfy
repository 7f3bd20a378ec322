/** Commands that settle unknown effects, each applied at most once. */
module Reconciliation {
  import opened Wrappers
  import opened Json
  import opened Protocol
  import opened Checkpoint
  import opened Dispatch
  import opened RunEdits

  /** Opaque judgements of the host: blank text and output contracts. */
  datatype Host = Host(blank: string -> bool, outputFault: (string, Value) -> Option<ForgeError>)

  function Conflict(): ForgeError { Plain("state.conflict") }

  function EvidenceInvalid(): ForgeError { Plain("effect.evidence_invalid") }

  predicate EvidenceValid(host: Host, evidence: EffectEvidence) {
    !host.blank(evidence.authority) && !host.blank(evidence.reference)
  }

  // ---------------------------------------------------------------- replay

  /** The first resolution recorded under the command's identity. */
  function PreviousReceipt(audit: seq<AuditEntry>, command: ReconcileCommand, actor: string)
    : Option<Result<ReconcileReceipt, ForgeError>>
  {
    if audit == [] then None
    else if audit[0].Resolution? && audit[0].command.commandId == command.commandId then
      Some(if audit[0].command == command && audit[0].actor == actor then Ok(audit[0].receipt) else Err(Conflict()))
    else PreviousReceipt(audit[1..], command, actor)
  }

  method FindReceipt(audit: seq<AuditEntry>, command: ReconcileCommand, actor: string)
    returns (r: Option<Result<ReconcileReceipt, ForgeError>>)
    ensures r == PreviousReceipt(audit, command, actor)
  {
    var i := 0;
    assert audit[0..] == audit;
    while i < |audit|
      invariant i <= |audit| && PreviousReceipt(audit, command, actor) == PreviousReceipt(audit[i..], command, actor)
    {
      assert audit[i..][0] == audit[i] && audit[i..][1..] == audit[i + 1..];
      if audit[i].Resolution? && audit[i].command.commandId == command.commandId {
        return Some(if audit[i].command == command && audit[i].actor == actor then Ok(audit[i].receipt) else Err(Conflict()));
      }
      i := i + 1;
    }
    return None;
  }

  /** The first resolution under an identity. */
  predicate FirstUnder(audit: seq<AuditEntry>, commandId: string, i: int) {
    && 0 <= i < |audit| && audit[i].Resolution? && audit[i].command.commandId == commandId
    && forall j :: 0 <= j < i ==> !(audit[j].Resolution? && audit[j].command.commandId == commandId)
  }

  /** A command is answered by the first resolution under its identity: with its receipt to the same actor, refused to any other. */
  lemma {:induction false} PreviousReceiptMeans(audit: seq<AuditEntry>, command: ReconcileCommand, actor: string)
    ensures PreviousReceipt(audit, command, actor).Some? <==> exists i: int :: FirstUnder(audit, command.commandId, i)
    ensures forall i: int :: FirstUnder(audit, command.commandId, i) ==>
      PreviousReceipt(audit, command, actor) == Some(
        if audit[i].command == command && audit[i].actor == actor then Ok(audit[i].receipt) else Err(Plain("state.conflict")))
  {
    if audit != [] {
      if audit[0].Resolution? && audit[0].command.commandId == command.commandId {
        assert FirstUnder(audit, command.commandId, 0);
      } else {
        var rest := audit[1..];
        PreviousReceiptMeans(rest, command, actor);
        forall i: int
          ensures FirstUnder(audit, command.commandId, i) <==> FirstUnder(rest, command.commandId, i - 1)
        {
          if FirstUnder(rest, command.commandId, i - 1) {
            assert forall j :: 0 < j < i ==> audit[j] == rest[j - 1];
          }
          if FirstUnder(audit, command.commandId, i) {
            assert forall j :: 0 <= j < i - 1 ==> rest[j] == audit[j + 1];
          }
        }
        if i: int :| FirstUnder(rest, command.commandId, i) {
          assert FirstUnder(audit, command.commandId, i + 1);
        }
      }
    }
  }

  /** An answer once given never changes as the audit grows. */
  lemma {:induction false} ReceiptStable(audit: seq<AuditEntry>, more: seq<AuditEntry>, command: ReconcileCommand, actor: string)
    requires PreviousReceipt(audit, command, actor).Some?
    ensures PreviousReceipt(audit + more, command, actor) == PreviousReceipt(audit, command, actor)
  {
    assert (audit + more)[0] == audit[0] && (audit + more)[1..] == audit[1..] + more;
    if !(audit[0].Resolution? && audit[0].command.commandId == command.commandId) {
      ReceiptStable(audit[1..], more, command, actor);
    }
  }

  lemma {:induction false} ReceiptRecorded(audit: seq<AuditEntry>, command: ReconcileCommand, actor: string, at: nat,
                                           receipt: ReconcileReceipt)
    requires PreviousReceipt(audit, command, actor).None?
    ensures PreviousReceipt(audit + [Resolution(command, actor, at, receipt)], command, actor) == Some(Ok(receipt))
  {
    var longer := audit + [Resolution(command, actor, at, receipt)];
    if audit == [] {
      assert longer[0] == Resolution(command, actor, at, receipt);
    } else {
      assert longer[0] == audit[0] && longer[1..] == audit[1..] + [Resolution(command, actor, at, receipt)];
      ReceiptRecorded(audit[1..], command, actor, at, receipt);
    }
  }

  // ---------------------------------------------------------------- the ruling on one record

  datatype Ruling = Ruling(settlement: Option<Settlement>, status: ResolutionStatus, diagnostic: Option<ForgeError>)

  function Rule(host: Host, run: RunSnapshot, record: InvocationRecord, resolution: EffectResolution, now: nat)
    : Result<Ruling, ForgeError>
  {
    match resolution
    case ConfirmApplied(output, evidence) =>
      if !EvidenceValid(host, evidence) then Err(EvidenceInvalid())
      else if record.operation.None? then Err(Plain("reference.missing"))
      else (match host.outputFault(record.operation.value, output)
            case None => Ok(Ruling(Some(Applies(output)), AppliedStatus, None))
            case Some(error) => Ok(Ruling(Some(AppliesBadly(error)), StillBlocked, Some(error))))
    case ConfirmNotApplied(evidence, quiescent, retry) =>
      if !EvidenceValid(host, evidence) then Err(EvidenceInvalid())
      else if !quiescent || record.certainty == Applied then
        Ok(Ruling(None, StillBlocked, Some(Plain("effect.evidence_insufficient"))))
      else
        var error := OperationFailure("operation.failed", Rejected, NotApplied);
        var again := retry && record.attempts < record.retry.maxAttempts && now < run.deadlineAt && !run.cancelRequested;
        Ok(Ruling(Some(NeverApplied(retry, error)), if again then RetryReady else FailedStatus, None))
    case RecordInconclusive(reason) =>
      if host.blank(reason) then Err(EvidenceInvalid()) else Ok(Ruling(None, StillBlocked, None))
    case StopTracking(reason) =>
      if host.blank(reason) then Err(EvidenceInvalid()) else Ok(Ruling(None, StoppedTracking, None))
  }

  function ClockOfRun(run: RunSnapshot, now: nat): Clock {
    Clock(now, run.deadlineAt, run.cancelRequested, true)
  }

  function RuledRecord(run: RunSnapshot, record: InvocationRecord, ruling: Ruling, now: nat): InvocationRecord {
    if ruling.settlement.Some? then Settled(record, ruling.settlement.value, ClockOfRun(run, now)) else record
  }

  // ---------------------------------------------------------------- stopping

  function Truncated(reason: string): string {
    if |reason| <= 1024 then reason else reason[..1024]
  }

  function Unresolved(record: InvocationRecord, reason: string): UnresolvedEffect {
    UnresolvedEffect(record.id, record.attemptId, record.effectKey, Truncated(reason))
  }

  /** The keys of the unknown records, each once, in key order. */
  predicate ListsUnknown(nodes: map<string, InvocationRecord>, listed: seq<string>) {
    && (forall i :: 0 <= i < |listed| ==> listed[i] in nodes && nodes[listed[i]].state == InvocationState.Unknown)
    && (forall k :: k in nodes && nodes[k].state == InvocationState.Unknown ==> k in listed)
    && (forall i, j :: 0 <= i < j < |listed| ==> listed[i] != listed[j])
  }

  function Listed(nodes: map<string, InvocationRecord>, listed: seq<string>, reason: string): seq<UnresolvedEffect>
    requires forall i :: 0 <= i < |listed| ==> listed[i] in nodes
  {
    seq(|listed|, i requires 0 <= i < |listed| => Unresolved(nodes[listed[i]], reason))
  }

  function Stopped(run: RunSnapshot, listed: seq<string>, reason: string, now: nat): RunSnapshot
    requires forall i :: 0 <= i < |listed| ==> listed[i] in run.invocations
  {
    run.(unresolvedEffects := Listed(run.invocations, listed, reason),
         state := if run.cancelRequested then RunState.Cancelled else RunState.Failed,
         waits := CloseWaits(run.waits), error := Some(Plain("effect.unresolved")), finishedAt := Some(now))
  }

  // ---------------------------------------------------------------- the command

  predicate Targets(run: RunSnapshot, command: ReconcileCommand, key: string) {
    && key in run.invocations
    && run.invocations[key].id == command.invocationId && run.invocations[key].attemptId == command.observedAttempt
    && run.invocations[key].state == InvocationState.Unknown
  }

  /** The run leaves the blocked state once nothing is unknown any more. */
  function Unblocked(run: RunSnapshot): RunSnapshot {
    if !IsTerminal(run.state) && !AnyUnknown(run.invocations) then
      run.(state := if run.cancelRequested then Cancelling else Accepted, error := None)
    else run
  }

  function Resolved(run: RunSnapshot, key: string, ruling: Ruling, resolution: EffectResolution, listed: seq<string>, now: nat): RunSnapshot
    requires key in run.invocations && forall i :: 0 <= i < |listed| ==> listed[i] in run.invocations
  {
    var settled := run.(invocations := run.invocations[key := RuledRecord(run, run.invocations[key], ruling, now)]);
    Unblocked(if resolution.StopTracking? then Stopped(settled, listed, resolution.reason, now) else settled)
  }

  function ReceiptFor(run: RunSnapshot, command: ReconcileCommand, ruling: Ruling): ReconcileReceipt {
    ReconcileReceipt(command.commandId, run.id, run.revision + 1, ruling.status, ruling.diagnostic)
  }

  /** The proposal for a first-time command on a blocked run. */
  function Proposal(host: Host, run: RunSnapshot, key: string, command: ReconcileCommand, actor: string, listed: seq<string>, now: nat)
    : Result<RunSnapshot, ForgeError>
    requires Targets(run, command, key) && ListsUnknown(run.invocations, listed)
  {
    match Rule(host, run, run.invocations[key], command.resolution, now)
    case Err(error) => Err(error)
    case Ok(ruling) =>
      Ok(Audited(Resolved(run, key, ruling, command.resolution, listed, now),
                 Resolution(command, actor, now, ReceiptFor(run, command, ruling))))
  }

  method ListUnknown(nodes: map<string, InvocationRecord>) returns (listed: seq<string>)
    ensures ListsUnknown(nodes, listed)
  {
    listed := [];
    var left := set k | k in nodes && nodes[k].state == InvocationState.Unknown;
    while left != {}
      invariant forall k :: k in left ==> k in nodes && nodes[k].state == InvocationState.Unknown && k !in listed
      invariant forall i :: 0 <= i < |listed| ==> listed[i] in nodes && nodes[listed[i]].state == InvocationState.Unknown
      invariant forall k :: k in nodes && nodes[k].state == InvocationState.Unknown ==> k in listed || k in left
      invariant forall i, j :: 0 <= i < j < |listed| ==> listed[i] != listed[j]
      decreases left
    {
      var k :| k in left;
      listed := listed + [k];
      left := left - {k};
    }
  }

  method FindTarget(run: RunSnapshot, command: ReconcileCommand) returns (key: Option<string>)
    ensures key.Some? ==> Targets(run, command, key.value)
    ensures key.None? ==> forall k :: !Targets(run, command, k)
  {
    var left := run.invocations.Keys;
    while left != {}
      invariant left <= run.invocations.Keys
      invariant forall k :: k in run.invocations.Keys - left ==> !Targets(run, command, k)
      decreases left
    {
      var k :| k in left;
      if Targets(run, command, k) {
        return Some(k);
      }
      left := left - {k};
    }
    return None;
  }

  /** The command names this invocation and the attempt its author saw, and that attempt is in doubt. */
  predicate Aims(record: InvocationRecord, command: ReconcileCommand) {
    && record.id == command.invocationId && record.attemptId == command.observedAttempt
    && record.state == InvocationState.Unknown
  }

  /**
   One reconciliation call on the run it read. A known command is answered from the audit
   and changes nothing; a new one must match the blocked revision and an unknown attempt.
   */
  method Reconcile(host: Host, run: RunSnapshot, command: ReconcileCommand, actor: string, auditLimit: nat, now: nat)
    returns (r: Result<ReconcileReceipt, ForgeError>, committed: Option<RunSnapshot>)
    ensures PreviousReceipt(run.audit, command, actor).Some? ==>
      r == PreviousReceipt(run.audit, command, actor).value && committed.None?
    ensures committed.Some? ==>
      && r.Ok? && run.revision == command.expectedRevision && run.state == Blocked
      && PreviousReceipt(run.audit, command, actor).None?
      && PreviousReceipt(committed.value.audit, command, actor) == Some(Ok(r.value))
      && committed.value.revision == run.revision + 1
      && (exists key :: key in run.invocations && Aims(run.invocations[key], command))
      && exists key, listed ::
           && Targets(run, command, key) && ListsUnknown(run.invocations, listed)
           && Proposal(host, run, key, command, actor, listed, now).Ok?
           && committed.value == Proposed(Proposal(host, run, key, command, actor, listed, now).value)
    ensures committed.None? && PreviousReceipt(run.audit, command, actor).None? ==> r.Err?
    ensures PreviousReceipt(run.audit, command, actor).None? ==>
      && (run.revision != command.expectedRevision || run.state != Blocked ==> r == Err(Plain("state.conflict")))
      && ((forall key :: key in run.invocations ==> !Aims(run.invocations[key], command)) ==> r.Err?)
  {
    committed := None;
    var known := FindReceipt(run.audit, command, actor);
    if known.Some? {
      return known.value, None;
    }
    if run.revision != command.expectedRevision || run.state != Blocked {
      return Err(Conflict()), None;
    }
    if |run.audit| >= auditLimit {
      return Err(Plain("resource.limit")), None;
    }
    var target := FindTarget(run, command);
    if target.None? {
      return Err(Conflict()), None;
    }
    var listed := ListUnknown(run.invocations);
    var proposal := Proposal(host, run, target.value, command, actor, listed, now);
    if proposal.Err? {
      return Err(proposal.error), None;
    }
    if run.revision >= MAX_REVISION {
      return Err(Conflict()), None;
    }
    var ruling := Rule(host, run, run.invocations[target.value], command.resolution, now).value;
    var receipt := ReceiptFor(run, command, ruling);
    ReceiptRecorded(run.audit, command, actor, now, receipt);
    return Ok(receipt), Some(Proposed(proposal.value));
  }

  // ---------------------------------------------------------------- acceptance

  /** Every reconciliation of a blocked consistent run is accepted, whatever it decides. */
  lemma ProposalAccepted(host: Host, run: RunSnapshot, key: string, command: ReconcileCommand, actor: string,
                         listed: seq<string>, now: nat)
    requires WaitsConsistent(run) && !IsTerminal(run.state) && run.revision < MAX_REVISION
    requires Targets(run, command, key) && ListsUnknown(run.invocations, listed) && !run.invocations[key].IsWait()
    requires Proposal(host, run, key, command, actor, listed, now).Ok?
    ensures Accepts(run, Proposal(host, run, key, command, actor, listed, now).value)
  {
    hide WaitsConsistent, Accepts, QuietEdit, Proposal;
    ProposalQuiet(host, run, key, command, actor, listed, now);
    QuietAccepted(run, Proposal(host, run, key, command, actor, listed, now).value);
  }

  lemma ProposalQuiet(host: Host, run: RunSnapshot, key: string, command: ReconcileCommand, actor: string,
                      listed: seq<string>, now: nat)
    requires !IsTerminal(run.state) && Targets(run, command, key) && ListsUnknown(run.invocations, listed)
    requires !run.invocations[key].IsWait() && Proposal(host, run, key, command, actor, listed, now).Ok?
    ensures QuietEdit(run, Proposal(host, run, key, command, actor, listed, now).value)
  {
    hide Rule, ListsUnknown, Resolved, QuietEdit, Audited, ReceiptFor;
    assert forall i :: 0 <= i < |listed| ==> listed[i] in run.invocations by { OnListed(run.invocations, listed); }
    var ruling := Rule(host, run, run.invocations[key], command.resolution, now).value;
    RuledQuiet(run, run.invocations[key], ruling, now);
    ResolvedQuiet(run, key, ruling, command.resolution, listed, now);
    AuditedQuiet(run, Resolved(run, key, ruling, command.resolution, listed, now),
                 Resolution(command, actor, now, ReceiptFor(run, command, ruling)));
  }

  lemma OnListed(nodes: map<string, InvocationRecord>, listed: seq<string>)
    requires ListsUnknown(nodes, listed)
    ensures forall i :: 0 <= i < |listed| ==> listed[i] in nodes
  {
  }

  lemma AuditedQuiet(run: RunSnapshot, next: RunSnapshot, entry: AuditEntry)
    requires QuietEdit(run, next)
    ensures QuietEdit(run, Audited(next, entry))
  {
    hide QuietRecord, ClosedWait;
  }

  lemma ResolvedQuiet(run: RunSnapshot, key: string, ruling: Ruling, resolution: EffectResolution, listed: seq<string>, now: nat)
    requires !IsTerminal(run.state) && key in run.invocations && forall i :: 0 <= i < |listed| ==> listed[i] in run.invocations
    requires QuietRecord(run.invocations[key], RuledRecord(run, run.invocations[key], ruling, now))
    ensures QuietEdit(run, Resolved(run, key, ruling, resolution, listed, now))
  {
    hide AnyUnknown, RuledRecord, QuietRecord, Listed;
    forall k | k in run.invocations && k != key
      ensures QuietRecord(run.invocations[k], run.invocations[k])
    {
      SameIsQuiet(run.invocations[k]);
    }
  }

  lemma SameIsQuiet(r: InvocationRecord)
    ensures QuietRecord(r, r)
  {
  }

  lemma RuledQuiet(run: RunSnapshot, record: InvocationRecord, ruling: Ruling, now: nat)
    requires !record.IsWait() && record.state != InvocationState.Succeeded
    ensures QuietRecord(record, RuledRecord(run, record, ruling, now))
  {
    RuledKeepsControl(run, record, ruling, now);
  }

  /** What a proposal leaves of the run. */
  lemma ProposalShape(host: Host, run: RunSnapshot, key: string, command: ReconcileCommand, actor: string,
                      listed: seq<string>, now: nat)
    requires Targets(run, command, key) && ListsUnknown(run.invocations, listed)
    requires Proposal(host, run, key, command, actor, listed, now).Ok?
    ensures var next := Proposal(host, run, key, command, actor, listed, now).value;
      var ruling := Rule(host, run, run.invocations[key], command.resolution, now).value;
      var nodes := run.invocations[key := RuledRecord(run, run.invocations[key], ruling, now)];
      && next.invocations == nodes
      && next.cancelRequested == run.cancelRequested && next.deadlineAt == run.deadlineAt
      && next.waits.Keys == run.waits.Keys
      && (command.resolution.StopTracking? ==>
            && IsTerminal(next.state) && next.state != RunState.Succeeded && next.error == Some(Plain("effect.unresolved"))
            && ruling.settlement == None
            && next.unresolvedEffects == Listed(run.invocations, listed, command.resolution.reason))
      && (!command.resolution.StopTracking? && !IsTerminal(run.state) ==>
            && next.unresolvedEffects == run.unresolvedEffects
            && next.state == (if AnyUnknown(nodes) then run.state else if run.cancelRequested then Cancelling else Accepted))
  {
    hide AnyUnknown, RuledRecord;
    var ruling := Rule(host, run, run.invocations[key], command.resolution, now).value;
    if command.resolution.StopTracking? {
      assert run.invocations[key := RuledRecord(run, run.invocations[key], ruling, now)] == run.invocations by {
        RuledNothing(run, run.invocations[key], ruling, now);
      }
    }
  }

  lemma RuledNothing(run: RunSnapshot, record: InvocationRecord, ruling: Ruling, now: nat)
    ensures ruling.settlement == None ==> RuledRecord(run, record, ruling, now) == record
  {
  }

  lemma RuledKeepsControl(run: RunSnapshot, record: InvocationRecord, ruling: Ruling, now: nat)
    ensures RuledRecord(run, record, ruling, now).control == record.control
  {
  }

  // ---------------------------------------------------------------- what each command does

  predicate Acceptable(host: Host, record: InvocationRecord, resolution: EffectResolution) {
    match resolution
    case ConfirmApplied(_, evidence) =>
      !host.blank(evidence.authority) && !host.blank(evidence.reference) && record.operation.Some?
    case ConfirmNotApplied(evidence, _, _) => !host.blank(evidence.authority) && !host.blank(evidence.reference)
    case RecordInconclusive(reason) => !host.blank(reason)
    case StopTracking(reason) => !host.blank(reason)
  }

  /** Evidence that the effect happened with this output, which the operation's contract accepts or refuses. */
  predicate ConfirmedAs(host: Host, before: InvocationRecord, after: InvocationRecord, output: Value, receipt: ReconcileReceipt)
    requires before.operation.Some?
  {
    match host.outputFault(before.operation.value, output)
    case None =>
      && after == before.(state := InvocationState.Succeeded, output := Some(output), input := Null, error := None,
                          nextAttemptAt := None, certainty := Applied)
      && receipt.status == AppliedStatus && receipt.diagnostic == None
    case Some(fault) =>
      && after == before.(certainty := Applied, error := Some(fault))
      && receipt.status == StillBlocked && receipt.diagnostic == Some(fault)
  }

  /** Evidence that it never happened: tried again exactly when asked for and still possible, otherwise failed. */
  predicate DeniedAs(run: RunSnapshot, before: InvocationRecord, after: InvocationRecord, retry: bool, now: nat, receipt: ReconcileReceipt) {
    var again := retry && before.attempts < before.retry.maxAttempts && now < run.deadlineAt && !run.cancelRequested;
    && after == before.(state := after.state, error := after.error, nextAttemptAt := None, certainty := NotApplied)
    && after.state == (if again then InvocationState.Pending else InvocationState.Failed)
    && (again ==> after.error == None)
    && (!again ==> after.error.Some? && after.error.value.Code() == "operation.failed")
    && receipt.status == (if again then RetryReady else FailedStatus) && receipt.diagnostic == None
  }

  /** Nothing was learnt: the record stays as it was. */
  predicate LeftAs(before: InvocationRecord, after: InvocationRecord, receipt: ReconcileReceipt, diagnostic: Option<ForgeError>) {
    after == before && receipt.status == StillBlocked && receipt.diagnostic == diagnostic
  }

  predicate RuledAs(host: Host, run: RunSnapshot, before: InvocationRecord, after: InvocationRecord, resolution: EffectResolution,
                    now: nat, receipt: ReconcileReceipt)
    requires Acceptable(host, before, resolution)
  {
    match resolution
    case ConfirmApplied(output, _) => ConfirmedAs(host, before, after, output, receipt)
    case ConfirmNotApplied(_, quiescent, retry) =>
      if quiescent && before.certainty != Applied then DeniedAs(run, before, after, retry, now, receipt)
      else LeftAs(before, after, receipt, Some(Plain("effect.evidence_insufficient")))
    case RecordInconclusive(_) => LeftAs(before, after, receipt, None)
    case StopTracking(_) => after == before && receipt.status == StoppedTracking && receipt.diagnostic == None
  }

  lemma RuleMeans(host: Host, run: RunSnapshot, record: InvocationRecord, command: ReconcileCommand, now: nat)
    ensures Rule(host, run, record, command.resolution, now).Ok? <==> Acceptable(host, record, command.resolution)
    ensures Acceptable(host, record, command.resolution) ==>
      var ruling := Rule(host, run, record, command.resolution, now).value;
      && RuledAs(host, run, record, RuledRecord(run, record, ruling, now), command.resolution, now, ReceiptFor(run, command, ruling))
      && (ruling.settlement.Some? && ruling.settlement.value.NeverApplied? ==>
            command.resolution.ConfirmNotApplied? && ruling.settlement.value.retry == command.resolution.retry)
  {
  }

  /**
   What a command does to a blocked run, for every resolution: the one record it names changes as the evidence says, the
   answer is written to the audit under the command, and the run is unblocked exactly when nothing is unknown any more.
   */
  lemma ProposalMeans(host: Host, run: RunSnapshot, key: string, command: ReconcileCommand, actor: string, listed: seq<string>, now: nat)
    requires Targets(run, command, key) && ListsUnknown(run.invocations, listed) && run.state == Blocked
    ensures Proposal(host, run, key, command, actor, listed, now).Ok? <==>
      Acceptable(host, run.invocations[key], command.resolution)
    ensures Proposal(host, run, key, command, actor, listed, now).Ok? ==>
      var n := Proposal(host, run, key, command, actor, listed, now).value;
      && |n.audit| == |run.audit| + 1 && n.audit[..|run.audit|] == run.audit && key in n.invocations
      && n.invocations == run.invocations[key := n.invocations[key]]
      && n.output == run.output && n.cancelRequested == run.cancelRequested && n.deadlineAt == run.deadlineAt
      && var entry := n.audit[|run.audit|];
         && entry.Resolution? && entry.command == command && entry.actor == actor && entry.at == now
         && entry.receipt.commandId == command.commandId && entry.receipt.runId == run.id
         && entry.receipt.revision == run.revision + 1
         && RuledAs(host, run, run.invocations[key], n.invocations[key], command.resolution, now, entry.receipt)
         && (!command.resolution.StopTracking? ==>
               && (n.state == Blocked <==> exists k :: k in n.invocations && n.invocations[k].state == InvocationState.Unknown)
               && (n.state == Blocked ==> n.error == run.error)
               && (n.state != Blocked ==> n.error == None && n.state == (if run.cancelRequested then Cancelling else Accepted))
               && n.waits == run.waits && n.finishedAt == run.finishedAt && n.unresolvedEffects == run.unresolvedEffects)
  {
    hide Rule, RuledRecord, RuledAs, Listed, CloseWaits;
    RuleMeans(host, run, run.invocations[key], command, now);
  }

  /** A stopped run ends at once and names every effect it gives up, with the reason cut to what is kept. */
  lemma StoppedMeans(host: Host, run: RunSnapshot, key: string, command: ReconcileCommand, actor: string, listed: seq<string>, now: nat)
    requires Targets(run, command, key) && ListsUnknown(run.invocations, listed) && run.state == Blocked
    requires command.resolution.StopTracking? && !host.blank(command.resolution.reason)
    ensures Proposal(host, run, key, command, actor, listed, now).Ok?
    ensures var n := Proposal(host, run, key, command, actor, listed, now).value;
      && n.state == (if run.cancelRequested then RunState.Cancelled else RunState.Failed)
      && n.error == Some(Plain("effect.unresolved")) && n.finishedAt == Some(now) && n.invocations == run.invocations
      && (forall id :: id in n.waits ==> n.waits[id].state != Open)
      && |n.unresolvedEffects| == |listed|
      && forall i :: 0 <= i < |listed| ==>
           var e, r := n.unresolvedEffects[i], run.invocations[listed[i]];
           && e.invocationId == r.id && e.attemptId == r.attemptId && e.effectKey == r.effectKey
           && e.reason <= command.resolution.reason
           && |e.reason| == (if |command.resolution.reason| <= 1024 then |command.resolution.reason| else 1024)
  {
    assert run.invocations[key := run.invocations[key]] == run.invocations;
  }
}
