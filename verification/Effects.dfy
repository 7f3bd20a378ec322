/** Effect classification: what a failed attempt may become, and what it must never hide. */
module Effects {
  import opened Wrappers
  import opened Protocol

  datatype AttemptFailure = AttemptFailure(kind: ErrorClass, certainty: EffectCertainty, invalidOutput: bool)

  datatype RetryBudget = RetryBudget(completedAttempts: nat, maxAttempts: nat, now: nat, deadlineAt: nat,
                                     cancelRequested: bool)

  datatype FailureDecision = Fail | Cancel | Retry | Block

  function ClassifyFailure(effect: EffectKind, repetition: Repetition, failure: AttemptFailure, budget: RetryBudget)
    : FailureDecision
  {
    var write := effect == Write;
    var unresolved := write && (failure.certainty != NotApplied || failure.invalidOutput);
    if write && (failure.certainty == Applied || failure.invalidOutput) then Block
    else if budget.cancelRequested || failure.kind == CancelledClass then (if unresolved then Block else Cancel)
    else
      var transient := failure.kind == Transient || failure.kind == Resource;
      var repeatable := !unresolved || repetition == Safe || repetition == Keyed;
      if transient && !failure.invalidOutput && repeatable
         && budget.completedAttempts < budget.maxAttempts && budget.now < budget.deadlineAt then Retry
      else if unresolved then Block
      else Fail
  }

  /** What another dispatch may follow. */
  predicate MayRepeat(effect: EffectKind, repetition: Repetition, failure: AttemptFailure, budget: RetryBudget) {
    && (failure.kind == Transient || failure.kind == Resource) && !failure.invalidOutput
    && !budget.cancelRequested
    && budget.completedAttempts < budget.maxAttempts && budget.now < budget.deadlineAt
    && (effect == Write ==> failure.certainty == NotApplied || (failure.certainty == EffectCertainty.Unknown && repetition != Unsafe))
  }

  /**
   The whole decision: a repeat is authorised exactly when it may be, a possible write that
   is not repeated always blocks, and only a settled non-effect fails or cancels.
   */
  lemma DecisionMeaning(effect: EffectKind, repetition: Repetition, failure: AttemptFailure, budget: RetryBudget)
    ensures var possible := effect == Write && (failure.certainty != NotApplied || failure.invalidOutput);
      var d := ClassifyFailure(effect, repetition, failure, budget);
      && (d == Retry <==> MayRepeat(effect, repetition, failure, budget))
      && (d == Block <==> possible && !MayRepeat(effect, repetition, failure, budget))
      && (d == Cancel <==> !possible && (budget.cancelRequested || failure.kind == CancelledClass))
  {
  }

  function Merged(previous: EffectCertainty, next: EffectCertainty): EffectCertainty {
    match (previous, next)
    case (Applied, _) => Applied
    case (_, Applied) => Applied
    case (Unknown, _) => EffectCertainty.Unknown
    case (_, Unknown) => EffectCertainty.Unknown
    case _ => NotApplied
  }

  function Level(c: EffectCertainty): nat {
    match c case NotApplied => 0 case Unknown => 1 case Applied => 2
  }

  /** Merging is the join of the order NotApplied < Unknown < Applied. */
  lemma MergedIsJoin(a: EffectCertainty, b: EffectCertainty, c: EffectCertainty)
    ensures Level(Merged(a, b)) == if Level(a) < Level(b) then Level(b) else Level(a)
    ensures Level(Merged(a, b)) <= Level(c) <==> Level(a) <= Level(c) && Level(b) <= Level(c)
  {
  }

  // ---------------------------------------------------------------- recording a failure

  datatype FailureReport = FailureReport(error: ForgeError, invalidOutput: bool, cancelled: bool)

  function FirstCause(diagnostics: seq<Diagnostic>): Option<OperationError> {
    if diagnostics == [] then None
    else if diagnostics[0].operationError.Some? then diagnostics[0].operationError
    else FirstCause(diagnostics[1..])
  }

  function CauseOf(error: ForgeError): Option<OperationError> {
    FirstCause(error.diagnostics)
  }

  function ReportedCertainty(error: ForgeError): EffectCertainty {
    if CauseOf(error).Some? then CauseOf(error).value.certainty else EffectCertainty.Unknown
  }

  function FailedCertainty(effect: EffectKind, previous: EffectCertainty, report: FailureReport): EffectCertainty {
    if effect != Write then NotApplied
    else if report.invalidOutput then Applied
    else Merged(previous, ReportedCertainty(report.error))
  }

  function StampOne(d: Diagnostic, certainty: EffectCertainty): Diagnostic {
    if d.operationError.Some? then d.(operationError := Some(d.operationError.value.(certainty := certainty))) else d
  }

  function Stamped(diagnostics: seq<Diagnostic>, certainty: EffectCertainty): seq<Diagnostic> {
    seq(|diagnostics|, i requires 0 <= i < |diagnostics| => StampOne(diagnostics[i], certainty))
  }

  /** Rewriting the causes changes their certainty and nothing else. */
  lemma {:induction false} StampedCause(diagnostics: seq<Diagnostic>, certainty: EffectCertainty)
    ensures FirstCause(Stamped(diagnostics, certainty)) ==
      if FirstCause(diagnostics).Some? then Some(FirstCause(diagnostics).value.(certainty := certainty)) else None
  {
    if diagnostics != [] && diagnostics[0].operationError.None? {
      StampedCause(diagnostics[1..], certainty);
      assert Stamped(diagnostics, certainty)[1..] == Stamped(diagnostics[1..], certainty);
    }
  }

  /** The clock and head a failure is recorded against; `at` is when the next attempt would be due. */
  datatype Moment = Moment(now: nat, at: nat, deadlineAt: nat, cancelRequested: bool)

  function BudgetAt(record: InvocationRecord, report: FailureReport, moment: Moment): RetryBudget {
    RetryBudget(record.attempts, record.retry.maxAttempts, moment.now, moment.deadlineAt,
                report.cancelled || moment.cancelRequested)
  }

  function Decided(descriptor: OperationDescriptor, record: InvocationRecord, report: FailureReport, moment: Moment)
    : FailureDecision
  {
    var certainty := FailedCertainty(descriptor.effect, record.certainty, report);
    var kind := if CauseOf(report.error).Some? then CauseOf(report.error).value.kind else Internal;
    var decision := ClassifyFailure(descriptor.effect, descriptor.repetition,
                                    AttemptFailure(kind, certainty, report.invalidOutput),
                                    BudgetAt(record, report, moment));
    if decision == Retry && moment.at >= moment.deadlineAt then (if certainty == NotApplied then Fail else Block)
    else decision
  }

  function StateAfter(decision: FailureDecision): InvocationState {
    match decision
    case Retry => RetryScheduled
    case Block => InvocationState.Unknown
    case Fail => InvocationState.Failed
    case Cancel => InvocationState.Cancelled
  }

  function FailedRecord(descriptor: OperationDescriptor, record: InvocationRecord, report: FailureReport, moment: Moment)
    : InvocationRecord
  {
    var certainty := FailedCertainty(descriptor.effect, record.certainty, report);
    var decision := Decided(descriptor, record, report, moment);
    record.(error := Some(ForgeError(Stamped(report.error.diagnostics, certainty))), certainty := certainty,
            nextAttemptAt := if decision == Retry then Some(moment.at) else None,
            state := StateAfter(decision))
  }

  /** Every cause is rewritten in place. */
  method Stamp(diagnostics: seq<Diagnostic>, certainty: EffectCertainty) returns (r: seq<Diagnostic>)
    ensures r == Stamped(diagnostics, certainty)
  {
    r := diagnostics;
    var i := 0;
    while i < |r|
      invariant i <= |r| == |diagnostics|
      invariant forall j :: 0 <= j < i ==> r[j] == StampOne(diagnostics[j], certainty)
      invariant forall j :: i <= j < |r| ==> r[j] == diagnostics[j]
    {
      r := r[i := StampOne(r[i], certainty)];
      i := i + 1;
    }
  }

  /** The record edit of a failed attempt, field by field; anything but the running attempt is declined. */
  method RecordFailure(descriptor: OperationDescriptor, current: Option<InvocationRecord>, attempt: string,
                       report: FailureReport, moment: Moment) returns (r: Option<InvocationRecord>)
    ensures r == if current.Some? && current.value.attemptId == attempt
                    && (current.value.state == InvocationState.Running || current.value.state == RetryScheduled)
                 then Some(FailedRecord(descriptor, current.value, report, moment)) else None
  {
    hide ClassifyFailure, Stamped, FirstCause;
    if current.None? || current.value.attemptId != attempt
       || (current.value.state != InvocationState.Running && current.value.state != RetryScheduled) {
      return None;
    }
    var record := current.value;
    var cause := CauseOf(report.error);
    var kind := if cause.Some? then cause.value.kind else Internal;
    var certainty;
    if descriptor.effect != Write {
      certainty := NotApplied;
    } else if report.invalidOutput {
      certainty := Applied;
    } else {
      certainty := Merged(record.certainty, if cause.Some? then cause.value.certainty else EffectCertainty.Unknown);
    }
    var decision := ClassifyFailure(descriptor.effect, descriptor.repetition,
                                    AttemptFailure(kind, certainty, report.invalidOutput),
                                    BudgetAt(record, report, moment));
    var due: Option<nat> := None;
    if decision == Retry {
      if moment.at >= moment.deadlineAt {
        decision := if certainty == NotApplied then Fail else Block;
      } else {
        due := Some(moment.at);
      }
    }
    var diagnostics := Stamp(report.error.diagnostics, certainty);
    record := record.(error := Some(ForgeError(diagnostics)));
    record := record.(certainty := certainty);
    record := record.(nextAttemptAt := due);
    record := record.(state := StateAfter(decision));
    r := Some(record);
  }

  /** What the recorded failure of a write may say: nothing possible is ever reported as settled. */
  lemma FailedWrite(descriptor: OperationDescriptor, record: InvocationRecord, report: FailureReport, moment: Moment)
    requires descriptor.effect == Write
    ensures var r := FailedRecord(descriptor, record, report, moment);
      && Level(record.certainty) <= Level(r.certainty)
      && (r.state == InvocationState.Unknown ==> r.certainty != NotApplied)
      && (r.state == InvocationState.Failed || r.state == InvocationState.Cancelled ==> r.certainty == NotApplied)
      && (r.state == RetryScheduled ==> r.certainty != Applied && (descriptor.repetition == Unsafe ==> r.certainty == NotApplied))
      && (r.certainty == NotApplied ==> !report.invalidOutput && CauseOf(report.error).Some?
                                        && CauseOf(report.error).value.certainty == NotApplied)
  {
    MergedIsJoin(record.certainty, ReportedCertainty(report.error), EffectCertainty.Applied);
  }

  /** A scheduled retry has budget left and is due before the run's deadline. */
  lemma FailedSchedule(descriptor: OperationDescriptor, record: InvocationRecord, report: FailureReport, moment: Moment)
    ensures var r := FailedRecord(descriptor, record, report, moment);
      && (r.state == RetryScheduled <==> r.nextAttemptAt.Some?)
      && (r.state == RetryScheduled ==>
            && r.attempts < r.retry.maxAttempts && r.nextAttemptAt.value < moment.deadlineAt
            && moment.now < moment.deadlineAt && !report.cancelled && !moment.cancelRequested)
      && r.state != InvocationState.Running && r.state != InvocationState.Succeeded && r.state != InvocationState.Pending
      && (descriptor.effect != Write ==> r.certainty == NotApplied && r.state != InvocationState.Unknown)
  {
  }

  /** The first diagnostic with a cause. */
  predicate FirstAt(diagnostics: seq<Diagnostic>, i: int) {
    0 <= i < |diagnostics| && diagnostics[i].operationError.Some? && forall j :: 0 <= j < i ==> diagnostics[j].operationError.None?
  }

  /** The cause of a failure is that of the first diagnostic that has one. */
  lemma {:induction false} FirstCauseMeans(diagnostics: seq<Diagnostic>)
    ensures FirstCause(diagnostics).Some? <==> exists i: int :: FirstAt(diagnostics, i)
    ensures forall i: int :: FirstAt(diagnostics, i) ==> FirstCause(diagnostics) == diagnostics[i].operationError
  {
    if diagnostics != [] && diagnostics[0].operationError.None? {
      var rest := diagnostics[1..];
      FirstCauseMeans(rest);
      forall i: int | FirstAt(diagnostics, i)
        ensures i > 0 && FirstAt(rest, i - 1)
      {
        assert forall j :: 0 <= j < i - 1 ==> rest[j] == diagnostics[j + 1];
      }
      if i: int :| FirstAt(rest, i) {
        assert forall j :: 0 < j <= i + 1 ==> diagnostics[j] == rest[j - 1];
        assert forall j :: 0 <= j < i + 1 ==> diagnostics[j].operationError.None?;
        assert FirstAt(diagnostics, i + 1);
      }
    } else if diagnostics != [] {
      assert FirstAt(diagnostics, 0);
    }
  }

  /** Cancellation was asked for, or the attempt itself reports it. */
  predicate Called(report: FailureReport, moment: Moment) {
    report.cancelled || moment.cancelRequested
  }

  predicate PassingClass(kind: ErrorClass) {
    kind == Transient || kind == ErrorClass.Resource
  }

  /**
   The state of a failed attempt, for every input. A retry is scheduled exactly when the cause may pass, the output
   was not invalid, nothing called the work off, an attempt and time are left, and a write has certainly not happened
   or may be repeated; any other possible write is in doubt; what certainly did not happen is cancelled or failed.
   */
  lemma FailureMeaning(descriptor: OperationDescriptor, record: InvocationRecord, report: FailureReport, moment: Moment)
    ensures var r := FailedRecord(descriptor, record, report, moment);
      var kind := if CauseOf(report.error).Some? then CauseOf(report.error).value.kind else Internal;
      var possible := descriptor.effect == Write && r.certainty != NotApplied;
      var again := PassingClass(kind) && !report.invalidOutput && !Called(report, moment)
        && record.attempts < record.retry.maxAttempts && moment.now < moment.deadlineAt && moment.at < moment.deadlineAt
        && (possible ==> r.certainty == EffectCertainty.Unknown && descriptor.repetition != Unsafe);
      && (r.state == RetryScheduled <==> again)
      && (r.state == InvocationState.Unknown <==> possible && !again)
      && (r.state == InvocationState.Cancelled <==> !possible && (Called(report, moment) || kind == CancelledClass))
      && (r.state == InvocationState.Failed <==> !possible && !again && !Called(report, moment) && kind != CancelledClass)
      && r.nextAttemptAt == if again then Some(moment.at) else None
  {
  }

  /** How certain a failed attempt leaves a write: never less than before, and Applied once anything said so. */
  lemma FailureCertainty(descriptor: OperationDescriptor, record: InvocationRecord, report: FailureReport, moment: Moment)
    ensures var c := FailedRecord(descriptor, record, report, moment).certainty;
      var said := if CauseOf(report.error).Some? then CauseOf(report.error).value.certainty else EffectCertainty.Unknown;
      && (descriptor.effect != Write ==> c == NotApplied)
      && (descriptor.effect == Write ==>
            && (c == Applied <==> report.invalidOutput || record.certainty == Applied || said == Applied)
            && (c == NotApplied <==> !report.invalidOutput && record.certainty == NotApplied && said == NotApplied))
  {
  }

  /** The recorded error is the reported one, with the merged certainty written into every cause and nothing else changed. */
  lemma FailureKeepsDiagnostics(descriptor: OperationDescriptor, record: InvocationRecord, report: FailureReport, moment: Moment)
    ensures var r, before := FailedRecord(descriptor, record, report, moment), report.error.diagnostics;
      && r.error.Some? && |r.error.value.diagnostics| == |before|
      && forall i :: 0 <= i < |before| ==>
        var d := r.error.value.diagnostics[i];
        && d.code == before[i].code && (d.operationError.Some? <==> before[i].operationError.Some?)
        && (d.operationError.Some? ==>
              && d.operationError.value.code == before[i].operationError.value.code
              && d.operationError.value.kind == before[i].operationError.value.kind
              && d.operationError.value.certainty == r.certainty)
  {
    hide ClassifyFailure, FirstCause;
  }
}
