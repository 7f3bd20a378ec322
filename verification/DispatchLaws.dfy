/**
 Laws of whole dispatch histories, stated on records and clocks alone: when a scheduled retry
 is dispatched, what leaves the loop, and which fields a record of each state still carries.
 */
module DispatchLaws {
  import opened Wrappers
  import opened Json
  import opened Protocol
  import opened Effects
  import opened Dispatch

  // ---------------------------------------------------------------- a retry waits for its due time

  /** A retry that is about to be dispatched is due. */
  predicate Due(s: Snap) {
    s.cell.task.Some? && s.cell.task.value.Intending? && s.cell.record.Some? && s.cell.record.value.state == RetryScheduled ==>
      s.cell.record.value.nextAttemptAt.Some? && s.cell.record.value.nextAttemptAt.value <= s.clock.now
  }

  lemma EventKeepsDue(op: OpPlan, c: Cell, clock: Clock, e: CellEvent)
    requires Sound(op, c, clock.deadlineAt, clock.ready) && Enabled(op, c, clock, e) && Due(Snap(c, clock))
    ensures Due(Snap(Next(op, c, clock, e), clock))
  {
    hide CallsFit, UnsafeFits, FailedRecord;
  }

  lemma MoveKeepsDue(op: OpPlan, a: Snap, b: Snap)
    requires SnapSound(op, a) && Moves(op, a, b) && Due(a)
    ensures Due(b)
  {
    hide Next, Enabled, Sound;
    if b.clock == a.clock && exists e :: Enabled(op, a.cell, a.clock, e) && b.cell == Next(op, a.cell, a.clock, e) {
      var e :| Enabled(op, a.cell, a.clock, e) && b.cell == Next(op, a.cell, a.clock, e);
      EventKeepsDue(op, a.cell, a.clock, e);
    }
  }

  lemma {:induction false} HistoryDue(op: OpPlan, h: seq<Snap>, i: nat)
    requires History(op, h) && i < |h|
    ensures Due(h[i])
    decreases i
  {
    if i > 0 {
      HistoryDue(op, h, i - 1);
      HistorySound(op, h, i - 1);
      MoveKeepsDue(op, h[i - 1], h[i]);
    }
  }

  /** A commit that counts one more attempt. */
  predicate Dispatches(a: Snap, b: Snap) {
    b.cell.record.Some? && b.cell.record.value.state == InvocationState.Running
    && b.cell.record.value.attempts == (if a.cell.record.Some? then a.cell.record.value.attempts + 1 else 1)
  }

  /** What an attempt may start from. */
  predicate MayDispatch(op: OpPlan, record: Option<InvocationRecord>, clock: Clock) {
    && clock.ready && !clock.cancelRequested && clock.now < clock.deadlineAt
    && (record.Some? ==>
          && record.value.attempts < op.retry.maxAttempts
          && (record.value.state == InvocationState.Pending
              || (record.value.state == RetryScheduled && record.value.nextAttemptAt.Some?
                  && record.value.nextAttemptAt.value <= clock.now)))
  }

  lemma DispatchEvent(op: OpPlan, c: Cell, clock: Clock, e: CellEvent)
    requires Sound(op, c, clock.deadlineAt, clock.ready) && Enabled(op, c, clock, e) && Due(Snap(c, clock))
    requires Dispatches(Snap(c, clock), Snap(Next(op, c, clock, e), clock))
    ensures e.Intend? && MayDispatch(op, c.record, clock)
  {
    hide CallsFit, UnsafeFits, FailedRecord;
    if e.Fail? || e.Recover? {
      if c.record.Some? {
        var report := if e.Fail? then c.task.value.report else Interrupted(op, clock.cancelRequested);
        FailedFrame(op, c.record.value, report, MomentAt(clock, e.at));
      }
    }
  }

  /**
   No attempt is early: in every history a retry that was scheduled is dispatched at or after its due
   time, before the deadline, with no cancellation recorded and within the attempt limit.
   */
  lemma RetryWaits(op: OpPlan, h: seq<Snap>, i: nat)
    requires History(op, h) && 0 < i < |h| && Dispatches(h[i - 1], h[i])
    ensures MayDispatch(op, h[i - 1].cell.record, h[i].clock)
  {
    hide Next, Enabled, Sound, MayDispatch;
    HistorySound(op, h, i - 1);
    HistoryDue(op, h, i - 1);
    var a, b := h[i - 1], h[i];
    assert Moves(op, a, b);
    if b.clock == a.clock && exists e :: Enabled(op, a.cell, a.clock, e) && b.cell == Next(op, a.cell, a.clock, e) {
      var e :| Enabled(op, a.cell, a.clock, e) && b.cell == Next(op, a.cell, a.clock, e);
      DispatchEvent(op, a.cell, a.clock, e);
    }
  }

  /** The `i`th move of a history starts an attempt only where one may start. */
  predicate InTime(op: OpPlan, h: seq<Snap>, i: int)
    requires 0 < i < |h|
  {
    Dispatches(h[i - 1], h[i]) ==> MayDispatch(op, h[i - 1].cell.record, h[i].clock)
  }

  predicate AlwaysInTime(op: OpPlan, h: seq<Snap>) {
    forall i :: 0 < i < |h| ==> InTime(op, h, i)
  }

  lemma HistoryInTime(op: OpPlan, h: seq<Snap>)
    requires History(op, h)
    ensures AlwaysInTime(op, h)
  {
    forall i | 0 < i < |h|
      ensures InTime(op, h, i)
    {
      if Dispatches(h[i - 1], h[i]) {
        RetryWaits(op, h, i);
      }
    }
  }

  /** What is sent is the recorded attempt with the recorded input and key, and from then on it may take effect. */
  lemma SendMeans(op: OpPlan, c: Cell, clock: Clock)
    requires Sound(op, c, clock.deadlineAt, clock.ready) && Enabled(op, c, clock, Send)
    ensures var next, r := Next(op, c, clock, Send), c.record.value;
      && next.record == c.record && next.world.effects == c.world.effects
      && next.world.calls == c.world.calls + [Call(r.attemptId, if op.IsWrite() then Some(r.id) else None, r.input)]
      && Enabled(op, next, clock, Land(r.attemptId)) && Enabled(op, next, clock, Vanish(r.attemptId))
      && Next(op, next, clock, Land(r.attemptId)).world.effects == c.world.effects + [r.attemptId]
  {
  }

  // ---------------------------------------------------------------- the head of the loop

  /** Nothing new may be started. */
  predicate Refused(clock: Clock, cancelled: bool) {
    clock.cancelRequested || cancelled || clock.now >= clock.deadlineAt
  }

  predicate Over(record: Option<InvocationRecord>) {
    record.Some? && (record.value.state == InvocationState.Succeeded || record.value.state == InvocationState.Failed
                     || record.value.state == InvocationState.Cancelled || record.value.state == InvocationState.Unknown)
  }

  predicate Scheduled(record: Option<InvocationRecord>) {
    record.Some? && record.value.state == RetryScheduled
  }

  /**
   The head of the loop, read from a reachable state: it leaves exactly behind a settled, doubtful or unstarted
   record, sleeps exactly before a due time, starts an attempt exactly when nothing forbids it, and a retry that
   can no longer happen is first recorded as the failure it was.
   */
  lemma HeadDecides(op: OpPlan, c: Cell, clock: Clock, cancelled: bool)
    requires Sound(op, c, clock.deadlineAt, clock.ready) && Enabled(op, c, clock, Look(cancelled))
    ensures var next := Next(op, c, clock, Look(cancelled));
      var refused, r := Refused(clock, cancelled), c.record;
      && next.record == r && next.world == c.world
      && (next.task == None <==> Over(r) || (refused && !Scheduled(r)))
      && (next.task.Some? && next.task.value.Looking? <==> Scheduled(r) && !refused && r.value.nextAttemptAt.value > clock.now)
      && (next.task.Some? && next.task.value.Intending? <==>
            !refused && !Over(r) && (Scheduled(r) ==> r.value.nextAttemptAt.value <= clock.now))
      && (next.task.Some? && next.task.value.Failing? <==> Scheduled(r) && refused)
      && (next.task.Some? && next.task.value.Failing? ==>
            next.task.value == Failing(r.value.attemptId, FailureReport(r.value.error.value, false, cancelled)))
  {
    hide CallsFit, UnsafeFits;
  }

  // ---------------------------------------------------------------- what a record of each state carries

  /** Only a result has an output, only a failure an error, and only what was scheduled a due time. */
  predicate Tidy(r: InvocationRecord) {
    && (r.state == InvocationState.Succeeded ==> r.output.Some? && r.input == Null)
    && (r.state != InvocationState.Succeeded ==> r.output == None)
    && (r.error == None <==> r.state == InvocationState.Running || r.state == InvocationState.Pending
                             || r.state == InvocationState.Succeeded)
    && (r.nextAttemptAt.Some? ==> r.state == RetryScheduled || r.state == InvocationState.Unknown)
  }

  predicate TidyCell(c: Cell) {
    c.record.Some? ==> Tidy(c.record.value)
  }

  lemma EventKeepsTidy(op: OpPlan, c: Cell, clock: Clock, e: CellEvent)
    requires Sound(op, c, clock.deadlineAt, clock.ready) && Enabled(op, c, clock, e) && TidyCell(c)
    ensures TidyCell(Next(op, c, clock, e))
  {
    hide CallsFit, UnsafeFits, FailedRecord;
    if c.record.Some? && (e.Fail? || e.Recover?) {
      var report := if e.Fail? then c.task.value.report else Interrupted(op, clock.cancelRequested);
      FailedFrame(op, c.record.value, report, MomentAt(clock, e.at));
      FailedSchedule(op.descriptor, c.record.value, report, MomentAt(clock, e.at));
    }
  }

  /** Every record of every history is tidy. */
  lemma {:induction false} HistoryTidy(op: OpPlan, h: seq<Snap>, i: nat)
    requires History(op, h) && i < |h|
    ensures TidyCell(h[i].cell)
    decreases i
  {
    hide Next, Enabled, Sound, TidyCell;
    if i > 0 {
      HistoryTidy(op, h, i - 1);
      HistorySound(op, h, i - 1);
      var a, b := h[i - 1], h[i];
      assert Moves(op, a, b);
      if b.clock == a.clock && exists e :: Enabled(op, a.cell, a.clock, e) && b.cell == Next(op, a.cell, a.clock, e) {
        var e :| Enabled(op, a.cell, a.clock, e) && b.cell == Next(op, a.cell, a.clock, e);
        EventKeepsTidy(op, a.cell, a.clock, e);
      } else {
        SameRecordTidy(a.cell, b.cell);
      }
    } else {
      NoRecordTidy(h[0].cell);
    }
  }

  lemma SameRecordTidy(a: Cell, b: Cell)
    requires b.record == a.record && TidyCell(a)
    ensures TidyCell(b)
  {
  }

  lemma NoRecordTidy(c: Cell)
    requires c.record == None
    ensures TidyCell(c)
  {
  }

  // ---------------------------------------------------------------- what the record says of the world

  /** Whatever happened or may still happen is of this attempt. */
  predicate OnlyOf(w: World, attempt: string) {
    w.flying <= {attempt} && forall i :: 0 <= i < |w.effects| ==> w.effects[i] == attempt
  }

  /** While a write counts as not applied, only its running attempt can have acted, and nothing else ever has. */
  predicate TruthfulWrite(r: InvocationRecord, t: Option<Task>, w: World) {
    r.certainty == NotApplied ==>
      && OnlyOf(w, r.attemptId)
      && (r.state != InvocationState.Running ==> Untouched(w))
      && (t.Some? && t.value.Intended? ==> Untouched(w))
      && (t.Some? && t.value.Answered? && t.value.answer.Fault? && ReportedCertainty(t.value.answer.error) == NotApplied ==> Untouched(w))
      && (t.Some? && t.value.Failing? && !t.value.report.invalidOutput && ReportedCertainty(t.value.report.error) == NotApplied ==>
            Untouched(w))
  }

  predicate Truthful(op: OpPlan, c: Cell) {
    op.IsWrite() && c.record.Some? ==> TruthfulWrite(c.record.value, c.task, c.world)
  }

  lemma FailKeepsTruth(op: OpPlan, c: Cell, clock: Clock, e: CellEvent)
    requires e.Fail? || e.Recover?
    requires Sound(op, c, clock.deadlineAt, clock.ready) && Enabled(op, c, clock, e) && Truthful(op, c)
    ensures Truthful(op, Next(op, c, clock, e))
  {
    hide CallsFit, UnsafeFits, FailedRecord;
    if op.IsWrite() && c.record.Some? {
      var report := if e.Fail? then c.task.value.report else Interrupted(op, clock.cancelRequested);
      FailedFrame(op, c.record.value, report, MomentAt(clock, e.at));
      FailedWrite(op.descriptor, c.record.value, report, MomentAt(clock, e.at));
    }
  }

  lemma EventKeepsTruth(op: OpPlan, c: Cell, clock: Clock, e: CellEvent)
    requires Sound(op, c, clock.deadlineAt, clock.ready) && Enabled(op, c, clock, e) && Truthful(op, c)
    ensures Truthful(op, Next(op, c, clock, e))
  {
    if e.Fail? || e.Recover? {
      FailKeepsTruth(op, c, clock, e);
    } else {
      if e.Respond? && c.world.effects != [] {
        assert c.world.effects[0] in c.world.effects;
      }
      hide UnsafeFits, FailedRecord;
    }
  }

  lemma {:induction false} HistoryTruthful(op: OpPlan, h: seq<Snap>, i: nat)
    requires History(op, h) && i < |h|
    ensures Truthful(op, h[i].cell)
    decreases i
  {
    hide Next, Enabled, Sound, TruthfulWrite;
    if i > 0 {
      HistoryTruthful(op, h, i - 1);
      HistorySound(op, h, i - 1);
      var a, b := h[i - 1], h[i];
      assert Moves(op, a, b);
      if b.clock == a.clock && exists e :: Enabled(op, a.cell, a.clock, e) && b.cell == Next(op, a.cell, a.clock, e) {
        var e :| Enabled(op, a.cell, a.clock, e) && b.cell == Next(op, a.cell, a.clock, e);
        EventKeepsTruth(op, a.cell, a.clock, e);
      } else if op.IsWrite() && a.cell.record.Some? {
        CrashedTruthful(a.cell, b.cell);
      }
    }
  }

  lemma CrashedTruthful(a: Cell, b: Cell)
    requires a.record.Some? && TruthfulWrite(a.record.value, a.task, a.world) && (b == a || b == Crashed(a))
    ensures TruthfulWrite(b.record.value, b.task, b.world)
  {
  }

  /**
   The record never hides an effect: whatever a write did, or may still do, the record is a confirmed result, a running
   attempt, or an effect it calls unresolved. Nothing a checkpoint calls settled has happened behind its back.
   */
  lemma NothingBehindTheRecord(op: OpPlan, h: seq<Snap>, i: nat)
    requires History(op, h) && i < |h| && op.IsWrite()
    requires h[i].cell.world.effects != [] || h[i].cell.world.flying != {}
    ensures h[i].cell.record.Some?
    ensures var r := h[i].cell.record.value;
      r.state == InvocationState.Succeeded || r.state == InvocationState.Running || r.IsUnresolved()
  {
    HistorySound(op, h, i);
    HistoryTruthful(op, h, i);
  }
}
