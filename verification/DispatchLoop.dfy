/**
 The dispatch loop as the worker runs it, over a run that other actors change between any
 two of its steps. Every step it takes is a step of the effect protocol, so all histories
 it can produce are histories of that protocol; and it always ends.
 */
module DispatchLoop {
  import opened Wrappers
  import opened Json
  import opened Protocol
  import opened Effects
  import opened Dispatch
  import DispatchLaws
  import Programs

  datatype Outcome = Returned(value: Value) | Refused(error: ForgeError) | Lost

  // ---------------------------------------------------------------- how the loop ends

  /** What the loop returns when the record or the gate ends it. */
  function Leave(record: Option<InvocationRecord>, clock: Clock, cancelled: bool): (outcome: Outcome)
    ensures !outcome.Lost?
  {
    if record.Some? && record.value.state == InvocationState.Succeeded then
      (if record.value.output.Some? then Returned(record.value.output.value) else Refused(Plain("store.failed")))
    else if record.Some? && record.value.state == InvocationState.Unknown then Refused(Plain("effect.unknown"))
    else if record.Some? && Settles(record.value) then
      Refused(if record.value.error.Some? then record.value.error.value else Plain("operation.failed"))
    else if clock.cancelRequested || cancelled then Refused(Plain("operation.cancelled"))
    else if clock.now >= clock.deadlineAt then Refused(Plain("operation.timeout"))
    else Refused(Plain("operation.failed"))
  }

  predicate Settles(r: InvocationRecord) {
    r.state == InvocationState.Failed || r.state == InvocationState.Cancelled
  }

  ghost predicate Took(op: OpPlan, a: Snap, b: Snap, e: CellEvent) {
    b.clock == a.clock && Enabled(op, a.cell, a.clock, e) && b.cell == Next(op, a.cell, a.clock, e)
  }

  /** Between two attempts the loop gives up for cancellation, for a budget, or at the deadline. */
  predicate GivesUp(clock: Clock, outcome: Outcome) {
    || outcome == Refused(Plain("operation.cancelled")) || outcome == Refused(Plain("resource.limit"))
    || (outcome == Refused(Plain("operation.timeout")) && clock.now >= clock.deadlineAt)
  }

  ghost predicate Confirms(op: OpPlan, a: Snap, b: Snap, refused: Option<ForgeError>, c: bool, outcome: Outcome) {
    && Took(op, a, b, Confirm(refused, c)) && a.cell.task.value.answer.Output?
    && outcome == Returned(a.cell.task.value.answer.value)
  }

  /** The last step of the loop: it leaves at its head, gives up before an intent, or confirms a result. */
  ghost predicate Exits(op: OpPlan, a: Snap, b: Snap, outcome: Outcome) {
    && b.cell.task == None
    && (|| (exists c :: Took(op, a, b, Look(c)) && outcome == Leave(a.cell.record, a.clock, c))
        || (Took(op, a, b, Abandon) && GivesUp(a.clock, outcome))
        || (exists refused, c :: Confirms(op, a, b, refused, c, outcome)))
  }

  ghost predicate Ended(op: OpPlan, h: seq<Snap>, outcome: Outcome) {
    |h| >= 2 && Exits(op, h[|h| - 2], h[|h| - 1], outcome)
  }

  /** Leaving the loop returns a confirmed value, or an error that hides nothing a handler could miss. */
  lemma LeaveMeans(op: OpPlan, input: Value, record: Option<InvocationRecord>, clock: Clock, cancelled: bool)
    requires LookAt(op, input, record, clock, cancelled) == None && op.retry.maxAttempts >= 1
    requires record.Some? ==>
      && (record.value.state == InvocationState.Succeeded ==> record.value.output.Some?)
      && (Settles(record.value) ==> record.value.certainty == NotApplied)
      && (record.value.state == InvocationState.Pending || record.value.state == RetryScheduled ==>
            record.value.attempts < op.retry.maxAttempts)
    ensures var outcome := Leave(record, clock, cancelled);
      && !outcome.Lost?
      && (outcome.Returned? ==> record.Some? && record.value.state == InvocationState.Succeeded && record.value.output == Some(outcome.value))
      && (outcome.Refused? && record.Some? ==>
            && record.value.state != InvocationState.Running && record.value.state != InvocationState.Succeeded
            && (record.value.state == InvocationState.Unknown ==> outcome.error.Code() == "effect.unknown")
            && (record.value.IsUnresolved() ==> !Programs.Catchable(outcome.error) || clock.now >= clock.deadlineAt))
      && (record.Some? && Settles(record.value) && record.value.error.Some? ==> outcome == Refused(record.value.error.value))
      && (record.None? || record.value.state == InvocationState.Pending || record.value.state == RetryScheduled ==>
            outcome == Refused(Plain(if clock.cancelRequested || cancelled then "operation.cancelled" else "operation.timeout")))
  {
    Boundary("effect.unknown");
    Boundary("operation.cancelled");
  }

  /** A handler may not catch these codes. */
  lemma Boundary(code: string)
    ensures code == "effect.unknown" || code == "operation.cancelled" || code == "resource.limit" ==> !Programs.Catchable(Plain(code))
  {
    assert Plain(code).diagnostics[0].code == code;
  }

  lemma BoundaryError(error: ForgeError)
    requires error.Code() == "effect.unknown"
    ensures !Programs.Catchable(error)
  {
    assert error.diagnostics[0].code == "effect.unknown";
  }

  /**
   However the loop ends, its answer agrees with the record: a value is confirmed, a settled record
   is reported as it is, and an unresolved one shows through the code of the error unless it is a
   repeatable write abandoned before the deadline.
   */
  lemma ExitMeans(op: OpPlan, h: seq<Snap>, outcome: Outcome)
    requires History(op, h) && Ended(op, h, outcome)
    ensures h[|h| - 1].cell.task == None && Agrees(op, h[|h| - 1], outcome)
  {
    hide History, Exits, SnapSound, Agrees;
    HistorySound(op, h, |h| - 2);
    ExitAgrees(op, h[|h| - 2], h[|h| - 1], outcome);
  }

  /** The answer of the loop and the record it leaves behind. */
  predicate Agrees(op: OpPlan, last: Snap, outcome: Outcome) {
    var record := last.cell.record;
    && !outcome.Lost? && last.clock.ready
    && (outcome.Returned? <==> record.Some? && record.value.state == InvocationState.Succeeded)
    && (outcome.Returned? ==> record.value.output == Some(outcome.value))
    && (record.Some? ==> record.value.state != InvocationState.Running)
    && (record.Some? && Settles(record.value) ==> record.value.certainty == NotApplied && outcome == Leave(record, last.clock, false))
    && (record.Some? && record.value.state == InvocationState.Unknown ==> outcome.error.Code() == "effect.unknown")
    && (record.Some? && record.value.IsUnresolved() ==> !Programs.Catchable(outcome.error) || last.clock.now >= last.clock.deadlineAt)
    && (record.Some? && record.value.IsUnresolved() && outcome.error.Code() != "effect.unknown" ==>
          last.clock.now >= last.clock.deadlineAt || op.MayHide())
  }

  lemma ExitAgrees(op: OpPlan, a: Snap, b: Snap, outcome: Outcome)
    requires SnapSound(op, a) && Exits(op, a, b, outcome)
    ensures b.cell.task == None && Agrees(op, b, outcome)
  {
    hide Took, SnapSound, Agrees, Leave, Confirms;
    if Took(op, a, b, Abandon) && GivesUp(a.clock, outcome) {
      AbandonExit(op, a, b, outcome);
    } else if c :| Took(op, a, b, Look(c)) && outcome == Leave(a.cell.record, a.clock, c) {
      LookExit(op, a, b, c, outcome);
    } else {
      var refused, c :| Confirms(op, a, b, refused, c, outcome);
      ConfirmExit(op, a, b, refused, c, outcome);
    }
  }

  lemma AbandonExit(op: OpPlan, a: Snap, b: Snap, outcome: Outcome)
    requires Took(op, a, b, Abandon) && GivesUp(a.clock, outcome) && SnapSound(op, a)
    ensures Agrees(op, b, outcome)
  {
    hide Programs.Catchable;
    Boundary("operation.cancelled");
    Boundary("resource.limit");
  }

  lemma ConfirmExit(op: OpPlan, a: Snap, b: Snap, refused: Option<ForgeError>, c: bool, outcome: Outcome)
    requires Confirms(op, a, b, refused, c, outcome) && b.cell.task == None && SnapSound(op, a)
    ensures Agrees(op, b, outcome)
  {
    hide Programs.Catchable, CallsFit, UnsafeFits;
  }

  lemma LookExit(op: OpPlan, a: Snap, b: Snap, c: bool, outcome: Outcome)
    requires Took(op, a, b, Look(c)) && outcome == Leave(a.cell.record, a.clock, c) && SnapSound(op, a) && b.cell.task == None
    ensures Agrees(op, b, outcome)
  {
    hide CallsFit, UnsafeFits, Programs.Catchable;
    LeaveMeans(op, a.cell.task.value.input, a.cell.record, a.clock, c);
    if outcome.Refused? && outcome.error.Code() == "effect.unknown" {
      BoundaryError(outcome.error);
    }
  }

  // ---------------------------------------------------------------- the loop

  class Runtime {
    const op: OpPlan
    var cell: Cell
    var clock: Clock
    ghost var history: seq<Snap>

    ghost predicate Valid()
      reads this
    {
      history != [] && History(op, history) && history[|history| - 1] == Snap(cell, clock)
    }

    constructor (op: OpPlan, deadlineAt: nat)
      requires op.retry.maxAttempts >= 1
      ensures Valid() && cell == Cell(None, None, EMPTY_WORLD) && clock == Clock(0, deadlineAt, false, true) && this.op == op
    {
      this.op := op;
      cell, clock := Cell(None, None, EMPTY_WORLD), Clock(0, deadlineAt, false, true);
      history := [Snap(Cell(None, None, EMPTY_WORLD), Clock(0, deadlineAt, false, true))];
    }

    /** The runtime comes back to an invocation as an earlier lifetime left it. */
    constructor Resume(op: OpPlan, at: Snap, ghost past: seq<Snap>)
      requires History(op, past) && past[|past| - 1] == at
      ensures Valid() && cell == at.cell && clock == at.clock && history == past && this.op == op
    {
      this.op := op;
      cell, clock := at.cell, at.clock;
      history := past;
    }

    lemma Known()
      requires Valid()
      ensures Sound(op, cell, clock.deadlineAt, clock.ready)
    {
      HistorySound(op, history, |history| - 1);
    }

    lemma Stopped()
      requires Valid() && !clock.ready
      ensures cell.task == None
    {
      Known();
    }

    /** Recovery after a crash: reclassify what was running, then become ready. */
    method Recover()
      requires Valid() && cell.task == None
      modifies this
      ensures Valid() && old(history) <= history && cell.task == None && clock == old(clock).(ready := true)
      ensures cell.record.None? <==> old(cell).record.None?
    {
      hide Moves, Next, Enabled;
      if clock.ready {
        return;
      }
      if cell.record.Some? && cell.record.value.state == InvocationState.Running {
        var delay :| delay >= 0;
        MayRecover(op, cell, clock, clock.now + delay);
        Reclassified(op, cell, clock, clock.now + delay);
        Step(CellEvent.Recover(clock.now + delay));
      }
      ghost var before := Snap(cell, clock);
      clock := clock.(ready := true);
      BecomesReady(op, before, Snap(cell, clock));
      Extend(op, history, before, Snap(cell, clock));
      history := history + [Snap(cell, clock)];
    }

    /** Reconciliation may have settled an unknown effect since. */
    method Reconcile()
      requires Valid() && cell.task == None && clock.ready
      modifies this
      ensures Valid() && old(history) <= history && cell.task == None && clock == old(clock)
      ensures cell.record.None? <==> old(cell).record.None?
    {
      var settlement: Settlement := *;
      if * {
        if cell.record.Some? && cell.record.value.state == InvocationState.Unknown
           && (settlement.NeverApplied? ==>
                 cell.record.value.certainty != Applied && cell.world.flying == {} && cell.world.effects == []) {
          Step(Settle(settlement));
        }
      }
    }

    /** One commit or local step of the protocol. */
    method Step(e: CellEvent)
      requires Valid() && Enabled(op, cell, clock, e)
      modifies this
      ensures Valid() && cell == old(Next(op, cell, clock, e)) && clock == old(clock)
      ensures history == old(history) + [Snap(cell, clock)]
    {
      hide Next, Enabled;
      ghost var before := Snap(cell, clock);
      cell := Next(op, cell, clock, e);
      Extend(op, history, before, Snap(cell, clock));
      history := history + [Snap(cell, clock)];
    }

    /** Anything the rest of the system may do between two steps: time, cancellation, landing effects, a crash. */
    method Interfere()
      requires Valid()
      modifies this
      ensures Valid() && old(history) <= history && Ticks(old(clock), clock.(ready := old(clock).ready))
      ensures cell.record == old(cell).record && (clock.ready ==> old(clock).ready && cell.task == old(cell).task)
      ensures !clock.ready ==> cell.task == None || cell.task == old(cell).task
    {
      var moments :| moments >= 0;
      for i := 0 to moments
        invariant Valid() && old(history) <= history && Ticks(old(clock), clock.(ready := old(clock).ready))
        invariant cell.record == old(cell).record && (clock.ready ==> old(clock).ready && cell.task == old(cell).task)
        invariant !clock.ready ==> cell.task == None || cell.task == old(cell).task
      {
        if * {
          var elapsed :| elapsed >= 0;
          var cancel: bool := *;
          Tick(elapsed, cancel);
        } else if * {
          Crash();
        } else {
          var attempt: string := *;
          if attempt in cell.world.flying {
            if * {
              Step(Land(attempt));
            } else {
              Step(Vanish(attempt));
            }
          }
        }
      }
    }

    method Tick(elapsed: nat, cancel: bool)
      requires Valid()
      modifies this
      ensures Valid() && old(history) <= history && cell == old(cell)
      ensures clock == old(clock).(now := old(clock).now + elapsed, cancelRequested := old(clock).cancelRequested || cancel)
    {
      ghost var before := Snap(cell, clock);
      clock := clock.(now := clock.now + elapsed, cancelRequested := clock.cancelRequested || cancel);
      Extend(op, history, before, Snap(cell, clock));
      history := history + [Snap(cell, clock)];
    }

    method Crash()
      requires Valid()
      modifies this
      ensures Valid() && old(history) <= history && cell == Crashed(old(cell)) && clock == old(clock).(ready := false)
    {
      ghost var before := Snap(cell, clock);
      cell, clock := Crashed(cell), clock.(ready := false);
      Extend(op, history, before, Snap(cell, clock));
      history := history + [Snap(cell, clock)];
    }

    /**
     The operation's answer. A write that reports non-application while its effect happened
     is outside the protocol's assumptions, so that answer arrives as an unknown one; so
     does every local timeout, cancellation or panic.
     */
    method Await(attempt: string) returns (answer: Answer)
      ensures op.IsWrite() && answer.Fault? && ReportedCertainty(answer.error) == NotApplied ==> attempt !in cell.world.effects
    {
      answer := *;
      if op.IsWrite() && answer.Fault? && attempt in cell.world.effects {
        answer := Fault(OperationFailure("operation.timeout", Transient, EffectCertainty.Unknown));
      }
    }

    /** A fresh attempt id. */
    method FreshAttempt() returns (attempt: string)
      ensures attempt !in cell.world.issued
    {
      var longest: nat, left := 0, cell.world.issued;
      while left != {}
        invariant left <= cell.world.issued
        invariant forall s :: s in cell.world.issued - left ==> |s| <= longest
        decreases left
      {
        var s :| s in left;
        if |s| > longest { longest := |s|; }
        left := left - {s};
      }
      attempt := seq(longest + 1, _ => 'a');
      assert |attempt| > longest;
    }

    /**
     One attempt: commit the intent under a fresh check of cancellation and deadline, call
     the operation, then commit its result. `None` leaves a failure to record.
     */
    method Attempt(cancelled: bool) returns (outcome: Option<Outcome>)
      requires Valid() && clock.ready && cell.task.Some? && cell.task.value.Intending?
      modifies this
      ensures Valid() && old(history) <= history && Ticks(old(clock), clock.(ready := true))
      ensures clock.ready <==> outcome != Some(Lost)
      ensures outcome.Some? && outcome.value.Returned? ==>
        cell.task == None && cell.record.Some? && cell.record.value.state == InvocationState.Succeeded && cell.record.value.output == Some(outcome.value.value)
      ensures outcome.Some? && outcome.value.Refused? ==>
        && cell.task == None && cell.record == old(cell).record
        && (!Programs.Catchable(outcome.value.error) || clock.now >= clock.deadlineAt)
      ensures outcome.Some? && !outcome.value.Lost? ==> Ended(op, history, outcome.value)
      ensures KeepsInput(old(cell).record, old(cell).task.value.input, cell.record)
      ensures outcome.None? ==>
        && cell.task.Some? && cell.task.value.Failing? && cell.record.Some?
        && cell.record.value.attempts == (if old(cell).record.Some? then old(cell).record.value.attempts + 1 else 1)
        && FailureApplies(cell.record, cell.task.value.attempt)
    {
      hide Programs.Catchable, Sound, Next, Enabled, Exits, History, FailureApplies, Intent;
      Interfere();
      Known();
      if !clock.ready {
        return Some(Lost);
      }
      // the token may fire while the attempt waits for a permit
      var token: bool, overBudget: bool := *, *;
      token := token || cancelled || clock.cancelRequested;
      if token || clock.now >= clock.deadlineAt || overBudget {
        var code := if token then "operation.cancelled"
                    else if clock.now >= clock.deadlineAt then "operation.timeout" else "resource.limit";
        Boundary(code);
        outcome := Some(Refused(Plain(code)));
        Abandoned(op, Snap(cell, clock), outcome.value);
        Step(Abandon);
        return;
      }
      var attempt := FreshAttempt();
      IntentMeans(op, Snap(cell, clock), attempt);
      Step(Intend(attempt));
      outcome := Call(attempt);
    }

    /** From the committed intent to the answer's commit. */
    method Call(attempt: string) returns (outcome: Option<Outcome>)
      requires Valid() && clock.ready && cell.task == Some(Intended(attempt)) && cell.record.Some?
      modifies this
      ensures Valid() && old(history) <= history && Ticks(old(clock), clock.(ready := true))
      ensures clock.ready <==> outcome != Some(Lost)
      ensures outcome.Some? ==> !outcome.value.Refused?
      ensures outcome.Some? && outcome.value.Returned? ==>
        cell.task == None && cell.record.Some? && cell.record.value.state == InvocationState.Succeeded && cell.record.value.output == Some(outcome.value.value)
      ensures outcome.Some? && !outcome.value.Lost? ==> Ended(op, history, outcome.value)
      ensures KeepsInput(old(cell).record, Null, cell.record)
      ensures outcome.None? ==>
        && cell.task.Some? && cell.task.value.Failing? && cell.record == old(cell).record
        && FailureApplies(cell.record, cell.task.value.attempt)
    {
      hide FailureApplies;
      Interfere();
      if !clock.ready {
        return Some(Lost);
      }
      Step(Send);
      Interfere();
      if !clock.ready {
        return Some(Lost);
      }
      var answer := Await(attempt);
      Step(Respond(answer));
      outcome := Conclusion(attempt, answer);
    }

    method Conclusion(attempt: string, answer: Answer) returns (outcome: Option<Outcome>)
      requires Valid() && clock.ready && cell.task == Some(Answered(attempt, answer)) && cell.record.Some?
      modifies this
      ensures Valid() && old(history) <= history && Ticks(old(clock), clock.(ready := true))
      ensures clock.ready <==> outcome != Some(Lost)
      ensures outcome.Some? ==> !outcome.value.Refused?
      ensures outcome.Some? && outcome.value.Returned? ==>
        cell.task == None && cell.record.Some? && cell.record.value.state == InvocationState.Succeeded && cell.record.value.output == Some(outcome.value.value)
      ensures outcome.Some? && !outcome.value.Lost? ==> Ended(op, history, outcome.value)
      ensures KeepsInput(old(cell).record, Null, cell.record)
      ensures outcome.None? ==>
        && cell.task.Some? && cell.task.value.Failing? && cell.record == old(cell).record
        && FailureApplies(cell.record, cell.task.value.attempt)
    {
      hide Next, Enabled, Sound, Exits, History, FailureApplies;
      Interfere();
      if !clock.ready {
        return Some(Lost);
      }
      Known();
      var refused: Option<ForgeError>, cancelled: bool := *, *;
      ghost var before := Snap(cell, clock);
      Concluded(op, before, attempt, answer, refused, cancelled);
      Step(Confirm(refused, cancelled));
      outcome := if cell.task == None then Some(Returned(answer.value)) else None;
    }

    method Begin(input: Value)
      requires Valid() && clock.ready && cell.task == None
      modifies this
      ensures Valid() && old(history) <= history && clock == old(clock) && cell == old(cell).(task := Some(Looking(input)))
    {
      Step(Enter(input));
    }

    /** The head of the loop: read the record and the clock, and decide. */
    method Examine(cancelled: bool)
      requires Valid() && clock.ready && cell.task.Some? && cell.task.value.Looking?
      modifies this
      ensures Valid() && old(history) <= history && clock == old(clock) && cell.record == old(cell).record
      ensures cell.task == None ==> Ended(op, history, Leave(cell.record, clock, cancelled))
      ensures cell.task == LookAt(op, old(cell).task.value.input, cell.record, clock, cancelled)
      ensures cell.task.Some? ==> GoesOn(op, old(cell).task.value.input, cell.record, clock, cancelled, cell.task.value)
    {
      hide CallsFit, UnsafeFits;
      Known();
      Step(Look(cancelled));
    }

    /** Commit the classified failure; a retry already refused by cancellation or deadline is not scheduled again. */
    method ReportFailure() returns (alive: bool)
      requires Valid() && clock.ready && cell.task.Some? && cell.task.value.Failing? && cell.record.Some?
      requires FailureApplies(cell.record, cell.task.value.attempt)
      modifies this
      ensures Valid() && old(history) <= history && Ticks(old(clock), clock.(ready := true))
      ensures alive <==> clock.ready
      ensures !alive ==> cell.record == old(cell).record
      ensures alive ==>
        && cell.task.Some? && cell.task.value.Looking? && cell.record.Some?
        && cell.record.value.attempts == old(cell).record.value.attempts
        && cell.record.value.input == old(cell).record.value.input
        && (Refusing(old(clock), old(cell).task.value.report) ==> cell.record.value.state != RetryScheduled)
    {
      Interfere();
      if !clock.ready {
        return false;
      }
      var delay :| delay >= 0;
      FailedSchedule(op.descriptor, cell.record.value, cell.task.value.report, MomentAt(clock, clock.now + delay));
      hide ClassifyFailure;
      Step(CellEvent.Fail(clock.now + delay));
      return true;
    }

    /** Past the head of the loop: an attempt if one is due, then its failure. */
    method Proceed(ghost input: Value, cancelled: bool) returns (ended: Option<Outcome>)
      requires Valid() && clock.ready && cell.task.Some? && !cell.task.value.Looking?
      requires exists given :: (cell.record.None? ==> given == input) && GoesOn(op, given, cell.record, clock, cancelled, cell.task.value)
      modifies this
      ensures Valid() && old(history) <= history
      ensures ended.Some? ==> cell.task == None && (ended.value.Lost? <==> !clock.ready) && (!ended.value.Lost? ==> Ended(op, history, ended.value))
      ensures ended.None? ==> clock.ready && cell.task.Some? && cell.task.value.Looking? && cell.record.Some?
      ensures ended.None? && Budget(op, cell.record) >= Budget(op, old(cell).record) ==>
        Budget(op, cell.record) == Budget(op, old(cell).record) && Rank(cell.record) < Rank(old(cell).record)
      ensures KeepsInput(old(cell).record, input, cell.record)
    {
      hide Next, Enabled, Sound, History, Ended, LookAt, Programs.Catchable;
      if cell.task.value.Intending? {
        var attempted := Attempt(cancelled);
        if attempted.Some? {
          if !clock.ready {
            Stopped();
          }
          return attempted;
        }
      }
      var alive := ReportFailure();
      if !alive {
        Stopped();
        return Some(Lost);
      }
      return None;
    }

    /** The loop itself: every way out of it is one of the exits, and its own input is kept. */
    method Drive(input: Value) returns (outcome: Outcome)
      requires Valid() && clock.ready && cell.task.Some? && cell.task.value.Looking? && cell.task.value.input == input
      modifies this
      ensures Valid() && old(history) <= history && cell.task == None
      ensures outcome.Lost? <==> !clock.ready
      ensures !outcome.Lost? ==> Ended(op, history, outcome)
      ensures KeepsInput(old(cell).record, input, cell.record)
    {
      hide Next, Enabled, Sound, History, Leave, Ended, LookAt, Programs.Catchable;
      var cancelled := false;
      while true
        invariant Valid() && old(history) <= history
        invariant clock.ready && cell.task.Some? && cell.task.value.Looking?
        invariant KeepsInput(old(cell).record, input, cell.record)
        invariant cell.record.None? ==> old(cell).record.None? && cell.task.value.input == input
        decreases Budget(op, cell.record), Rank(cell.record), Sleeps(cell.record, clock, cancelled)
      {
        Interfere();
        if !clock.ready {
          Stopped();
          return Lost;
        }
        if * { cancelled := true; }
        ghost var given := cell.task.value.input;
        Examine(cancelled);
        if cell.task == None {
          return Leave(cell.record, clock, cancelled);
        }
        if cell.task.value.Looking? {
          // asleep until the attempt is due, or until cancellation is observed
          if * {
            cancelled := true;
          } else {
            Tick(cell.record.value.nextAttemptAt.value - clock.now, false);
          }
          continue;
        }
        assert (cell.record.None? ==> given == input) && GoesOn(op, given, cell.record, clock, cancelled, cell.task.value);
        var ended := Proceed(input, cancelled);
        if ended.Some? {
          return ended.value;
        }
      }
    }

    /**
     The dispatch loop. It returns a value only when the record confirms exactly that value,
     it refuses only when no attempt of its own is left running, and it always terminates.
     */
    method ExecuteOperation(input: Value) returns (outcome: Outcome)
      requires Valid() && clock.ready && cell.task == None
      modifies this
      ensures Valid() && old(history) <= history
      ensures outcome.Lost? <==> !clock.ready
      ensures cell.task == None
      ensures !outcome.Lost? ==> Ended(op, history, outcome)
      ensures KeepsInput(old(cell).record, input, cell.record)
      ensures outcome.Returned? ==>
        cell.record.Some? && cell.record.value.state == InvocationState.Succeeded && cell.record.value.output == Some(outcome.value)
      ensures outcome.Refused? && cell.record.Some? ==>
        cell.record.value.state != InvocationState.Running && cell.record.value.state != InvocationState.Succeeded
      ensures outcome.Refused? && cell.record.Some? && cell.record.value.state == InvocationState.Unknown ==>
        outcome.error.Code() == "effect.unknown"
      ensures outcome.Refused? && cell.record.Some? && cell.record.value.IsUnresolved() ==>
        !Programs.Catchable(outcome.error) || clock.now >= clock.deadlineAt
      ensures DispatchLaws.AlwaysInTime(op, history)
    {
      hide Next, Enabled, Sound, History, Leave, Ended, Programs.Catchable, DispatchLaws.AlwaysInTime;
      Begin(input);
      outcome := Drive(input);
      DispatchLaws.HistoryInTime(op, history);
      if !outcome.Lost? {
        ExitMeans(op, history, outcome);
      }
    }
  }

  /** Giving up before an intent changes no record. */
  lemma Abandoned(op: OpPlan, a: Snap, outcome: Outcome)
    requires a.clock.ready && a.cell.task.Some? && a.cell.task.value.Intending? && GivesUp(a.clock, outcome)
    ensures Enabled(op, a.cell, a.clock, Abandon)
    ensures var b := Snap(Next(op, a.cell, a.clock, Abandon), a.clock);
      b.cell.task == None && b.cell.record == a.cell.record && Exits(op, a, b, outcome)
  {
    assert Took(op, a, Snap(Next(op, a.cell, a.clock, Abandon), a.clock), Abandon);
  }

  /** The intent of a fresh attempt: one more attempt, the same input. */
  lemma IntentMeans(op: OpPlan, a: Snap, attempt: string)
    requires SnapSound(op, a) && a.clock.ready && a.cell.task.Some? && a.cell.task.value.Intending?
    requires attempt !in a.cell.world.issued && !a.clock.cancelRequested && a.clock.now < a.clock.deadlineAt
    ensures Enabled(op, a.cell, a.clock, Intend(attempt))
    ensures var c := Next(op, a.cell, a.clock, Intend(attempt));
      && c.task == Some(Intended(attempt)) && c.record.Some? && c.record.value.state == InvocationState.Running
      && c.record.value.attempts == (if a.cell.record.Some? then a.cell.record.value.attempts + 1 else 1)
      && KeepsInput(a.cell.record, a.cell.task.value.input, c.record)
  {
    hide CallsFit, UnsafeFits, RecordFits;
  }

  /** The commit of an answer: the confirmed result ends the loop, anything else is a failure of this attempt. */
  lemma Concluded(op: OpPlan, a: Snap, attempt: string, answer: Answer, refused: Option<ForgeError>, cancelled: bool)
    requires SnapSound(op, a) && a.clock.ready && a.cell.task == Some(Answered(attempt, answer)) && a.cell.record.Some?
    ensures Enabled(op, a.cell, a.clock, Confirm(refused, cancelled))
    ensures var b := Snap(Next(op, a.cell, a.clock, Confirm(refused, cancelled)), a.clock);
      if b.cell.task == None then
        && answer.Output? && Exits(op, a, b, Returned(answer.value))
        && b.cell.record.Some? && b.cell.record.value.state == InvocationState.Succeeded && b.cell.record.value.output == Some(answer.value)
      else
        && b.cell.task.value.Failing? && b.cell.record == a.cell.record && FailureApplies(b.cell.record, b.cell.task.value.attempt)
  {
    var b := Snap(Next(op, a.cell, a.clock, Confirm(refused, cancelled)), a.clock);
    assert a.cell.record.value.attemptId == attempt && a.cell.record.value.state == InvocationState.Running;
    hide Sound;
    if b.cell.task == None {
      assert Confirms(op, a, b, refused, cancelled, Returned(answer.value));
    }
  }

  /** An unconfirmed record has the input of the record before it, or the one given when there was none. */
  predicate KeepsInput(before: Option<InvocationRecord>, input: Value, after: Option<InvocationRecord>) {
    && (before.Some? ==> after.Some?)
    && (after.Some? && after.value.state != InvocationState.Succeeded ==>
          after.value.input == if before.Some? then before.value.input else input)
  }

  lemma MayRecover(op: OpPlan, c: Cell, clock: Clock, at: nat)
    requires !clock.ready && c.record.Some? && c.record.value.state == InvocationState.Running && clock.now <= at
    ensures Enabled(op, c, clock, CellEvent.Recover(at))
  {
  }

  /** Why the head of the loop goes on: asleep before a retry is due, with budget for an attempt, or to give a retry up. */
  predicate GoesOn(op: OpPlan, input: Value, record: Option<InvocationRecord>, clock: Clock, cancelled: bool, next: Task) {
    match next
    case Looking(again) =>
      && again == input && record.Some? && record.value.state == RetryScheduled
      && record.value.nextAttemptAt.Some? && record.value.nextAttemptAt.value > clock.now
      && !cancelled && !clock.cancelRequested && clock.now < clock.deadlineAt
    case Intending(again, previous) =>
      && again == input && previous == record && op.retry.maxAttempts >= 1
      && (record.Some? ==>
            && record.value.attempts < op.retry.maxAttempts
            && (record.value.state == InvocationState.Pending || record.value.state == RetryScheduled))
    case Failing(attempt, report) =>
      record.Some? && record.value.state == RetryScheduled && FailureApplies(record, attempt) && Refusing(clock, report)
    case _ => false
  }

  /** A running record that recovery reclassified is not running. */
  lemma Reclassified(op: OpPlan, c: Cell, clock: Clock, at: nat)
    requires Enabled(op, c, clock, CellEvent.Recover(at))
    ensures var after := Next(op, c, clock, CellEvent.Recover(at));
      after.record.Some? && after.record.value.state != InvocationState.Running && after.task == c.task
  {
  }

  lemma BecomesReady(op: OpPlan, a: Snap, b: Snap)
    requires b.cell == a.cell && !a.clock.ready && b.clock == a.clock.(ready := true)
    requires a.cell.record.Some? ==> a.cell.record.value.state != InvocationState.Running
    ensures Moves(op, a, b)
  {
  }

  lemma Extend(op: OpPlan, h: seq<Snap>, before: Snap, after: Snap)
    requires History(op, h) && h[|h| - 1] == before && Moves(op, before, after)
    ensures History(op, h + [after])
  {
    hide Moves;
    var longer := h + [after];
    forall i | 0 < i < |longer|
      ensures Moves(op, longer[i - 1], longer[i])
    {
      if i < |h| {
        assert longer[i] == h[i] && longer[i - 1] == h[i - 1];
      }
    }
  }

  predicate Refusing(clock: Clock, report: FailureReport) {
    clock.cancelRequested || report.cancelled || clock.now >= clock.deadlineAt
  }

  /** The loop's measure: attempts left, then whether a retry is scheduled, then whether it is not yet due. */
  function Budget(op: OpPlan, record: Option<InvocationRecord>): nat {
    var used := if record.Some? then record.value.attempts else 0;
    if used < op.retry.maxAttempts then op.retry.maxAttempts - used else 0
  }

  function Rank(record: Option<InvocationRecord>): nat {
    if record.Some? && record.value.state == RetryScheduled then 1 else 0
  }

  function Sleeps(record: Option<InvocationRecord>, clock: Clock, cancelled: bool): nat {
    if record.Some? && record.value.state == RetryScheduled && !cancelled && !clock.cancelRequested
       && clock.now < clock.deadlineAt && record.value.nextAttemptAt.Some? && record.value.nextAttemptAt.value > clock.now
    then 1 else 0
  }
}
