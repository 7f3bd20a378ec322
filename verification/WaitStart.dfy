/**
 Signal waits whose reservation is opened by an operation. Their expiry can leave that operation
 unresolved behind an error that a workflow may catch, for exactly the repeatable writes with more
 than one attempt.
 */
module WaitStart {
  import opened Wrappers
  import opened Json
  import opened Protocol
  import opened Effects
  import opened Dispatch
  import DispatchLoop
  import Programs

  /** How a start's outcome becomes the wait's, once the reservation may have expired meanwhile. */
  function StartOutcome(timedOut: bool, outcome: DispatchLoop.Outcome): Result<(), ForgeError> {
    match outcome
    case Refused(error) => if timedOut && error.Code() != "effect.unknown" then Err(Plain("wait.expired")) else Err(error)
    case Returned(_) => if timedOut then Err(Plain("wait.expired")) else Ok(())
    case Lost => Err(Plain("store.failed"))
  }

  /** An expiry outranks every answer of the start but an unknown effect; without one the start's own answer stands. */
  lemma ExpiryOutranks(outcome: DispatchLoop.Outcome)
    requires !outcome.Lost?
    ensures StartOutcome(false, outcome).Ok? <==> outcome.Returned?
    ensures outcome.Refused? ==> StartOutcome(false, outcome) == Err(outcome.error)
    ensures outcome.Refused? && outcome.error.Code() == "effect.unknown" ==> StartOutcome(true, outcome) == Err(outcome.error)
    ensures !(outcome.Refused? && outcome.error.Code() == "effect.unknown") ==> StartOutcome(true, outcome) == Err(Plain("wait.expired"))
  {
  }

  function InDoubt(): ForgeError { OperationFailure("op", Transient, EffectCertainty.Unknown) }

  function At(now: nat): Clock { Clock(now, 1000, false, true) }

  /** One attempt with an unknown outcome, a scheduled retry, and a second intent that expiry abandons. */
  function Scenario(op: OpPlan): seq<Snap> {
    var s0 := Cell(None, None, EMPTY_WORLD);
    var s1 := s0.(task := Some(Looking(Null)));
    var s2 := s0.(task := Some(Intending(Null, None)));
    var r := Intent(op, "a", Null, None);
    var s3 := Cell(Some(r), Some(Intended("a")), World({"a"}, [], {}, []));
    var w := World({"a"}, [Call("a", op.EffectKey(), Null)], {"a"}, []);
    var s4 := Cell(Some(r), Some(Calling("a")), w);
    var s5 := Cell(Some(r), Some(Answered("a", Answer.Fault(InDoubt()))), w);
    var s6 := Cell(Some(r), Some(Failing("a", FailureReport(InDoubt(), false, false))), w);
    var f := FailedRecord(op.descriptor, r, FailureReport(InDoubt(), false, false), MomentAt(At(0), 10));
    var s7 := Cell(Some(f), Some(Looking(Null)), w);
    var s8 := Cell(Some(f), Some(Intending(Null, Some(f))), w);
    var s9 := Cell(Some(f), None, w);
    [Snap(s0, At(0)), Snap(s1, At(0)), Snap(s2, At(0)), Snap(s3, At(0)), Snap(s4, At(0)), Snap(s5, At(0)), Snap(s6, At(0)),
     Snap(s7, At(0)), Snap(s7, At(10)), Snap(s8, At(10)), Snap(s9, At(10))]
  }

  lemma ScenarioEvents(op: OpPlan)
    requires op.MayHide()
    ensures var h := Scenario(op);
      Moves(op, h[0], h[1]) && Moves(op, h[1], h[2]) && Moves(op, h[2], h[3])
  {
    var h := Scenario(op);
    assert Enabled(op, h[0].cell, h[0].clock, Enter(Null)) && h[1].cell == Next(op, h[0].cell, h[0].clock, Enter(Null));
    assert Enabled(op, h[1].cell, h[1].clock, Look(false)) && h[2].cell == Next(op, h[1].cell, h[1].clock, Look(false));
    assert Enabled(op, h[2].cell, h[2].clock, Intend("a")) && h[3].cell == Next(op, h[2].cell, h[2].clock, Intend("a"));
  }

  lemma ScenarioAttempt(op: OpPlan)
    requires op.MayHide()
    ensures var h := Scenario(op);
      Moves(op, h[3], h[4]) && Moves(op, h[4], h[5]) && Moves(op, h[5], h[6])
  {
    var h := Scenario(op);
    assert Enabled(op, h[3].cell, h[3].clock, Send) && h[4].cell == Next(op, h[3].cell, h[3].clock, Send);
    var answer := Respond(Answer.Fault(InDoubt()));
    assert Enabled(op, h[4].cell, h[4].clock, answer) && h[5].cell == Next(op, h[4].cell, h[4].clock, answer);
    var conclude := Confirm(None, false);
    assert Enabled(op, h[5].cell, h[5].clock, conclude) && h[6].cell == Next(op, h[5].cell, h[5].clock, conclude);
  }

  lemma ScenarioEnds(op: OpPlan)
    requires op.MayHide()
    ensures var h := Scenario(op);
      && Moves(op, h[6], h[7]) && Moves(op, h[7], h[8]) && Moves(op, h[8], h[9]) && Moves(op, h[9], h[10])
      && h[10].cell.record.Some? && h[10].cell.record.value.state == RetryScheduled
      && h[10].cell.record.value.certainty == EffectCertainty.Unknown && h[10].cell.record.value.operation.Some?
      && DispatchLoop.Ended(op, h, DispatchLoop.Refused(Plain("operation.cancelled")))
  {
    var h := Scenario(op);
    assert CauseOf(InDoubt()) == Some(OperationError("op", Transient, EffectCertainty.Unknown));
    var fail := CellEvent.Fail(10);
    assert Enabled(op, h[6].cell, h[6].clock, fail) && h[7].cell == Next(op, h[6].cell, h[6].clock, fail);
    assert Ticks(h[7].clock, h[8].clock);
    assert Enabled(op, h[8].cell, h[8].clock, Look(false)) && h[9].cell == Next(op, h[8].cell, h[8].clock, Look(false));
    assert Enabled(op, h[9].cell, h[9].clock, Abandon) && h[10].cell == Next(op, h[9].cell, h[9].clock, Abandon);
  }

  predicate Doubtful(s: Snap) { s.cell.record.Some? && s.cell.record.value.IsUnresolved() }

  /** The wait that was opened by `op` answers with an error a handler may catch while the effect of `op` is unresolved. */
  ghost predicate Hidden(op: OpPlan, h: seq<Snap>, outcome: DispatchLoop.Outcome, timedOut: bool) {
    && History(op, h) && DispatchLoop.Ended(op, h, outcome)
    && Doubtful(h[|h| - 1]) && h[|h| - 1].clock.now < h[|h| - 1].clock.deadlineAt
    && StartOutcome(timedOut, outcome).Err? && Programs.Catchable(StartOutcome(timedOut, outcome).error)
  }

  ghost predicate Hides(op: OpPlan) {
    exists h, outcome, timedOut :: Hidden(op, h, outcome, timedOut)
  }

  /**
   The reservation expires while the start waits for capacity between two attempts: the loop leaves
   with a cancellation, the wait reports its own expiry, which is catchable, and the effect of the
   start is still unresolved.
   */
  lemma ExpiryMayHideAnUnresolvedStart(op: OpPlan)
    requires op.MayHide()
    ensures exists h: seq<Snap> :: Hidden(op, h, DispatchLoop.Refused(Plain("operation.cancelled")), true)
    ensures StartOutcome(true, DispatchLoop.Refused(Plain("operation.cancelled"))) == Err(Plain("wait.expired"))
  {
    var h := Scenario(op);
    ScenarioEvents(op);
    ScenarioAttempt(op);
    ScenarioEnds(op);
    hide Next, Enabled, Moves, FailedRecord;
    forall i | 0 < i < |h|
      ensures Moves(op, h[i - 1], h[i])
    {
      assert i == 1 || i == 2 || i == 3 || i == 4 || i == 5 || i == 6 || i == 7 || i == 8 || i == 9 || i == 10;
    }
    assert History(op, h);
    assert Hidden(op, h, DispatchLoop.Refused(Plain("operation.cancelled")), true);
  }

  /** An expiry, or any other answer of a start, can hide an unresolved effect exactly when the start may be repeated. */
  lemma HidesExactlyRepeatableWrites(op: OpPlan)
    ensures Hides(op) <==> op.MayHide()
  {
    if op.MayHide() {
      ExpiryMayHideAnUnresolvedStart(op);
    }
    forall h, outcome, timedOut | Hidden(op, h, outcome, timedOut)
      ensures op.MayHide()
    {
      DispatchLoop.ExitMeans(op, h, outcome);
      StartAnswer(op, h[|h| - 1], outcome, timedOut);
    }
  }

  /** What a handler may catch from a start leaves nothing unresolved, unless the start may hide it. */
  lemma StartAnswer(op: OpPlan, last: Snap, outcome: DispatchLoop.Outcome, timedOut: bool)
    requires DispatchLoop.Agrees(op, last, outcome)
    ensures var answer := StartOutcome(timedOut, outcome);
      && (answer.Ok? ==> last.cell.record.Some? && last.cell.record.value.state == InvocationState.Succeeded)
      && (Doubtful(last) ==>
            answer.Err? && (!Programs.Catchable(answer.error) || last.clock.now >= last.clock.deadlineAt || op.MayHide()))
  {
    if outcome.Refused? && outcome.error.Code() == "effect.unknown" {
      DispatchLoop.BoundaryError(outcome.error);
    }
    hide Programs.Catchable;
  }
}
