/** The interpreter's methods over one run's checkpoint. */
module Execution {
  import opened Wrappers
  import opened Json
  import opened Protocol
  import opened Programs
  import C = ControlLaws
  import opened Resumption
  import opened Interpreter
  import opened Steps
  import D = Dispatch
  import L = DispatchLoop
  import P = Pointer
  import Groups
  import WaitStart

  class Run {
    const env: Env
    /** Whether preparation has excluded starts that may hide their effect. */
    const guarded: bool
    var store: Store
    ghost var log: Log
    /** For every group, which children threw what. */
    ghost var thrown: map<Path, set<Throw>>
    var expired: bool
    var cancelled: bool

    ghost function Now(): Sight
      reads this
    {
      Sight(store, log, thrown, expired, guarded)
    }

    constructor (env: Env, guarded: bool)
      ensures this.env == env && this.guarded == guarded
      ensures store == map[] && log == map[] && thrown == map[] && !expired && !cancelled
    {
      this.env, this.guarded := env, guarded;
      store, log, thrown, expired, cancelled := map[], map[], map[], false, false;
    }

    /** The deadline passes and cancellation arrives when they will; neither goes away. */
    method Drift()
      modifies this`expired, this`cancelled
      ensures Drifted(old(Now()), Now()) && (old(cancelled) ==> cancelled)
    {
      if * { expired := true; }
      if * { cancelled := true; }
    }

    /** A body: skip what is confirmed, run the next node, and give up where it gives up. */
    method ExecuteBody(body: Body, input: Value, path: Path) returns (r: Step)
      requires Named(body, guarded) && BodyFits(env, body, input, path, Now())
      modifies this
      ensures OutsideSame(old(Now()), Now(), path) && BodyFits(env, body, input, path, Now())
      ensures !r.Aborted?
      ensures r.Returned? ==> EvalBody(env, body, input, path, log) == Ok(r.value) && Clean(Now(), path)
      ensures r.Thrown? ==> EvalBody(env, body, input, path, log) == Err(r.error) && Harmless(Now(), path, r.error)
      ensures r.Returned? ==> AllConfirmed(body, path, store)
      ensures AllConfirmed(body, path, old(store)) ==> Unmoved(old(Now()), Now())
      decreases body, 0
    {
      hide Walking, BodyFits, InstrFits, EvalNode, NodePassed, NodesFit, OutsideSame, Clean, NamedInstr, Confirmed, Named, EvalBody, NoneOf,
        NodeFails, Passed, AllConfirmed, Unmoved;
      var outputs: map<string, Value> := map[];
      ghost var outs: seq<map<string, Value>> := [outputs];
      var i := 0;
      BodyStart(env, body, input, outs, path, Now());
      UnmovedSelf(Now());
      while i < |body.nodes|
        invariant i <= |body.nodes| && |outs| == i + 1 && outs[i] == outputs
        invariant Walking(env, body, i, input, outs, path, old(Now()), Now())
        invariant AllConfirmed(body, path, old(store)) ==> Unmoved(old(Now()), Now())
        decreases |body.nodes| - i
      {
        ghost var before := Now();
        NextNode(env, body, i, input, outs, path, old(Now()), before);
        OneConfirmed(body, i, path, old(Now()), before);
        r := ExecuteNode(body.nodes[i], input, outputs, path);
        WalkOn(env, body, i, input, outs, path, old(Now()), before, Now());
        if Unmoved(old(Now()), before) {
          UnmovedTrans(old(Now()), before, Now());
        }
        if r.Thrown? {
          BodyFailed(env, body, i, input, outs, path, Now(), r.error);
        }
        if !r.Returned? {
          return;
        }
        WalkPast(env, body, i, input, outs, outputs[body.nodes[i].id := r.value], path, old(Now()), Now());
        outputs := outputs[body.nodes[i].id := r.value];
        outs := outs + [outputs];
        i := i + 1;
      }
      WalkEnds(env, body, i, input, outs, path, old(Now()), Now());
      BodyDone(env, body, input, outs, path, Now());
      var result := env.evaluate(body.output, input, outputs);
      r := if result.Ok? then Returned(result.value) else Thrown(result.error);
    }

    /** A node: a settled record speaks for itself; otherwise look around and run its instruction. */
    method ExecuteNode(n: Node, input: Value, outputs: map<string, Value>, path: Path) returns (r: Step)
      requires NamedInstr(n.instr, guarded) && NodesFit(env, [n], input, outputs, path, Now())
      modifies this
      ensures OutsideSame(old(Now()), Now(), KeyOf(path, n.id)) && NodesFit(env, [n], input, outputs, path, Now())
      ensures !r.Aborted?
      ensures Confirmed(old(store), KeyOf(path, n.id)) ==>
        (r.Returned? || r.Down?) && Unmoved(old(Now()), Now())
      ensures r.Returned? ==> NodePassed(env, n, input, outputs, outputs[n.id := r.value], path, Now())
      ensures r.Thrown? ==>
        NodeFails(env, n, input, outputs, path, log, r.error) && Harmless(Now(), KeyOf(path, n.id), r.error)
      decreases n, 3
    {
      hide NodesFit, NodePassed, NodeFails, NamedInstr, OutsideSame, Clean, InstrFits, Catchable, Loose, EvalNode, Kept, Harmless, RecordedError, TimeoutError, FaultExplained;
      var key := KeyOf(path, n.id);
      ghost var before := Now();
      Drift();
      ghost var drifted := Now();
      DriftKeeps(env, n, input, outputs, path, before, Now());
      var stop: bool := *;
      if stop {
        return Down;
      }
      if Confirmed(store, key) {
        ConfirmedPasses(env, n, input, outputs, path, Now());
        return Returned(store[key].output.value);
      }
      if key in store && Settled(store[key]) {
        SettledFails(env, n, input, outputs, path, Now());
        return Thrown(RecordedError(store[key]));
      }
      var halted: bool, unresolved: bool := *, *;
      unresolved := unresolved && n.instr.Operation? && key in store && store[key].state == InvocationState.Unknown;
      if halted || cancelled || expired || unresolved {
        var e := if halted || cancelled then CancelError() else if expired then TimeoutError() else UnknownError();
        NeverCaught();
        Observe(n, input, outputs, path, e);
        OutsideTrans(before, drifted, Now(), key);
        return Thrown(e);
      }
      r := RunNode(n, input, outputs, path);
      OutsideTrans(before, drifted, Now(), key);
    }

    /** An unfinished node runs: its input is the recorded one, or evaluated now. */
    method RunNode(n: Node, input: Value, outputs: map<string, Value>, path: Path) returns (r: Step)
      requires NamedInstr(n.instr, guarded) && NodesFit(env, [n], input, outputs, path, Now()) && !Final(store, KeyOf(path, n.id))
      modifies this
      ensures NodeDone(env, n, input, outputs, path, old(Now()), Now(), r)
      decreases n, 2
    {
      hide NodesFit, NodePassed, NodeFails, NamedInstr, OutsideSame, Clean, InstrFits, Catchable, Loose, EvalNode, Kept;
      var key := KeyOf(path, n.id);
      ghost var before := Now();
      Forget(n, input, outputs, path);
      if key !in store && env.evaluate(n.input, input, outputs).Err? {
        InputFails(env, n, input, outputs, path, Now());
        return Thrown(env.evaluate(n.input, input, outputs).error);
      }
      GivenInput(env, n, input, outputs, path, Now());
      var given := if key in store then store[key].input else env.evaluate(n.input, input, outputs).value;
      ghost var ready := Now();
      if n.instr.Operation? {
        r := ExecuteOperation(n, input, outputs, path, given);
      } else if n.instr.Pause? {
        r := ExecuteWait(n, input, outputs, path, given);
      } else {
        r := ExecuteControl(n, input, outputs, path, given);
      }
      OutsideTrans(before, ready, Now(), key);
    }

    /** A fault of the surroundings is this node's outcome; nothing under it changes. */
    method Observe(n: Node, input: Value, outputs: map<string, Value>, path: Path, e: ForgeError)
      requires NodesFit(env, [n], input, outputs, path, Now()) && !Final(store, KeyOf(path, n.id))
      requires !Catchable(e) || (e == TimeoutError() && expired)
      modifies this`log
      ensures NodesFit(env, [n], input, outputs, path, Now()) && OutsideSame(old(Now()), Now(), KeyOf(path, n.id))
      ensures NodeFails(env, n, input, outputs, path, log, e) && Harmless(Now(), KeyOf(path, n.id), e)
    {
      hide NodesFit, InstrFits, Catchable, Kept, Loose, Clean;
      log := log[KeyOf(path, n.id) := Fault(e)];
      LogAtKey(env, n, input, outputs, path, old(Now()), Now());
      assert Under(KeyOf(path, n.id), KeyOf(path, n.id));
    }

    /** A node that is run again is observed again. */
    method Forget(n: Node, input: Value, outputs: map<string, Value>, path: Path)
      requires NodesFit(env, [n], input, outputs, path, Now()) && !Final(store, KeyOf(path, n.id))
      modifies this`log
      ensures NodesFit(env, [n], input, outputs, path, Now()) && OutsideSame(old(Now()), Now(), KeyOf(path, n.id))
      ensures KeyOf(path, n.id) !in log
    {
      hide NodesFit, InstrFits, Catchable, Kept, Loose, Clean;
      log := log - {KeyOf(path, n.id)};
      LogAtKey(env, n, input, outputs, path, old(Now()), Now());
      assert Under(KeyOf(path, n.id), KeyOf(path, n.id));
    }

    /** Write a leaf's record and observation. */
    method WriteLeaf(n: Node, input: Value, outputs: map<string, Value>, path: Path, given: Value, rec: Rec, ghost seen: Option<Observation>,
                     ghost before: Sight)
      requires OutsideSame(before, Now(), KeyOf(path, n.id))
      requires (n.instr.Operation? || n.instr.Pause?) && Unfinished(env, n, input, outputs, path, given, Now())
      requires LeafAllowed(n.instr, KeyOf(path, n.id), given, rec, seen, Now())
      modifies this`store, this`log
      ensures OutsideSame(before, Now(), KeyOf(path, n.id)) && NodesFit(env, [n], input, outputs, path, Now())
      ensures store == old(store)[KeyOf(path, n.id) := rec]
      ensures log == if seen.Some? then old(log)[KeyOf(path, n.id) := seen.value] else old(log)
      ensures rec.state == InvocationState.Succeeded ==> NodePassed(env, n, input, outputs, outputs[n.id := rec.output.value], path, Now())
      ensures !rec.Unresolved() && StartSettled(n.instr, KeyOf(path, n.id), old(Now())) ==> Clean(Now(), KeyOf(path, n.id))
    {
      hide NodesFit, NodePassed, NamedInstr, EvalNode, InstrFits, Clean, Unfinished, OutsideSame, LeafAllowed, StartSettled;
      var key := KeyOf(path, n.id);
      store := store[key := rec];
      if seen.Some? {
        log := log[key := seen.value];
      }
      OwnKeyOnly(old(Now()), Now(), key);
      LeafKeeps(env, n, input, outputs, path, given, old(Now()), Now(), seen);
      OutsideTrans(before, old(Now()), Now(), key);
    }

    /** A leaf refused before anything was recorded. */
    method RefuseLeaf(n: Node, input: Value, outputs: map<string, Value>, path: Path, given: Value, e: ForgeError, ghost before: Sight)
      returns (r: Step)
      requires OutsideSame(before, Now(), KeyOf(path, n.id)) && KeyOf(path, n.id) !in store
      requires (n.instr.Operation? || n.instr.Pause?) && Unfinished(env, n, input, outputs, path, given, Now())
      modifies this`log
      ensures NodeDone(env, n, input, outputs, path, before, Now(), r) && r.Thrown?
    {
      hide NodesFit, NodePassed, NodeFails, NamedInstr, EvalNode, InstrFits, Clean, Unfinished, OutsideSame;
      log := log[KeyOf(path, n.id) := Fault(e)];
      LeafRefused(env, n, input, outputs, path, given, old(Now()), Now(), e);
      OutsideTrans(before, old(Now()), Now(), KeyOf(path, n.id));
      return Thrown(e);
    }

    /** The dispatch loop over an operation as its record left it, recovered and as reconciliation settled it since. */
    method Reopen(op: D.OpPlan, opens: bool, was: Option<Rec>) returns (loop: L.Runtime, ghost start: nat)
      requires op.retry.maxAttempts >= 1 && (was.Some? ==> Kept(op, opens, was.value))
      ensures fresh(loop) && loop.Valid() && loop.op == op && loop.clock.ready && loop.cell.task == None
      ensures start < |loop.history|
      ensures loop.history[start].cell.record == if was.Some? then was.value.effect.value.last.cell.record else None
      ensures was.None? ==> loop.cell.record.None?
    {
      hide D.History, Catchable;
      if was.Some? {
        var at := was.value.effect.value.last;
        ghost var past :| past != [] && D.History(op, past) && past[|past| - 1] == at;
        loop := new L.Runtime.Resume(op, at, past);
      } else {
        var deadlineAt: nat := *;
        loop := new L.Runtime(op, deadlineAt);
      }
      start := |loop.history| - 1;
      loop.Recover();
      loop.Reconcile();
    }

    /**
     One lifetime of an operation's dispatch, resumed where its record stands. The deadline it saw
     has passed for the run too.
     */
    method Dispatch(op: D.OpPlan, opens: bool, was: Option<Rec>, given: Value) returns (last: D.Snap, outcome: L.Outcome)
      requires op.retry.maxAttempts >= 1 && (was.Some? ==> Kept(op, opens, was.value))
      modifies this`expired, this`cancelled
      ensures Drifted(old(Now()), Now())
      ensures Reached(op, last) && last.cell.task == None
      ensures L.KeepsInput(if was.Some? then was.value.effect.value.last.cell.record else None, given, last.cell.record)
      ensures !outcome.Lost? ==> L.Agrees(op, last, outcome) && (last.clock.now >= last.clock.deadlineAt ==> expired)
    {
      hide D.History, L.Ended, L.Agrees, Kept, Catchable, L.Settles;
      var loop, start := Reopen(op, opens, was);
      var elapsed: nat :| elapsed >= 0;
      loop.Tick(if expired then elapsed + loop.clock.deadlineAt else elapsed, cancelled);
      outcome := loop.ExecuteOperation(given);
      last := D.Snap(loop.cell, loop.clock);
      if was.Some? {
        KeptRecord(op, opens, was.value);
        InputCarried(op, loop.history, start, given);
      }
      if !outcome.Lost? {
        L.ExitMeans(op, loop.history, outcome);
      }
      expired := expired || loop.clock.now >= loop.clock.deadlineAt;
      cancelled := cancelled || loop.clock.cancelRequested;
    }

    /**
     An operation: its dispatch loop decides, and what the loop leaves behind is what the record
     shows. An unresolved effect leaves with an error no handler may catch before the deadline.
     */
    method ExecuteOperation(n: Node, input: Value, outputs: map<string, Value>, path: Path, given: Value) returns (r: Step)
      requires n.instr.Operation? && Unfinished(env, n, input, outputs, path, given, Now())
      modifies this
      ensures NodeDone(env, n, input, outputs, path, old(Now()), Now(), r)
      decreases n, 0
    {
      hide NodesFit, NodePassed, NodeFails, NamedInstr, OutsideSame, Clean, Kept, LeafAllowed, Unfinished, NodeDone;
      ghost var before := Now();
      var key, op := KeyOf(path, n.id), OpAt(n.instr.op, KeyOf(path, n.id));
      Drift();
      DriftReady(env, n, input, outputs, path, given, before, Now());
      var stop: bool, invalid: bool := *, *;
      if stop {
        StoppedLeaf(env, n, input, outputs, path, given, before, Now());
        return Down;
      }
      if key !in store && invalid {
        // the input breaks the operation's contract
        var e: ForgeError := *;
        r := RefuseLeaf(n, input, outputs, path, given, e, before);
        return;
      }
      OperationKept(env, n, input, outputs, path, given, Now());
      var was := if key in store then Some(store[key]) else None;
      ghost var ready := Now();
      var last, outcome := Dispatch(op, false, was, given);
      DriftReady(env, n, input, outputs, path, given, ready, Now());
      OutsideTrans(before, ready, Now(), key);
      if last.cell.record.None? {
        if outcome.Lost? {
          StoppedLeaf(env, n, input, outputs, path, given, before, Now());
          return Down;
        }
        AnswerMeans(op, false, last, outcome);
        NothingRecorded(op, was, given, last);
        r := RefuseLeaf(n, input, outputs, path, given, outcome.error, before);
        return;
      }
      r := RecordOperation(n, input, outputs, path, given, was, last, outcome, before);
    }

    /** Write what a dispatch shows, and pass its answer on. */
    method RecordOperation(n: Node, input: Value, outputs: map<string, Value>, path: Path, given: Value, ghost was: Option<Rec>,
                           last: D.Snap, outcome: L.Outcome, ghost before: Sight) returns (r: Step)
      requires n.instr.Operation? && Unfinished(env, n, input, outputs, path, given, Now()) && OutsideSame(before, Now(), KeyOf(path, n.id))
      requires Reached(OpAt(n.instr.op, KeyOf(path, n.id)), last) && last.cell.task == None && last.cell.record.Some?
      requires was == if KeyOf(path, n.id) in store then Some(store[KeyOf(path, n.id)]) else None
      requires was.Some? ==> Kept(OpAt(n.instr.op, KeyOf(path, n.id)), false, was.value)
      requires L.KeepsInput(if was.Some? then was.value.effect.value.last.cell.record else None, given, last.cell.record)
      requires !outcome.Lost? ==>
        L.Agrees(OpAt(n.instr.op, KeyOf(path, n.id)), last, outcome) && (last.clock.now >= last.clock.deadlineAt ==> expired)
      modifies this`store, this`log
      ensures NodeDone(env, n, input, outputs, path, before, Now(), r)
    {
      hide NodesFit, NodePassed, NodeFails, NamedInstr, OutsideSame, Clean, Kept, LeafAllowed, Unfinished, NodeDone, L.Agrees;
      var key, op := KeyOf(path, n.id), OpAt(n.instr.op, KeyOf(path, n.id));
      var rec := Shown(op, false, last);
      ghost var ready := Now();
      if !outcome.Lost? {
        AnswerMeans(op, false, last, outcome);
      }
      ShownMeans(op, false, last);
      OperationAllowed(env, n, input, outputs, path, given, Now(), was, last, outcome);
      WriteLeaf(n, input, outputs, path, given, rec, Seen(rec, outcome), before);
      r := match outcome case Returned(value) => Returned(value) case Refused(error) => Thrown(error) case Lost => Down;
      OperationDone(env, n, input, outputs, path, before, ready, Now(), last, outcome, r);
    }

    /**
     A wait: reserve it, open it with its start, then consume it, expire, close or go on waiting.
     A consumed signal reports the confirmed result of its start.
     */
    method ExecuteWait(n: Node, input: Value, outputs: map<string, Value>, path: Path, given: Value) returns (r: Step)
      requires n.instr.Pause? && Unfinished(env, n, input, outputs, path, given, Now())
      modifies this
      ensures NodeDone(env, n, input, outputs, path, old(Now()), Now(), r)
      ensures r.Returned? && n.instr.start.Some? ==>
        var skey := StartKey(KeyOf(path, n.id));
        Confirmed(store, skey) && Reports(r.value, store[skey])
      decreases n, 0
    {
      hide NodesFit, NodePassed, NodeFails, NamedInstr, OutsideSame, Clean, Kept, LeafAllowed, Unfinished, NodeDone, Reports;
      ghost var before := Now();
      var skey := StartKey(KeyOf(path, n.id));
      Drift();
      DriftReady(env, n, input, outputs, path, given, before, Now());
      if KeyOf(path, n.id) !in store {
        var refused := Reserve(n, input, outputs, path, given, before);
        if refused.Some? {
          return refused.value;
        }
      }
      var closed: bool, flagged: bool := *, *;
      if n.instr.start.Some? && !closed && !(flagged && Confirmed(store, skey)) {
        var ended := OpenWait(n, input, outputs, path, given, before);
        if ended.Some? {
          return ended.value;
        }
      }
      r := FinishWait(n, input, outputs, path, given, closed, before);
    }

    /** The reservation commit; an invalid correlation, a budget, cancellation or the deadline refuse it. */
    method Reserve(n: Node, input: Value, outputs: map<string, Value>, path: Path, given: Value, ghost before: Sight)
      returns (refused: Option<Step>)
      requires n.instr.Pause? && Unfinished(env, n, input, outputs, path, given, Now()) && OutsideSame(before, Now(), KeyOf(path, n.id))
      requires KeyOf(path, n.id) !in store
      modifies this`store, this`log
      ensures refused.Some? ==> NodeDone(env, n, input, outputs, path, before, Now(), refused.value) && !refused.value.Returned?
      ensures refused.None? ==>
        && Unfinished(env, n, input, outputs, path, given, Now()) && OutsideSame(before, Now(), KeyOf(path, n.id))
        && KeyOf(path, n.id) in store
    {
      hide NodesFit, NodePassed, NodeFails, OutsideSame, Clean, Unfinished, NodeDone, StartSettled;
      var stop: bool, refuse: bool := *, *;
      if stop {
        StoppedLeaf(env, n, input, outputs, path, given, before, Now());
        return Some(Down);
      }
      if refuse {
        var e: ForgeError := *;
        var r := RefuseLeaf(n, input, outputs, path, given, e, before);
        return Some(r);
      }
      ghost var ready := Now();
      WriteLeaf(n, input, outputs, path, given, Rec(InvocationState.Pending, given, None, None, Some(ControlFrame.Wait("wait")), None), None, before);
      Reserved(env, n, input, outputs, path, given, ready, Now());
      return None;
    }

    /** The input of a start: bound to the node's input and the reservation, then checked against its contract. */
    method AskStart(start: Start, given: Value) returns (asked: Result<Value, ForgeError>)
      ensures asked.Ok? ==> exists wait ::
        env.evaluate(start.input, Object([Field("input", given), Field("wait", wait)]), map[]) == asked
    {
      var reservation: Value, violation: Option<ForgeError> := *, *;
      asked := env.evaluate(start.input, StartInput(given, reservation), map[]);
      if asked.Ok? && violation.Some? {
        return Err(violation.value);
      }
    }

    /** Dispatch the start of a wait; its answer, or the expiry that overtook it, may end the wait. */
    method OpenWait(n: Node, input: Value, outputs: map<string, Value>, path: Path, given: Value, ghost before: Sight)
      returns (ended: Option<Step>)
      requires n.instr.Pause? && n.instr.start.Some? && KeyOf(path, n.id) in store
      requires Unfinished(env, n, input, outputs, path, given, Now()) && OutsideSame(before, Now(), KeyOf(path, n.id))
      modifies this
      ensures ended.Some? ==> NodeDone(env, n, input, outputs, path, before, Now(), ended.value) && !ended.value.Returned?
      ensures ended.None? ==>
        && Unfinished(env, n, input, outputs, path, given, Now()) && OutsideSame(before, Now(), KeyOf(path, n.id))
        && KeyOf(path, n.id) in store && Confirmed(store, StartKey(KeyOf(path, n.id)))
    {
      hide NodesFit, NodePassed, NodeFails, OutsideSame, Clean, Unfinished, NodeDone, Kept, L.Agrees, Catchable, NamedInstr, StartSettled;
      var skey := StartKey(KeyOf(path, n.id));
      var op := OpAt(n.instr.start.value.op, skey);
      var stop: bool := *;
      if stop {
        StoppedLeaf(env, n, input, outputs, path, given, before, Now());
        return Some(Down);
      }
      StartKept(env, n, input, outputs, path, given, Now());
      // a start that was dispatched before keeps its first input
      var evaluated := AskStart(n.instr.start.value, given);
      if skey !in store && evaluated.Err? {
        NoStart(n.instr, KeyOf(path, n.id), Now());
        var r := FailWait(n, input, outputs, path, given, evaluated.error, before);
        return Some(r);
      }
      var was := if skey in store then Some(store[skey]) else None;
      var asked := if evaluated.Ok? then evaluated.value else Null;
      ghost var ready := Now();
      var last, outcome := Dispatch(op, true, was, asked);
      DriftReady(env, n, input, outputs, path, given, ready, Now());
      OutsideTrans(before, ready, Now(), KeyOf(path, n.id));
      ended := SettleStart(n, input, outputs, path, given, was, asked, last, outcome, before);
    }

    /** Record what the start's dispatch shows, and let its answer, or the expiry, decide about the wait. */
    method SettleStart(n: Node, input: Value, outputs: map<string, Value>, path: Path, given: Value, ghost was: Option<Rec>, ghost asked: Value,
                       last: D.Snap, outcome: L.Outcome, ghost before: Sight) returns (ended: Option<Step>)
      requires n.instr.Pause? && n.instr.start.Some? && KeyOf(path, n.id) in store
      requires Unfinished(env, n, input, outputs, path, given, Now()) && OutsideSame(before, Now(), KeyOf(path, n.id))
      requires guarded ==> !n.instr.start.value.op.MayHide()
      requires Dispatched(OpAt(n.instr.start.value.op, StartKey(KeyOf(path, n.id))), was, asked, last, outcome, expired)
      requires was == if StartKey(KeyOf(path, n.id)) in store then Some(store[StartKey(KeyOf(path, n.id))]) else None
      modifies this`store, this`log
      ensures ended.Some? ==> NodeDone(env, n, input, outputs, path, before, Now(), ended.value) && !ended.value.Returned?
      ensures ended.None? ==>
        && Unfinished(env, n, input, outputs, path, given, Now()) && OutsideSame(before, Now(), KeyOf(path, n.id))
        && KeyOf(path, n.id) in store && Confirmed(store, StartKey(KeyOf(path, n.id)))
    {
      hide NodesFit, NodePassed, NodeFails, OutsideSame, Clean, Unfinished, NodeDone, Kept, L.Agrees, Catchable, NamedInstr, StartSettled,
        L.KeepsInput;
      var skey := StartKey(KeyOf(path, n.id));
      var op := OpAt(n.instr.start.value.op, skey);
      ghost var ran := Now();
      if last.cell.record.Some? {
        ShownMeans(op, true, last);
        store := store[skey := Shown(op, true, last)];
        StartWritten(env, n, input, outputs, path, given, ran, Now());
        OutsideTrans(before, ran, Now(), KeyOf(path, n.id));
      }
      if outcome.Lost? {
        StoppedLeaf(env, n, input, outputs, path, given, before, Now());
        return Some(Down);
      }
      var timedOut: bool := *;
      var answer := WaitStart.StartOutcome(timedOut, outcome);
      StartAnswered(n.instr, KeyOf(path, n.id), Now(), was, asked, last, outcome, timedOut);
      if answer.Err? {
        var r := FailWait(n, input, outputs, path, given, answer.error, before);
        return Some(r);
      }
      return None;
    }

    /** The end of a wait whose start, if it has one, is confirmed; a closed wait is never consumed. */
    method FinishWait(n: Node, input: Value, outputs: map<string, Value>, path: Path, given: Value, closed: bool, ghost before: Sight)
      returns (r: Step)
      requires n.instr.Pause? && KeyOf(path, n.id) in store
      requires Unfinished(env, n, input, outputs, path, given, Now()) && OutsideSame(before, Now(), KeyOf(path, n.id))
      requires n.instr.start.Some? && !closed ==> Confirmed(store, StartKey(KeyOf(path, n.id)))
      modifies this
      ensures NodeDone(env, n, input, outputs, path, before, Now(), r)
      ensures r.Returned? && n.instr.start.Some? ==>
        var skey := StartKey(KeyOf(path, n.id));
        Confirmed(store, skey) && Reports(r.value, store[skey])
    {
      hide NodesFit, NodePassed, NodeFails, OutsideSame, Clean, Unfinished, NodeDone, Kept, Catchable, NamedInstr, Reports, StartSettled;
      ghost var was := Now();
      Drift();
      DriftReady(env, n, input, outputs, path, given, was, Now());
      OutsideTrans(before, was, Now(), KeyOf(path, n.id));
      var stop: bool, waiting: bool, consumed: bool := *, *, *;
      if stop {
        StoppedLeaf(env, n, input, outputs, path, given, before, Now());
        return Down;
      }
      NeverCaught();
      if closed {
        r := FailWait(n, input, outputs, path, given, if expired then TimeoutError() else CancelError(), before);
        return;
      }
      StartConfirmed(env, n, input, outputs, path, given, Now());
      if waiting {
        StoppedLeaf(env, n, input, outputs, path, given, before, Now());
        return Parked;
      }
      if consumed {
        var payload: Value := *;
        r := ConsumeWait(n, input, outputs, path, given, payload, before);
        return;
      }
      // cancelled, past the deadline, expired, or a delivery beyond the value limits
      var e: ForgeError := *;
      r := FailWait(n, input, outputs, path, given, e, before);
    }

    method ConsumeWait(n: Node, input: Value, outputs: map<string, Value>, path: Path, given: Value, payload: Value, ghost before: Sight)
      returns (r: Step)
      requires n.instr.Pause? && KeyOf(path, n.id) in store && StartSettled(n.instr, KeyOf(path, n.id), Now())
      requires Unfinished(env, n, input, outputs, path, given, Now()) && OutsideSame(before, Now(), KeyOf(path, n.id))
      requires n.instr.start.Some? ==>
        Confirmed(store, StartKey(KeyOf(path, n.id))) && store[StartKey(KeyOf(path, n.id))].output.Some?
      modifies this`store, this`log
      ensures NodeDone(env, n, input, outputs, path, before, Now(), r)
      ensures r.Returned? && n.instr.start.Some? ==>
        var skey := StartKey(KeyOf(path, n.id));
        Confirmed(store, skey) && Reports(r.value, store[skey])
    {
      hide NodesFit, NodePassed, NodeFails, OutsideSame, Clean, Unfinished, Kept, NamedInstr, StartSettled;
      var key := KeyOf(path, n.id);
      var value := if n.instr.start.Some? then Delivered(payload, store[StartKey(key)].output.value) else payload;
      ReservedRecord(env, n, input, outputs, path, given, Now());
      assert key != StartKey(key);
      var rec := store[key].(state := InvocationState.Succeeded, output := Some(value), input := Null, error := None);
      WriteLeaf(n, input, outputs, path, given, rec, Some(Output(value)), before);
      return Returned(value);
    }

    /** The wait's own error handling: an unknown effect keeps it open, anything else settles it. */
    method FailWait(n: Node, input: Value, outputs: map<string, Value>, path: Path, given: Value, e: ForgeError, ghost before: Sight)
      returns (r: Step)
      requires n.instr.Pause? && KeyOf(path, n.id) in store
      requires Unfinished(env, n, input, outputs, path, given, Now()) && OutsideSame(before, Now(), KeyOf(path, n.id))
      requires StartSettled(n.instr, KeyOf(path, n.id), Now()) || !Catchable(e) || expired
      modifies this`store, this`log
      ensures NodeDone(env, n, input, outputs, path, before, Now(), r) && !r.Returned?
    {
      hide NodesFit, NodePassed, OutsideSame, Clean, Unfinished, Kept, NamedInstr, StartSettled, Catchable, EvalNode;
      if * {
        StoppedLeaf(env, n, input, outputs, path, given, before, Now());
        return Down;
      }
      var key := KeyOf(path, n.id);
      ReservedRecord(env, n, input, outputs, path, given, Now());
      WriteLeaf(n, input, outputs, path, given, store[key].(state := FaultState(e), error := Some(e)), Some(Fault(e)), before);
      return Thrown(e);
    }

    /** A control: activate or resume its frame, run it, and settle its record. */
    method ExecuteControl(n: Node, input: Value, outputs: map<string, Value>, path: Path, given: Value) returns (r: Step)
      requires !n.instr.Operation? && !n.instr.Pause? && Unfinished(env, n, input, outputs, path, given, Now())
      modifies this
      ensures NodeDone(env, n, input, outputs, path, old(Now()), Now(), r)
      decreases n, 1
    {
      hide NodesFit, NodePassed, NodeFails, NamedInstr, OutsideSame, Clean, InstrFits, CleanBelow, EvalControl;
      var key := KeyOf(path, n.id);
      ghost var before := Now();
      Drift();
      DriftReady(env, n, input, outputs, path, given, before, Now());
      if key !in store {
        var refused := Activate(n, input, outputs, path, given, before);
        if refused.Some? {
          return refused.value;
        }
      } else {
        GivenInput(env, n, input, outputs, path, Now());
      }
      ghost var ready := Now();
      var ran := RunControl(n.instr, given, key);
      OutsideTrans(before, ready, Now(), key);
      r := SettleControl(n, input, outputs, path, given, before, ran);
    }

    /** The activation commit: the initial frame, decided once. */
    method Activate(n: Node, input: Value, outputs: map<string, Value>, path: Path, given: Value, ghost before: Sight)
      returns (refused: Option<Step>)
      requires !n.instr.Operation? && !n.instr.Pause? && Unfinished(env, n, input, outputs, path, given, Now())
      requires KeyOf(path, n.id) !in store && OutsideSame(before, Now(), KeyOf(path, n.id))
      modifies this`store, this`log, this`thrown
      ensures refused.Some? ==> NodeDone(env, n, input, outputs, path, before, Now(), refused.value)
      ensures refused.None? ==>
        ControlReady(env, n.instr, given, KeyOf(path, n.id), Now()) && OutsideSame(before, Now(), KeyOf(path, n.id))
      ensures refused.None? ==>
        && KeyOf(path, n.id) in store && store[KeyOf(path, n.id)].control.Some?
        && C.Begins(env, n.instr, given, store[KeyOf(path, n.id)].control.value)
      ensures refused.Some? && refused.value.Thrown? ==>
        refused.value.error == LimitError() || C.NeverBegins(env, n.instr, given, refused.value.error)
      ensures forall e :: C.NeverBegins(env, n.instr, given, e) ==> refused == Some(Thrown(e))
    {
      hide NodesFit, NodePassed, NamedInstr, InstrFits, Catchable, Clean, Loose, EvalControl, OutsideSame, C.Begins, C.NeverBegins;
      var key := KeyOf(path, n.id);
      var frame := InitialFrame(env, n.instr, given);
      InitialDecides(env, n.instr, given);
      UnreachedIsClean(env, n, input, outputs, path, Now());
      if frame.Err? {
        InitialFault(env, n.instr, given, key, log);
        return Some(Thrown(frame.error));
      }
      if * {
        NeverCaught();
        Observe(n, input, outputs, path, LimitError());
        OutsideTrans(before, old(Now()), Now(), key);
        return Some(Thrown(LimitError()));
      }
      if * {
        return Some(Down);
      }
      store := store[key := Rec(InvocationState.Running, given, None, None, Some(frame.value), None)];
      thrown := thrown[key := {}];
      InitialFits(env, n.instr, given, key, old(Now()), Now());
      Activated(old(Now()), Now(), key);
      OutsideTrans(before, old(Now()), Now(), key);
      return None;
    }

    /** Replace a control's record and, for a fault of the surroundings, its observation. */
    method CloseControl(n: Node, input: Value, outputs: map<string, Value>, path: Path, given: Value, rec: Rec,
                        ghost fault: Option<ForgeError>, ghost before: Sight)
      requires ControlReady(env, n.instr, given, KeyOf(path, n.id), Now()) && OutsideSame(before, Now(), KeyOf(path, n.id))
      requires env.evaluate(n.input, input, outputs) == Ok(given)
      requires Closable(env, n, given, KeyOf(path, n.id), Now(), rec, fault)
      modifies this`store, this`log
      ensures OutsideSame(before, Now(), KeyOf(path, n.id)) && NodesFit(env, [n], input, outputs, path, Now())
      ensures rec.state == InvocationState.Succeeded ==> NodePassed(env, n, input, outputs, outputs[n.id := rec.output.value], path, Now())
      ensures log == FaultLog(old(log), KeyOf(path, n.id), fault)
      ensures CleanBelow(old(Now()), KeyOf(path, n.id)) ==> Clean(Now(), KeyOf(path, n.id))
    {
      hide InstrFits, NamedInstr;
      ghost var was := Now();
      store := store[KeyOf(path, n.id) := rec];
      log := FaultLog(log, KeyOf(path, n.id), fault);
      ControlClosed(env, n, input, outputs, path, given, before, was, Now(), rec, fault);
    }

    /** The closing commit of a control. */
    method SettleControl(n: Node, input: Value, outputs: map<string, Value>, path: Path, given: Value, ghost before: Sight, ran: Step)
      returns (r: Step)
      requires ControlReady(env, n.instr, given, KeyOf(path, n.id), Now()) && OutsideSame(before, Now(), KeyOf(path, n.id))
      requires env.evaluate(n.input, input, outputs) == Ok(given)
      requires ControlMeans(env, n.instr, given, KeyOf(path, n.id), Now(), ran)
      modifies this
      ensures NodeDone(env, n, input, outputs, path, before, Now(), r)
    {
      hide NodesFit, InstrFits, OutsideSame, NodePassed, EvalControl, CleanBelow, Clean, NamedInstr, Explained, Catchable, Loose;
      var key := KeyOf(path, n.id);
      var over: bool, stop: bool := *, *;
      if ran.Parked? || ran.Down? || stop {
        CloseControl(n, input, outputs, path, given, store[key], None, before);
        return (if ran.Parked? then Parked else Down);
      }
      if ran.Returned? && env.check(ran.value).None? && !over {
        var rec := store[key].(state := InvocationState.Succeeded, output := Some(ran.value), input := Null, error := None);
        CloseControl(n, input, outputs, path, given, rec, None, before);
        return Returned(ran.value);
      }
      var e := if !ran.Returned? then ran.error else if env.check(ran.value).Some? then env.check(ran.value).value else LimitError();
      ghost var fault := if ran.Aborted? || (ran.Returned? && env.check(ran.value).None?) then Some(e) else None;
      NeverCaught();
      ReadyKey(env, n.instr, given, key, Now());
      if ran.Returned? {
        BoundaryExplained(env, n.instr, store[key].control, given, key, Now(), LimitError());
      }
      if * {
        CloseControl(n, input, outputs, path, given, store[key], fault, before);
        return Down;
      }
      CloseControl(n, input, outputs, path, given, store[key].(state := FaultState(e), error := Some(e)), fault, before);
      return Thrown(e);
    }

    method RunControl(instr: Instr, given: Value, key: Path) returns (r: Step)
      requires ControlReady(env, instr, given, key, Now())
      modifies this
      ensures ControlDone(env, instr, given, key, old(Now()), Now(), r)
      decreases instr, 3
    {
      match instr {
        case Choose(_, _) => r := RunChoice(instr, given, key);
        case Attempt(_, _, _) => r := RunAttempt(instr, given, key);
        case Repeat(_, _, _, _) => r := RunTurns(instr, given, key);
        case Fork(_, _) => r := RunFork(instr, given, key);
        case Each(_, _, _) => r := RunEach(instr, given, key);
        case Call(_, _, _) => r := RunCall(instr, given, key);
      }
    }

    method RunChoice(instr: Instr, given: Value, key: Path) returns (r: Step)
      requires instr.Choose? && ControlReady(env, instr, given, key, Now())
      modifies this
      ensures ControlDone(env, instr, given, key, old(Now()), Now(), r)
      decreases instr, 1
    {
      hide BodyFits, EvalBody, OutsideSame, NodesFit, Clean, CleanBelow, Kept, Catchable, Loose, GroupStands, Reaches, EvalTurns, EvalBranches,
        EvalItems, EvalHandler, Named, ControlMeans, Harmless;
      OutsideSelf(Now(), key);
      DownMeans(env, instr, given, key, Now());
      var id := store[key].control.value.selected;
      var i := FindCase(instr.cases, id);
      if i >= |instr.cases| && !(instr.fallback.Some? && instr.fallback.value.id == id) {
        return Down;
      }
      var body := if i < |instr.cases| then instr.cases[i].body else instr.fallback.value.body;
      ghost var before := Now();
      r := ExecuteBody(body, given, CasePath(key, id));
      ChildRan(before, Now(), key, ["cases", id]);
      WithinKept(before, Now(), key, CasePath(key, id));
      ChoiceMeans(env, instr, given, key, id, body, Now(), r);
      if r.Returned? {
        r := Returned(Selected(id, r.value));
      }
    }

    method RunCall(instr: Instr, given: Value, key: Path) returns (r: Step)
      requires instr.Call? && ControlReady(env, instr, given, key, Now())
      modifies this
      ensures ControlDone(env, instr, given, key, old(Now()), Now(), r)
      decreases instr, 1
    {
      hide BodyFits, EvalBody, OutsideSame, NodesFit, Clean, CleanBelow, Kept, Catchable, Loose, GroupStands, Reaches, EvalTurns, EvalBranches, EvalItems, EvalHandler, Named, Empty, Within;
      OutsideSelf(Now(), key);
      var refused := env.accepts(instr.id, instr.revision, given);
      if refused.Some? {
        EmptyDeeper(Now(), CallPath(key, instr.id, instr.revision), []);
        WithinClean(Now(), key, CallPath(key, instr.id, instr.revision));
        r := Thrown(refused.value);
        return;
      }
      ghost var before := Now();
      r := ExecuteBody(instr.body, given, CallPath(key, instr.id, instr.revision));
      ChildRan(before, Now(), key, ["workflows", instr.id, "revisions", instr.revision]);
      WithinKept(before, Now(), key, CallPath(key, instr.id, instr.revision));
      if Clean(Now(), CallPath(key, instr.id, instr.revision)) {
        WithinClean(Now(), key, CallPath(key, instr.id, instr.revision));
      }
      if r.Returned? && env.releases(instr.id, instr.revision, r.value).Some? {
        r := Thrown(env.releases(instr.id, instr.revision, r.value).value);
      }
    }

    /** A try: run its body, or the handler its frame already chose. */
    method RunAttempt(instr: Instr, given: Value, key: Path) returns (r: Step)
      requires instr.Attempt? && ControlReady(env, instr, given, key, Now())
      modifies this
      ensures ControlDone(env, instr, given, key, old(Now()), Now(), r)
      decreases instr, 1
    {
      hide EvalBody, OutsideSame, BodyFits, Clean, CleanBelow, Kept, Loose, Within, GroupStands, NodesFit;
      var frame := store[key].control.value;
      if frame.handler.Some? {
        r := RunHandler(instr, given, key, frame.handler.value, frame.error.value);
        return;
      }
      ghost var before := Now();
      r := ExecuteBody(instr.body, given, TryPath(key));
      TryRan(env, instr, given, key, before, Now());
      ghost var tried := Now();
      if r.Returned? {
        return Returned(Tried(r.value));
      }
      if !r.Thrown? || !Catchable(r.error) {
        return;
      }
      var error := r.error;
      var entered := EnterHandler(instr, given, key, error);
      OutsideTrans(before, tried, Now(), key);
      if entered.Aborted? || entered.Down? {
        return entered;
      }
      ghost var chosen := Now();
      r := RunHandler(instr, given, key, Handler(instr.catches, instr.otherwise, CaughtCode(error)), error);
      OutsideTrans(before, chosen, Now(), key);
    }

    /**
     Entering a handler: cancellation and the deadline outrank it, and when they do not, nothing
     below the try body is unresolved; only a run that is not guarded may have left a start of a
     wait so, and only one that may hide. `Parked` stands for an entered handler.
     */
    method EnterHandler(instr: Instr, given: Value, key: Path, error: ForgeError) returns (r: Step)
      requires instr.Attempt? && ControlReady(env, instr, given, key, Now())
      requires store[key].control == Some(ControlFrame.Try(None, None))
      requires EvalBody(env, instr.body, given, TryPath(key), log) == Err(error) && Catchable(error)
      requires Harmless(Now(), TryPath(key), error)
      requires Clean(Now(), TryPath(key)) ==> CleanBelow(Now(), key)
      modifies this
      ensures r.Aborted? || r.Down? || r.Parked?
      ensures OutsideSame(old(Now()), Now(), key) && ControlReady(env, instr, given, key, Now())
      ensures r.Aborted? ==> ControlMeans(env, instr, given, key, Now(), r)
      ensures r.Parked? ==> !cancelled && !expired
      ensures r.Parked? ==> forall k :: k in store && TryPath(key) <= k && store[k].Unresolved() ==>
        !guarded && store[k].effect.value.opens && store[k].effect.value.op.MayHide()
      ensures r.Parked? ==>
        && store[key].control == Some(ControlFrame.Try(Some(Handler(instr.catches, instr.otherwise, CaughtCode(error))), Some(error)))
        && Clean(Now(), TryPath(key))
    {
      hide InstrFits, EvalBody, NamedInstr, OutsideSame, Catchable, Kept;
      Drift();
      ReadyDrifts(env, instr, given, key, old(Now()), Now());
      NeverCaught();
      var halted: bool := *;
      if halted || cancelled {
        return Aborted(CancelError());
      }
      if expired {
        return Aborted(TimeoutError());
      }
      assert Clean(Now(), TryPath(key));
      if * {
        return Aborted(LimitError());
      }
      if * {
        return Down;
      }
      var id := Handler(instr.catches, instr.otherwise, CaughtCode(error));
      ghost var drifted := Now();
      store := store[key := store[key].(control := Some(ControlFrame.Try(Some(id), Some(error))))];
      HandlerChosen(env, instr, given, key, id, error, drifted, Now());
      OutsideTrans(old(Now()), drifted, Now(), key);
      return Parked;
    }

    /** The handler runs only over a try body that left nothing loose. */
    method RunHandler(instr: Instr, given: Value, key: Path, id: string, error: ForgeError) returns (r: Step)
      requires instr.Attempt? && ControlReady(env, instr, given, key, Now())
      requires store[key].control == Some(ControlFrame.Try(Some(id), Some(error)))
      requires Clean(Now(), TryPath(key))
      modifies this
      ensures ControlDone(env, instr, given, key, old(Now()), Now(), r)
      decreases instr, 0
    {
      hide EvalBody, OutsideSame, BodyFits, Clean, CleanBelow, Kept, Loose, Within, GroupStands, Catchable, NodesFit;
      OutsideSelf(Now(), key);
      var i := FindCatch(instr.catches, id);
      if i >= |instr.catches| && instr.otherwise.id != id {
        return Down;
      }
      var body := if i < |instr.catches| then instr.catches[i].body else instr.otherwise.body;
      ghost var before := Now();
      r := ExecuteBody(body, Handled(env, given, error), CatchPath(key, id));
      HandlerRan(env, instr, given, key, id, error, before, Now());
      if r.Returned? {
        r := Returned(Recovered(id, r.value));
      }
    }

    /** A loop, from its saved turn. */
    method RunTurns(instr: Instr, given: Value, key: Path) returns (r: Step)
      requires instr.Repeat? && ControlReady(env, instr, given, key, Now())
      modifies this
      ensures ControlDone(env, instr, given, key, old(Now()), Now(), r)
      decreases instr, 1
    {
      hide InstrFits, OutsideSame, NamedInstr, ControlMeans, Truth, Catchable, Loose;
      LoopFrame(env, instr, given, key, Now());
      var iteration, state := store[key].control.value.iteration, store[key].control.value.state;
      assert OutsideSame(Now(), Now(), key) by { OutsideSelf(Now(), key); }
      while true
        invariant ControlReady(env, instr, given, key, Now()) && OutsideSame(old(Now()), Now(), key)
        invariant store[key].control == Some(ControlFrame.Loop(iteration, state)) && iteration <= instr.limit
        decreases instr.limit - iteration
      {
        ghost var before := Now();
        var ended := DecideTurn(instr, given, key, iteration, state);
        ghost var decided := Now();
        OutsideTrans(old(Now()), before, decided, key);
        if ended.Some? {
          return ended.value;
        }
        ended, state := RunTurn(instr, given, key, iteration, state);
        OutsideTrans(old(Now()), decided, Now(), key);
        if ended.Some? {
          return ended.value;
        }
        iteration := iteration + 1;
      }
    }

    /** Look around, then ask whether another turn is due. */
    method DecideTurn(instr: Instr, given: Value, key: Path, n: nat, state: Value) returns (ended: Option<Step>)
      requires instr.Repeat? && ControlReady(env, instr, given, key, Now())
      requires store[key].control == Some(ControlFrame.Loop(n, state))
      modifies this`expired, this`cancelled
      ensures ControlReady(env, instr, given, key, Now()) && OutsideSame(old(Now()), Now(), key)
      ensures ended.Some? ==> ControlMeans(env, instr, given, key, Now(), ended.value) && !ended.value.Parked? && !ended.value.Down?
      ensures ended.None? ==> n < instr.limit && Truth(env, instr.condition, TurnInput(state, n)) == Ok(true)
    {
      hide ControlReady, CleanBelow, OutsideSame, EvalTurns, EvalControl, Truth, Catchable, TurnInput;
      Drift();
      ReadyDrifts(env, instr, given, key, old(Now()), Now());
      NeverCaught();
      var halted: bool := *;
      if halted || cancelled {
        BoundaryMeans(env, instr, given, key, Now(), CancelError());
        return Some(Aborted(CancelError()));
      }
      if expired {
        BoundaryMeans(env, instr, given, key, Now(), TimeoutError());
        return Some(Aborted(TimeoutError()));
      }
      LoopMeans(env, instr, given, key, Now());
      TurnEnds(env, instr, state, n, key, log);
      var go := Truth(env, instr.condition, TurnInput(state, n));
      if go.Err? {
        TurnsClean(env, instr, given, key, Now());
        return Some(Thrown(go.error));
      }
      if !go.value {
        TurnsClean(env, instr, given, key, Now());
        return Some(Returned(state));
      }
      if n >= instr.limit {
        TurnsClean(env, instr, given, key, Now());
        return Some(if instr.returnLast then Returned(state) else Thrown(Plain("control.iteration_limit")));
      }
      return None;
    }

    /** One turn and the frame that saves it. */
    method RunTurn(instr: Instr, given: Value, key: Path, n: nat, state: Value) returns (ended: Option<Step>, next: Value)
      requires instr.Repeat? && ControlReady(env, instr, given, key, Now())
      requires store[key].control == Some(ControlFrame.Loop(n, state))
      requires n < instr.limit && Truth(env, instr.condition, TurnInput(state, n)) == Ok(true)
      modifies this
      ensures ControlReady(env, instr, given, key, Now()) && OutsideSame(old(Now()), Now(), key)
      ensures ended.Some? ==> ControlMeans(env, instr, given, key, Now(), ended.value)
      ensures ended.None? ==> store[key].control == Some(ControlFrame.Loop(n + 1, next))
      decreases instr, 0
    {
      ghost var before := Now();
      hide InstrFits, OutsideSame, NamedInstr, BodyFits, Clean, CleanBelow, EvalBody, EvalTurns, EvalControl, Truth, AllConfirmed;
      next := state;
      LoopBody(env, instr, given, key, Now());
      var r := ExecuteBody(instr.body, TurnInput(state, n), TurnPath(key, n));
      TurnRan(env, instr, given, key, n, state, before, Now());
      LoopMeans(env, instr, given, key, Now());
      TurnFails(env, instr, state, n, key, log);
      if !r.Returned? {
        return Some(r), next;
      }
      if * {
        NeverCaught();
        BoundaryMeans(env, instr, given, key, Now(), LimitError());
        return Some(Aborted(LimitError())), next;
      }
      if * {
        return Some(Down), next;
      }
      next := r.value;
      ghost var ran := Now();
      store := store[key := store[key].(control := Some(ControlFrame.Loop(n + 1, next)))];
      TurnSaved(env, instr, given, key, n, state, next, ran, Now());
      OutsideTrans(before, ran, Now(), key);
      return None, next;
    }

    // ---------------------------------------------------------------- groups

    /** Persist a group's cursor and, when it stops, its first reason. */
    method SaveProgress(instr: Instr, given: Value, key: Path, next: nat, stop: Option<ForgeError>)
      requires IsGroup(instr) && ControlReady(env, instr, given, key, Now()) && Stoppable(Now().Throws(key), stop)
      modifies this`store
      ensures ControlReady(env, instr, given, key, Now()) && OutsideSame(old(Now()), Now(), key)
      ensures forall i: nat :: i < next ==> AdmittedAt(Now(), key, i)
      ensures FrameError(old(Now()), key).Some? ==> FrameError(Now(), key) == FrameError(old(Now()), key)
    {
      hide InstrFits, NamedInstr, OutsideSame, GroupStands, ItemsOf, Stoppable, Catchable, Loose, BodyFits;
      GroupParts(env, instr, given, key, Now());
      ProgressStands(env, instr, store[key].control.value, given, key, Now().Throws(key), next, stop);
      store := store[key := store[key].(control := Some(Groups.Progress(store[key].control.value, next, stop)))];
      GroupSaved(env, instr, given, key, old(Now()), Now());
    }

    /** Account for what an admitted child threw. */
    ghost method Note(instr: Instr, given: Value, key: Path, i: nat, e: ForgeError)
      requires IsGroup(instr) && ControlReady(env, instr, given, key, Now()) && i < ChildCount(env, instr, given)
      requires AdmittedAt(Now(), key, i) && EvalChild(env, instr, given, key, i, log) == Err(e)
      modifies this`thrown
      ensures ControlReady(env, instr, given, key, Now()) && OutsideSame(old(Now()), Now(), key)
      ensures Now().Throws(key) == old(Now().Throws(key)) + {Throw(i, e, log)}
    {
      hide InstrFits, NamedInstr, OutsideSame, GroupStands, ItemsOf, EvalChild;
      GroupParts(env, instr, given, key, Now());
      ThrowNoted(env, instr, store[key].control.value, given, key, Now().Throws(key), Throw(i, e, log));
      thrown := thrown[key := Now().Throws(key) + {Throw(i, e, log)}];
      GroupSaved(env, instr, given, key, old(Now()), Now());
    }

    /**
     The children of a group, each in its own scope. A group completes with every child's result;
     otherwise it leaves with a failure one of its children threw, a boundary, or the reason that
     stopped it in an earlier lifetime.
     */
    method RunGroup(instr: Instr, given: Value, key: Path) returns (ended: Option<Step>, results: seq<Option<Result1>>)
      requires IsGroup(instr) && ControlReady(env, instr, given, key, Now())
      modifies this
      ensures ControlReady(env, instr, given, key, Now()) && OutsideSame(old(Now()), Now(), key)
      ensures ended.Some? ==> ControlMeans(env, instr, given, key, Now(), ended.value) && !ended.value.Returned? && !ended.value.Thrown?
      ensures ended.Some? ==> GroupLeaves(env, instr, given, key, FrameError(old(Now()), key), Now(), ended.value)
      ensures ended.None? ==>
        && GroupResults(env, instr, given, key, log, results) && |results| == ChildCount(env, instr, given)
        && (forall j :: 0 <= j < |results| ==> results[j].Some?)
        && CleanBelow(Now(), key) && FrameError(old(Now()), key).None?
      decreases instr, 1
    {
      hide InstrFits, OutsideSame, NamedInstr, EvalBody, BodyFits, GroupStands, ItemsOf, FailureStands, GroupResults, ControlMeans, CleanBelow,
        EvalChild, GroupLeaves, ControlReady;
      ghost var first := FrameError(Now(), key);
      GroupParts(env, instr, given, key, Now());
      GroupStarts(env, instr, given, key, Now());
      ReadyKey(env, instr, given, key, Now());
      OutsideSelf(Now(), key);
      var frame := store[key].control.value;
      var count := ChildCount(env, instr, given);
      var total := if frame.stopped then Groups.Min(frame.nextIndex, count) else count;
      var failed, suspended, lost := frame.error, false, false;
      results := [];
      var i := 0;
      while i < total
        invariant i <= total && |results| == i
        invariant ControlReady(env, instr, given, key, Now()) && OutsideSame(old(Now()), Now(), key)
        invariant FailureStands(env, instr, given, key, first, i, Now(), failed)
        invariant failed.None? ==> GroupResults(env, instr, given, key, log, results) && frame.error.None?
      {
        ghost var before := Now();
        var outcome := RunChild(instr, given, key, i, first, results, failed);
        OutsideTrans(old(Now()), before, Now(), key);
        results := results + [outcome.result];
        failed, suspended, lost := outcome.failed, suspended || outcome.suspended, lost || outcome.lost;
        i := i + 1;
      }
      ghost var ran := Now();
      ended := LeaveGroup(instr, given, key, first, total, failed, suspended, lost);
      OutsideTrans(old(Now()), ran, Now(), key);
      if ended.None? && exists j :: 0 <= j < |results| && results[j].None? {
        ended := Some(Down);
        DownMeans(env, instr, given, key, Now());
        GroupCompletes(env, instr, given, key, Now(), Down);
      }
    }

    /** One child: not admitted, or run, judged and accounted for. */
    method RunChild(instr: Instr, given: Value, key: Path, i: nat, ghost first: Option<ForgeError>, ghost results: seq<Option<Result1>>,
                    failed: Option<ForgeError>) returns (o: ChildOutcome)
      requires IsGroup(instr) && i < ChildCount(env, instr, given) && |results| == i && ControlReady(env, instr, given, key, Now())
      requires FailureStands(env, instr, given, key, first, i, Now(), failed)
      requires failed.None? ==> GroupResults(env, instr, given, key, log, results)
      modifies this
      ensures ControlReady(env, instr, given, key, Now()) && OutsideSame(old(Now()), Now(), key)
      ensures FailureStands(env, instr, given, key, first, i + 1, Now(), o.failed)
      ensures o.failed.None? ==> failed.None? && GroupResults(env, instr, given, key, log, results + [o.result])
      decreases instr, 0
    {
      hide InstrFits, OutsideSame, NamedInstr, EvalBody, BodyFits, GroupStands, ItemsOf, FailureStands, EvalChild, GroupResults, Collected, FrameError;
      ghost var before := Now();
      var admitted: bool, stop: bool := *, *;
      if !admitted {
        o := SkipChild(instr, given, key, i, first, results, failed, stop);
        return;
      }
      SaveProgress(instr, given, key, i + 1, None);
      ghost var saved := Now();
      assert AdmittedAt(saved, key, i);
      FailureKept(env, instr, given, key, first, i, i, before, saved, failed);
      GroupParts(env, instr, given, key, saved);
      ChildNamed(env, instr, given, i, guarded);
      ChildReady(env, instr, given, key, i, saved);
      var r := ExecuteBody(ChildBody(instr, i), ChildInput(env, instr, given, i), ChildPath(instr, key, i));
      ChildEnded(env, instr, given, key, i, Now(), r);
      GroupChildRan(env, instr, given, key, i, results, saved, Now());
      OutsideTrans(before, saved, Now(), key);
      o := JudgeChild(instr, given, key, i, first, results, failed, r, before);
    }

    /** A child that is not started: the group is halted, or no scope slot is free and the group stops here. */
    method SkipChild(instr: Instr, given: Value, key: Path, i: nat, ghost first: Option<ForgeError>, ghost results: seq<Option<Result1>>,
                     failed: Option<ForgeError>, stop: bool) returns (o: ChildOutcome)
      requires IsGroup(instr) && i < ChildCount(env, instr, given) && |results| == i && ControlReady(env, instr, given, key, Now())
      requires FailureStands(env, instr, given, key, first, i, Now(), failed)
      requires failed.None? ==> GroupResults(env, instr, given, key, log, results)
      modifies this`store
      ensures ControlReady(env, instr, given, key, Now()) && OutsideSame(old(Now()), Now(), key)
      ensures FailureStands(env, instr, given, key, first, i + 1, Now(), o.failed)
      ensures o.failed.None? ==> failed.None? && GroupResults(env, instr, given, key, log, results + [o.result])
    {
      hide InstrFits, OutsideSame, NamedInstr, GroupStands, ItemsOf, FailureStands, EvalChild, ControlReady, FrameError, Collected;
      OutsideSelf(Now(), key);
      NeverCaught();
      if stop {
        SaveProgress(instr, given, key, i, Some(LimitError()));
        FailureKept(env, instr, given, key, first, i, i + 1, old(Now()), Now(), failed);
        FailureOutranked(env, instr, given, key, first, i + 1, Now(), failed, LimitError());
        return ChildOutcome(None, Some(LimitError()), false, false);
      }
      FailureKept(env, instr, given, key, first, i, i + 1, Now(), Now(), failed);
      return ChildOutcome(None, failed, false, false);
    }

    /** A child ended: account for its error, judge it, and persist the group's stop. */
    method JudgeChild(instr: Instr, given: Value, key: Path, i: nat, ghost first: Option<ForgeError>, ghost results: seq<Option<Result1>>,
                      failed: Option<ForgeError>, r: Step, ghost before: Sight) returns (o: ChildOutcome)
      requires IsGroup(instr) && i < ChildCount(env, instr, given) && |results| == i && ControlReady(env, instr, given, key, Now())
      requires OutsideSame(before, Now(), key) && AdmittedAt(Now(), key, i) && !r.Aborted?
      requires FailureStands(env, instr, given, key, first, i, Now(), failed)
      requires failed.None? ==> GroupResults(env, instr, given, key, log, results)
      requires r.Returned? ==> EvalChild(env, instr, given, key, i, log) == Ok(r.value)
      requires r.Thrown? ==> EvalChild(env, instr, given, key, i, log) == Err(r.error)
      modifies this`store, this`thrown
      ensures ControlReady(env, instr, given, key, Now()) && OutsideSame(before, Now(), key)
      ensures FailureStands(env, instr, given, key, first, i + 1, Now(), o.failed)
      ensures o.failed.None? ==> failed.None? && GroupResults(env, instr, given, key, log, results + [o.result])
    {
      hide InstrFits, OutsideSame, NamedInstr, GroupStands, ItemsOf, FailureStands, EvalChild, ControlReady, FrameError, Collected, ThrowStands;
      NeverCaught();
      ghost var ran := Now();
      if r.Thrown? {
        Note(instr, given, key, i, r.error);
        OutsideTrans(before, ran, Now(), key);
      }
      ghost var noted := Now();
      NotedFrame(ran, noted, key);
      FailureKept(env, instr, given, key, first, i, i + 1, ran, noted, failed);
      o := Judge(r, instr.failFast, failed);
      JudgedFailure(env, instr, given, key, first, i, noted, r, failed, o);
      if o.result.Some? && o.failed.None? {
        ResultAdded(env, instr, given, key, log, results, o.result.value);
      } else if o.failed.None? {
        ResultMissing(env, instr, given, key, log, results);
      }
      var stop: bool := *;
      if stop {
        return o.(lost := true);
      }
      if o.stopped.Some? {
        SaveProgress(instr, given, key, i + 1, o.stopped);
        OutsideTrans(before, noted, Now(), key);
        FailureKept(env, instr, given, key, first, i + 1, i + 1, noted, Now(), o.failed);
      }
    }

    /** What a child's end means for its group; the byte budget may refuse a result. */
    method Judge(r: Step, failFast: bool, failed: Option<ForgeError>) returns (o: ChildOutcome)
      requires !r.Aborted?
      ensures Judged(r, failFast, failed, o)
    {
      if r.Parked? {
        return ChildOutcome(None, failed, true, false);
      }
      if r.Down? {
        return ChildOutcome(None, failed, false, true);
      }
      var failure, stopped: Option<ForgeError> := failed, None;
      if r.Thrown? {
        var cancelling: bool := *;
        if IsUnknown(r.error) {
          failure := Some(UnknownError());
        } else if failFast || cancelling || cancelled {
          stopped := Some(r.error);
          if failure.None? {
            failure := Some(r.error);
          }
        }
      }
      var over: bool := *;
      if over {
        if failure.None? {
          failure := Some(LimitError());
        }
        return ChildOutcome(None, failure, false, false, if stopped.Some? then stopped else Some(LimitError()));
      }
      return ChildOutcome(Some(if r.Returned? then Ok(r.value) else Err(r.error)), failure, false, false, stopped);
    }

    /** After the last child: lost children, unresolved descendants, failure, cancellation, suspension, in this order. */
    method LeaveGroup(instr: Instr, given: Value, key: Path, ghost first: Option<ForgeError>, ghost i: nat, failed: Option<ForgeError>,
                      suspended: bool, lost: bool) returns (ended: Option<Step>)
      requires IsGroup(instr) && ControlReady(env, instr, given, key, Now()) && i <= ChildCount(env, instr, given)
      requires FailureStands(env, instr, given, key, first, i, Now(), failed)
      modifies this`expired, this`cancelled
      ensures ControlReady(env, instr, given, key, Now()) && Drifted(old(Now()), Now()) && OutsideSame(old(Now()), Now(), key)
      ensures ended.Some? ==> ControlMeans(env, instr, given, key, Now(), ended.value) && !ended.value.Returned? && !ended.value.Thrown?
      ensures ended.Some? ==> GroupLeaves(env, instr, given, key, first, Now(), ended.value)
      ensures ended.None? ==> CleanBelow(Now(), key) && failed.None? && !suspended && !lost
    {
      hide InstrFits, NamedInstr, OutsideSame, Catchable, EvalControl, Explained, FailureStands, ControlReady, GroupLeaves, ItemsOf;
      NeverCaught();
      Drift();
      ReadyDrifts(env, instr, given, key, old(Now()), Now());
      FailureDrifts(env, instr, given, key, first, i, old(Now()), Now(), failed);
      ReadyKey(env, instr, given, key, Now());
      if lost {
        GroupLost(env, instr, given, key, first, i, Now(), failed);
        return Some(Down);
      }
      var unresolved := exists k :: k in store && key < k && store[k].Unresolved();
      if unresolved {
        BoundaryExplained(env, instr, store[key].control, given, key, Now(), UnknownError());
        GroupBounded(env, instr, given, key, first, i, Now(), failed, UnknownError());
        return Some(Aborted(UnknownError()));
      }
      assert CleanBelow(Now(), key) by { ResolvedBelow(Now(), key); }
      if failed.Some? {
        FailureExplained(env, instr, given, key, first, i, Now(), failed.value);
        GroupFails(env, instr, given, key, first, i, Now(), failed.value);
        return Some(Aborted(failed.value));
      }
      var halted: bool := *;
      GroupUnstopped(env, instr, given, key, first, i, Now());
      if halted || cancelled {
        BoundaryExplained(env, instr, store[key].control, given, key, Now(), CancelError());
        return Some(Aborted(CancelError()));
      }
      if suspended {
        return Some(Parked);
      }
      return None;
    }

    /** A parallel group. */
    method RunFork(instr: Instr, given: Value, key: Path) returns (r: Step)
      requires instr.Fork? && ControlReady(env, instr, given, key, Now())
      modifies this
      ensures ControlDone(env, instr, given, key, old(Now()), Now(), r)
      ensures GroupLeaves(env, instr, given, key, FrameError(old(Now()), key), Now(), r)
      decreases instr, 2
    {
      hide InstrFits, OutsideSame, NamedInstr, EvalBody, CleanBelow, ControlReady, FrameError, GroupResults, EvalControl, Catchable;
      var ended, results := RunGroup(instr, given, key);
      if ended.Some? {
        return ended.value;
      }
      ForkMeans(env, instr, given, key, log, results);
      GroupCompletes(env, instr, given, key, Now(), Returned(Object(BranchFields(env, instr.branches, Values(results)))));
      return Returned(Object(BranchFields(env, instr.branches, Values(results))));
    }

    /** A group over items. */
    method RunEach(instr: Instr, given: Value, key: Path) returns (r: Step)
      requires instr.Each? && ControlReady(env, instr, given, key, Now())
      modifies this
      ensures ControlDone(env, instr, given, key, old(Now()), Now(), r)
      ensures GroupLeaves(env, instr, given, key, FrameError(old(Now()), key), Now(), r)
      decreases instr, 2
    {
      hide InstrFits, OutsideSame, NamedInstr, EvalBody, CleanBelow, ControlReady, FrameError, GroupResults, EvalControl, Catchable;
      GroupParts(env, instr, given, key, Now());
      var values := ItemsOf(env, instr.items, given).value;
      var ended, results := RunGroup(instr, given, key);
      if ended.Some? {
        return ended.value;
      }
      EachMeans(env, instr, values, given, key, log, results);
      GroupCompletes(env, instr, given, key, Now(), Returned(Array(ItemEntries(env, Values(results)))));
      return Returned(Array(ItemEntries(env, Values(results))));
    }
  }

  // ---------------------------------------------------------------- lifetimes

  /**
   Crash transparency. A body is entered again and again, each lifetime ending wherever it
   ends. Every answer is what the plain evaluator computes from the outcomes observed by
   then, and no two answers differ.
   */
  method Lifetimes(env: Env, body: Body, input: Value, guarded: bool, lives: nat) returns (answers: seq<Value>, run: Run)
    requires Named(body, guarded)
    ensures fresh(run) && run.env == env && run.guarded == guarded
    ensures BodyFits(env, body, input, [], run.Now())
    ensures forall i :: 0 <= i < |answers| ==> EvalBody(env, body, input, [], run.log) == Ok(answers[i])
    ensures forall i, j :: 0 <= i < |answers| && 0 <= j < |answers| ==> answers[i] == answers[j]
  {
    hide BodyFits, EvalBody, Named, Empty, AllConfirmed, Harmless, Clean, OutsideSame, NodesFit, NoneOf;
    run := new Run(env, guarded);
    NothingStored(run.Now());
    answers := [];
    EmptyBodyFits(env, body, input, [], run.Now());
    for life := 0 to lives
      invariant fresh(run) && run.env == env && run.guarded == guarded && BodyFits(env, body, input, [], run.Now())
      invariant answers != [] ==> AllConfirmed(body, [], run.store)
      invariant forall i :: 0 <= i < |answers| ==> EvalBody(env, body, input, [], run.log) == Ok(answers[i])
    {
      var r := run.ExecuteBody(body, input, []);
      if r.Returned? {
        answers := answers + [r.value];
      }
    }
  }

  /** Scope paths and their stored keys order descendants alike, so prefix queries answer for scopes. */
  lemma StoredDescendants(key: Path, k: Path)
    requires key != [] && k != []
    ensures P.Key(key) + "/" <= P.Key(k) <==> key < k
    ensures P.Key(key) == P.Key(k) ==> key == k
  {
    P.DescendantKeys(key, k);
    if P.Key(key) == P.Key(k) {
      P.KeyInjective(key, k);
    }
  }
}
