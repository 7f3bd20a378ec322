/**
 Start-up after a crash, and the supervisor that follows it: every recorded attempt that may
 have reached its destination is reclassified, then runs are handed to workers, one each.
 */
module Recovery {
  import S = MapSums
  import opened Protocol
  import opened Checkpoint
  import opened WaitHistory
  import opened Effects
  import D = Dispatch
  import opened RunMachine
  import opened RunSafety
  import opened RunInvariant
  import opened RunTheorems

  // ---------------------------------------------------------------- reclassification

  predicate Unconfirmed(r: InvocationRecord) {
    r.operation.Some? && r.state == InvocationState.Running
  }

  /** What an interrupted attempt becomes: doubt is kept for a write, and an unsafe one is never scheduled again. */
  predicate Reclassified(op: D.OpPlan, before: InvocationRecord, after: InvocationRecord) {
    && after.attempts == before.attempts && after.input == before.input && after.attemptId == before.attemptId
    && if op.IsWrite() then
         && after.certainty != NotApplied
         && (after.state == InvocationState.Unknown || (after.state == RetryScheduled && !op.IsUnsafe()))
       else
         && after.certainty == NotApplied
         && (after.state == RetryScheduled || after.state == InvocationState.Failed || after.state == InvocationState.Cancelled)
  }

  lemma InterruptedMeans(op: D.OpPlan, r: InvocationRecord, cancelled: bool, moment: Moment)
    ensures Reclassified(op, r, FailedRecord(op.descriptor, r, D.Interrupted(op, cancelled), moment))
  {
    var report := D.Interrupted(op, cancelled);
    FailedSchedule(op.descriptor, r, report, moment);
    if op.IsWrite() {
      FailedWrite(op.descriptor, r, report, moment);
    }
    D.FailedFrame(op, r, report, moment);
    hide FailedRecord;
  }

  lemma UnconfirmedIsOperation(plan: Plan, m: Machine, key: string)
    requires Inv(plan, m) && key in m.run.invocations && Unconfirmed(m.run.invocations[key])
    ensures plan.kindOf(key).OpNode? && !IsTerminal(m.run.state)
  {
    AnyKeyFits(plan, m, key);
    hide WaitsConsistent, AllKeysFit;
  }

  function RecoverKey(key: string, at: nat): Event {
    OpStep(key, D.Recover(at))
  }

  lemma RecoverEnabled(plan: Plan, m: Machine, key: string, at: nat)
    requires Inv(plan, m) && key in m.run.invocations && Unconfirmed(m.run.invocations[key]) && !m.ready && m.now <= at
    ensures plan.kindOf(key).OpNode? && Enabled(plan, m, RecoverKey(key, at))
  {
    UnconfirmedIsOperation(plan, m, key);
    hide Inv;
  }

  /** The commit of one recovery event. */
  lemma RecoverNext(plan: Plan, m: Machine, key: string, at: nat, failed: InvocationRecord)
    requires key in m.run.invocations && plan.kindOf(key).OpNode? && Enabled(plan, m, RecoverKey(key, at))
    requires failed == FailedRecord(plan.kindOf(key).op.descriptor, m.run.invocations[key],
                                    D.Interrupted(plan.kindOf(key).op, m.run.cancelRequested), D.MomentAt(ClockOf(m), at))
    requires failed != m.run.invocations[key]
    ensures var n := Next(plan, m, RecoverKey(key, at));
      n.run == WithNode(m.run, key, failed) && n.ready == m.ready && n.now == m.now
  {
    hide FailedRecord, D.Interrupted, D.Enabled;
  }

  /** One record is reclassified; the others, and the process state, stay. */
  lemma RecoverStep(plan: Plan, m: Machine, key: string, at: nat)
    requires Inv(plan, m) && key in m.run.invocations && Unconfirmed(m.run.invocations[key]) && !m.ready && m.now <= at
    ensures Enabled(plan, m, RecoverKey(key, at)) && plan.kindOf(key).OpNode?
    ensures var n := Next(plan, m, RecoverKey(key, at));
      && !n.ready && n.now == m.now && n.run.revision == m.run.revision + 1
      && n.run.invocations.Keys == m.run.invocations.Keys
      && (forall k :: k in m.run.invocations && k != key ==> n.run.invocations[k] == m.run.invocations[k])
      && Reclassified(plan.kindOf(key).op, m.run.invocations[key], n.run.invocations[key])
  {
    hide Inv, Next, Enabled, FailedRecord, D.Interrupted;
    RecoverEnabled(plan, m, key, at);
    var op, r := plan.kindOf(key).op, m.run.invocations[key];
    var failed := FailedRecord(op.descriptor, r, D.Interrupted(op, m.run.cancelRequested), D.MomentAt(ClockOf(m), at));
    InterruptedMeans(op, r, m.run.cancelRequested, D.MomentAt(ClockOf(m), at));
    assert failed.state != InvocationState.Running;
    RecoverNext(plan, m, key, at, failed);
  }

  /** What recovery has done so far: the records in `left` are untouched, the interrupted others are settled. */
  ghost predicate Progress(plan: Plan, first: map<string, InvocationRecord>, nodes: map<string, InvocationRecord>, left: set<string>) {
    && nodes.Keys == first.Keys
    && forall k :: k in first ==>
         if Unconfirmed(first[k]) && k !in left then plan.kindOf(k).OpNode? && Reclassified(plan.kindOf(k).op, first[k], nodes[k])
         else nodes[k] == first[k]
  }

  lemma StartProgress(plan: Plan, first: map<string, InvocationRecord>, left: set<string>)
    requires left == set k | k in first && Unconfirmed(first[k])
    ensures Progress(plan, first, first, left)
  {
    hide Unconfirmed;
  }

  lemma NothingLeft(plan: Plan, first: map<string, InvocationRecord>, nodes: map<string, InvocationRecord>)
    requires Progress(plan, first, nodes, {})
    ensures NoneRunning(nodes)
  {
    forall k | k in nodes && nodes[k].operation.Some?
      ensures nodes[k].state != InvocationState.Running
    {
      if Unconfirmed(first[k]) {
        assert Reclassified(plan.kindOf(k).op, first[k], nodes[k]);
      }
    }
  }

  /** Time passes while recovery works. */
  lemma TickKeeps(plan: Plan, m: Machine, elapsed: nat)
    requires Inv(plan, m) && m.run.revision < MAX_REVISION
    ensures Enabled(plan, m, RunStep(Tick(elapsed))) && Inv(plan, Next(plan, m, RunStep(Tick(elapsed))))
    ensures Next(plan, m, RunStep(Tick(elapsed))) == m.(now := m.now + elapsed)
  {
    InvKept(plan, m, RunStep(Tick(elapsed)));
    hide Inv;
  }

  /**
   Every attempt the crash left running is reclassified by one commit of the effect
   protocol. Afterwards the runtime may become ready, and no doubt about a write is lost.
   */
  method ClassifyUnfinished(plan: Plan, start: Machine) returns (m: Machine)
    requires Inv(plan, start) && !start.ready
    requires start.run.revision + |start.run.invocations| < MAX_REVISION
    ensures Inv(plan, m) && RunEnabled(plan, m, BecomeReady)
    ensures Preserved(start.run, m.run) && start.run.revision <= m.run.revision
    ensures Progress(plan, start.run.invocations, m.run.invocations, {})
  {
    hide Inv, Next, Enabled, Preserved, Reclassified, Progress, NoneRunning, Lawful;
    m := start;
    var left := set k | k in m.run.invocations && Unconfirmed(m.run.invocations[k]);
    S.SubsetCount(left, m.run.invocations.Keys);
    PreservedSelf(m.run);
    StartProgress(plan, m.run.invocations, left);
    while left != {}
      invariant left <= m.run.invocations.Keys && Inv(plan, m) && !m.ready
      invariant m.run.revision + |left| < MAX_REVISION
      invariant Preserved(start.run, m.run) && start.run.revision <= m.run.revision
      invariant Progress(plan, start.run.invocations, m.run.invocations, left)
      invariant forall k :: k in left ==> Unconfirmed(m.run.invocations[k])
      decreases left
    {
      var key :| key in left;
      var elapsed, delay :| elapsed >= 0 && delay >= 0;
      TickKeeps(plan, m, elapsed);
      m := m.(now := m.now + elapsed);
      var next := Reclassify(plan, m, key, m.now + delay);
      ProgressStep(plan, start.run.invocations, m.run.invocations, next.run.invocations, left, key);
      PreservedTransitive(start.run, m.run, next.run);
      m, left := next, left - {key};
    }
    NothingLeft(plan, start.run.invocations, m.run.invocations);
  }

  /** One commit of the loop. */
  method Reclassify(plan: Plan, m: Machine, key: string, at: nat) returns (n: Machine)
    requires Inv(plan, m) && key in m.run.invocations && Unconfirmed(m.run.invocations[key]) && !m.ready && m.now <= at
    requires m.run.revision < MAX_REVISION
    ensures Enabled(plan, m, RecoverKey(key, at)) && n == Next(plan, m, RecoverKey(key, at))
    ensures Inv(plan, n) && !n.ready && Preserved(m.run, n.run) && n.run.revision == m.run.revision + 1
    ensures n.run.invocations.Keys == m.run.invocations.Keys && plan.kindOf(key).OpNode?
    ensures forall k :: k in m.run.invocations && k != key ==> n.run.invocations[k] == m.run.invocations[k]
    ensures Reclassified(plan.kindOf(key).op, m.run.invocations[key], n.run.invocations[key])
  {
    hide Inv, Next, Enabled, Preserved, Reclassified, Lawful, Unconfirmed;
    RecoverStep(plan, m, key, at);
    InvKept(plan, m, RecoverKey(key, at));
    n := Next(plan, m, RecoverKey(key, at));
    LawfulPreserves(m, n);
  }

  lemma ProgressStep(plan: Plan, first: map<string, InvocationRecord>, nodes: map<string, InvocationRecord>,
                     next: map<string, InvocationRecord>, left: set<string>, key: string)
    requires Progress(plan, first, nodes, left) && key in left && key in nodes && Unconfirmed(nodes[key])
    requires next.Keys == nodes.Keys && forall k :: k in nodes && k != key ==> next[k] == nodes[k]
    requires plan.kindOf(key).OpNode? && Reclassified(plan.kindOf(key).op, nodes[key], next[key])
    ensures Progress(plan, first, next, left - {key})
  {
    hide Reclassified, Unconfirmed;
  }

  lemma PreservedSelf(run: RunSnapshot)
    ensures Preserved(run, run)
  {
  }

  // ---------------------------------------------------------------- the supervisor

  datatype Mark = Started(id: string) | Ended(id: string)

  /** A worker of this run is alive after these events. */
  predicate Live(log: seq<Mark>, id: string) {
    if log == [] then false
    else if log[|log| - 1].id == id then log[|log| - 1].Started?
    else Live(log[..|log| - 1], id)
  }

  /** No run is given a second worker while it has one, and only a live worker ends. */
  predicate OneEach(log: seq<Mark>) {
    forall i :: 0 <= i < |log| ==> (log[i].Started? <==> !Live(log[..i], log[i].id))
  }

  /** Between two starts of one run its first worker ended. */
  lemma {:induction false} WorkersNeverOverlap(log: seq<Mark>, i: nat, j: nat)
    requires OneEach(log) && i < j < |log| && log[i].Started? && log[j] == log[i]
    ensures Ended(log[i].id) in log[i + 1..j]
  {
    if Ended(log[i].id) !in log[i + 1..j] {
      StaysLive(log, i, j);
    }
  }

  lemma {:induction false} StaysLive(log: seq<Mark>, i: nat, j: nat)
    requires i < j <= |log| && log[i].Started? && Ended(log[i].id) !in log[i + 1..j]
    ensures Live(log[..j], log[i].id)
    decreases j
  {
    assert log[..j][..j - 1] == log[..j - 1];
    if i < j - 1 {
      assert log[j - 1] in log[i + 1..j];
      assert log[i + 1..j] == log[i + 1..j - 1] + [log[j - 1]];
      StaysLive(log, i, j - 1);
    }
  }

  lemma Extended(log: seq<Mark>, mark: Mark)
    requires OneEach(log) && (mark.Started? <==> !Live(log, mark.id))
    ensures OneEach(log + [mark])
    ensures forall id :: Live(log + [mark], id) == if id == mark.id then mark.Started? else Live(log, id)
  {
    var longer := log + [mark];
    assert longer[..|log|] == log;
    forall i | 0 <= i < |longer|
      ensures longer[i].Started? <==> !Live(longer[..i], longer[i].id)
    {
      assert longer[..i] == if i < |log| then log[..i] else log;
    }
  }

  predicate Eligible(head: RunHead, now: nat) {
    || head.state == Accepted || head.state == RunState.Running || head.state == Cancelling
    || (head.state == RunState.Waiting && now >= (if head.nextWakeup.Some? then head.nextWakeup.value else head.deadlineAt))
  }

  /** A run can go on now: it is under way or being cancelled, or it waits and its deadline passed or one of its waits is ready. */
  ghost predicate CanGoOn(run: RunSnapshot, now: nat) {
    || run.state == Accepted || run.state == RunState.Running || run.state == Cancelling
    || (run.state == RunState.Waiting
        && (now >= run.deadlineAt || exists k, at: nat :: k in run.waits && ReadyAt(run.waits[k], at) && at <= now))
  }

  /** What the supervisor reads off a head is whether the run itself can go on; blocked and finished runs never do. */
  lemma EligibleMeans(sz: Sizer, run: RunSnapshot, now: nat)
    ensures Eligible(Head(sz, run), now) <==> CanGoOn(run, now)
    ensures run.state == Blocked || IsTerminal(run.state) ==> !Eligible(Head(sz, run), now)
  {
    hide RunBytes, UnresolvedKeys, NextWakeup;
    if run.state == RunState.Waiting {
      WakeupMeans(run, run.deadlineAt);
      if NextWakeup(run).Some? {
        WakeupMeans(run, NextWakeup(run).value);
      }
      WaitingWakes(run, now);
    }
  }

  lemma WaitingWakes(run: RunSnapshot, now: nat)
    requires run.state == RunState.Waiting
    ensures NextWakeup(run).Some?
    ensures NextWakeup(run).value <= now <==> CanGoOn(run, now)
  {
    var at := NextWakeup(run).value;
    WakeupMeans(run, at);
    hide NextWakeup;
    forall k, b: nat | k in run.waits && ReadyAt(run.waits[k], b)
      ensures at <= b
    {
      if at == run.deadlineAt && b < at {
        PendingMeans(run.waits, b);
        Earliest(run.waits, k, b);
      }
    }
  }

  /** Some wait is ready first. */
  lemma Earliest(waits: map<string, WaitRecord>, k: string, b: nat)
    requires k in waits && ReadyAt(waits[k], b)
    ensures exists at: nat :: at <= b && FirstReady(waits, at)
  {
    PendingMeans(waits, b);
    var at := PendingWakeup(waits);
    assert at.Some?;
    PendingMeans(waits, at.value);
    hide PendingWakeup;
    assert FirstReady(waits, at.value);
  }

  /** After a round: everything eligible has a worker, or could not be prepared, unless all places are taken. */
  predicate Served(pending: seq<RunHead>, now: nat, active: set<string>, limit: nat, blocked: set<string>) {
    |active| == limit || forall i :: 0 <= i < |pending| && Eligible(pending[i], now) ==> pending[i].id in active + blocked
  }

  predicate Due(pending: seq<RunHead>, now: nat, id: string) {
    exists i :: 0 <= i < |pending| && pending[i].id == id && Eligible(pending[i], now)
  }

  lemma DueHere(pending: seq<RunHead>, now: nat, i: nat)
    requires i < |pending| && Eligible(pending[i], now)
    ensures Due(pending, now, pending[i].id)
  {
  }

  class Supervisor {
    const limit: nat
    var active: set<string>
    ghost var log: seq<Mark>

    ghost predicate Valid()
      reads this
    {
      |active| <= limit && OneEach(log) && forall id :: id in active <==> Live(log, id)
    }

    constructor (limit: nat)
      ensures Valid() && active == {} && log == [] && this.limit == limit
    {
      this.limit, active, log := limit, {}, [];
    }

    /** One pass over the unfinished runs, in the store's order. */
    method Round(pending: seq<RunHead>, now: nat, prepares: string -> bool) returns (blocked: set<string>)
      requires Valid()
      modifies this
      ensures Valid() && old(active) <= active && old(log) <= log
      ensures Served(pending, now, active, limit, blocked)
      ensures forall id :: id in (active - old(active)) + blocked ==> Due(pending, now, id)
      ensures forall id :: id in blocked ==> !prepares(id)
      ensures forall id :: id in active - old(active) ==> prepares(id)
    {
      hide Live, OneEach, Due;
      blocked := {};
      var i := 0;
      while i < |pending|
        invariant i <= |pending| && Valid() && old(active) <= active && old(log) <= log
        invariant forall j :: 0 <= j < i && Eligible(pending[j], now) ==> pending[j].id in active + blocked
        invariant forall id :: id in (active - old(active)) + blocked ==> Due(pending, now, id)
        invariant forall id :: id in blocked ==> !prepares(id)
        invariant forall id :: id in active - old(active) ==> prepares(id)
      {
        var head := pending[i];
        if Eligible(head, now) {
          DueHere(pending, now, i);
          if |active| >= limit {
            return;
          }
          if head.id !in active {
            if prepares(head.id) {
              Extended(log, Mark.Started(head.id));
              active, log := active + {head.id}, log + [Mark.Started(head.id)];
            } else {
              blocked := blocked + {head.id};
            }
          }
        }
        i := i + 1;
      }
    }

    /** A worker's task ended. */
    method Joined(id: string)
      requires Valid() && id in active
      modifies this
      ensures Valid() && active == old(active) - {id} && old(log) <= log
    {
      hide Live, OneEach;
      Extended(log, Ended(id));
      active, log := active - {id}, log + [Ended(id)];
    }

    /** Cancellation waits for every worker. */
    method Drain()
      requires Valid()
      modifies this
      ensures Valid() && active == {} && old(log) <= log
    {
      while active != {}
        invariant Valid() && old(log) <= log
        decreases active
      {
        var id :| id in active;
        Joined(id);
      }
    }
  }
}
