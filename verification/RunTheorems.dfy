/** The guarantees of whole executions of one run. */
module RunTheorems {
  import opened Protocol
  import opened Checkpoint
  import opened WaitHistory
  import D = Dispatch
  import opened RunMachine
  import opened RunSafety
  import opened RunInvariant

  /** One event at a revision that is not the last one. */
  ghost predicate Steps(plan: Plan, m: Machine, n: Machine) {
    m.run.revision < MAX_REVISION && exists e :: Enabled(plan, m, e) && n == Next(plan, m, e)
  }

  /** Any interleaving of every actor, from an accepted run. */
  ghost predicate Execution(plan: Plan, t: seq<Machine>) {
    t != [] && Initial(plan, t[0]) && forall i :: 0 < i < |t| ==> Steps(plan, t[i - 1], t[i])
  }

  lemma {:induction false} Reachable(plan: Plan, t: seq<Machine>, i: nat)
    requires Execution(plan, t) && i < |t|
    ensures Inv(plan, t[i])
    decreases i
  {
    if i == 0 {
      InitialHolds(plan, t[0]);
    } else {
      Reachable(plan, t, i - 1);
      assert Steps(plan, t[i - 1], t[i]);
      var e :| Enabled(plan, t[i - 1], e) && t[i] == Next(plan, t[i - 1], e);
      InvKept(plan, t[i - 1], e);
      hide Inv, Enabled, Next, Initial;
    }
  }

  /**
   No hidden effect: a finished run has no operation still running, and either nothing is
   unresolved, or tracking was stopped and exactly the unresolved invocations are named.
   */
  lemma NoHiddenEffect(plan: Plan, t: seq<Machine>, i: nat)
    requires Execution(plan, t) && i < |t| && IsTerminal(t[i].run.state)
    ensures NothingHidden(t[i].run)
    ensures t[i].run.state == RunState.Succeeded ==> NothingUnresolved(t[i].run.invocations)
  {
    Reachable(plan, t, i);
    hide Execution, WaitsConsistent, AllKeysFit;
  }

  /** At most once, for every unsafe write of the plan, in every execution of the run. */
  lemma UnsafeWritesHappenAtMostOnce(plan: Plan, t: seq<Machine>, i: nat, key: string)
    requires Execution(plan, t) && i < |t| && plan.kindOf(key).OpNode? && plan.kindOf(key).op.IsUnsafe()
    ensures |CellOf(t[i], key).world.effects| <= 1
  {
    Reachable(plan, t, i);
    AnyKeyFits(plan, t[i], key);
    hide Execution, WaitsConsistent, AllKeysFit, LifeFits, D.RecordFits, D.CallsFit, D.TaskFits;
  }

  /** Every call of one invocation carries the same effect key and input, and calls stay within the attempt limit. */
  lemma CallsOfOneInvocationAgree(plan: Plan, t: seq<Machine>, i: nat, key: string, p: nat, q: nat)
    requires Execution(plan, t) && i < |t| && plan.kindOf(key).OpNode?
    requires p < |CellOf(t[i], key).world.calls| && q < |CellOf(t[i], key).world.calls|
    ensures var calls := CellOf(t[i], key).world.calls;
      && calls[p].effectKey == calls[q].effectKey == plan.kindOf(key).op.EffectKey()
      && calls[p].input == calls[q].input && |calls| <= plan.kindOf(key).op.retry.maxAttempts
  {
    Reachable(plan, t, i);
    AnyKeyFits(plan, t[i], key);
    hide Execution, WaitsConsistent, AllKeysFit, LifeFits, D.UnsafeFits, D.TaskFits;
  }

  lemma LawfulPreserves(m: Machine, n: Machine)
    requires Lawful(m, n)
    ensures Preserved(m.run, n.run) && m.run.revision <= n.run.revision
    ensures n.run.revision == m.run.revision ==> n.run == m.run
  {
    hide WaitsConsistent;
  }

  lemma StepPreserves(plan: Plan, t: seq<Machine>, j: nat)
    requires Execution(plan, t) && 0 < j < |t|
    ensures Preserved(t[j - 1].run, t[j].run) && t[j - 1].run.revision <= t[j].run.revision
    ensures t[j].run.revision == t[j - 1].run.revision ==> t[j].run == t[j - 1].run
  {
    Reachable(plan, t, j - 1);
    assert Steps(plan, t[j - 1], t[j]);
    var e :| Enabled(plan, t[j - 1], e) && t[j] == Next(plan, t[j - 1], e);
    InvKept(plan, t[j - 1], e);
    LawfulPreserves(t[j - 1], t[j]);
    hide Inv, Enabled, Next, Initial, Preserved, Lawful;
  }

  /** Along every execution the committed snapshots obey the wait history: nothing confirmed, delivered or audited is lost. */
  lemma {:induction false} CommitsPreserve(plan: Plan, t: seq<Machine>, i: nat, j: nat)
    requires Execution(plan, t) && i <= j < |t|
    ensures Preserved(t[i].run, t[j].run) && t[i].run.revision <= t[j].run.revision
    ensures t[j].run.revision == t[i].run.revision ==> t[j].run == t[i].run
    decreases j
  {
    hide Execution, Preserved;
    if i < j {
      CommitsPreserve(plan, t, i, j - 1);
      StepPreserves(plan, t, j);
      PreservedTransitive(t[i].run, t[j - 1].run, t[j].run);
    } else {
      LawfulPreserves(t[i], t[i]);
    }
  }

  /**
   A commit conflict always means another writer moved the revision: a proposal made from a
   snapshot read earlier is accepted by the store if the revision is still the one it read.
   */
  lemma ConflictMeansMoved(plan: Plan, t: seq<Machine>, i: nat, j: nat, e: Event)
    requires Execution(plan, t) && i <= j < |t| && Enabled(plan, t[i], e) && t[i].run.revision < MAX_REVISION
    requires Next(plan, t[i], e).run != t[i].run
    requires !ValidSuccessor(t[j].run, t[i].run.revision, Next(plan, t[i], e).run)
    ensures t[i].run.revision < t[j].run.revision
  {
    Reachable(plan, t, i);
    InvKept(plan, t[i], e);
    CommitsPreserve(plan, t, i, j);
    hide Inv, Enabled, Next, Execution, ValidSuccessor, Preserved;
  }

  /** Seen from one operation, an execution of the run is a history of its effect protocol. */
  lemma ExecutionIsDispatchHistory(plan: Plan, t: seq<Machine>, key: string)
    requires Execution(plan, t) && plan.kindOf(key).OpNode?
    ensures D.History(plan.kindOf(key).op, seq(|t|, i requires 0 <= i < |t| => SnapOf(t[i], key)))
  {
    var h := seq(|t|, i requires 0 <= i < |t| => SnapOf(t[i], key));
    forall i | 0 < i < |h|
      ensures D.Moves(plan.kindOf(key).op, h[i - 1], h[i])
    {
      Reachable(plan, t, i - 1);
      assert Steps(plan, t[i - 1], t[i]);
      var e :| Enabled(plan, t[i - 1], e) && t[i] == Next(plan, t[i - 1], e);
      Projects(plan, t[i - 1], e, key);
    }
    assert D.Fresh(plan.kindOf(key).op, h[0]);
    hide Inv, Enabled, Next, D.Moves;
  }
}
