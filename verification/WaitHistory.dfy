/** What every chain of accepted commits keeps, from the first snapshot to the last. */
module WaitHistory {
  import opened Wrappers
  import opened Protocol
  import opened Checkpoint

  /** An accepted creation followed by accepted commits. */
  ghost predicate History(h: seq<RunSnapshot>) {
    && h != [] && ValidInitial(h[0])
    && (forall i :: 0 < i < |h| ==> ValidSuccessor(h[i - 1], h[i - 1].revision, h[i]))
  }

  /** What an earlier snapshot fixes for a later one. */
  ghost predicate Preserved(a: RunSnapshot, b: RunSnapshot) {
    && SameIdentity(a, b)
    && (a.cancelRequested ==> b.cancelRequested)
    && KeepsConfirmed(a, b)
    && a.audit <= b.audit
    && (IsTerminal(a.state) ==> b.(revision := a.revision, audit := a.audit) == a)
    && a.waits.Keys <= b.waits.Keys
    && (forall id :: id in a.waits ==> WaitContinues(a.waits[id], b.waits[id]))
  }

  lemma PreservedTransitive(a: RunSnapshot, b: RunSnapshot, c: RunSnapshot)
    requires Preserved(a, b) && Preserved(b, c)
    ensures Preserved(a, c)
  {
    forall id | id in a.waits
      ensures WaitContinues(a.waits[id], c.waits[id])
    {
      assert WaitContinues(a.waits[id], b.waits[id]) && WaitContinues(b.waits[id], c.waits[id]);
    }
    forall key | NodeSucceeded(a, key)
      ensures key in c.invocations && c.invocations[key] == a.invocations[key]
    {
      assert NodeSucceeded(b, key);
    }
  }

  /**
   Along every history: revisions count the commits, identity and confirmed results never
   change, cancellation and the audit only grow, a terminal run changes nothing but its
   audit, and each wait keeps its identity, its delivery and its first settled state.
   */
  lemma {:induction false} HistoryPreserves(h: seq<RunSnapshot>, i: nat, j: nat)
    requires History(h) && i <= j < |h|
    ensures h[j].revision == h[i].revision + (j - i) && h[i].revision == i
    ensures Preserved(h[i], h[j])
    decreases j
  {
    if j > 0 {
      assert ValidSuccessor(h[j - 1], h[j - 1].revision, h[j]);
      if i < j {
        HistoryPreserves(h, i, j - 1);
        PreservedTransitive(h[i], h[j - 1], h[j]);
      } else {
        HistoryPreserves(h, i - 1, j - 1);
      }
    }
  }

  /** Every snapshot of a history satisfies the single-snapshot wait checks. */
  lemma HistoryConsistent(h: seq<RunSnapshot>, i: nat)
    requires History(h) && i < |h|
    ensures WaitsConsistent(h[i])
  {
    if i > 0 {
      assert ValidSuccessor(h[i - 1], h[i - 1].revision, h[i]);
    }
  }

  /** Every history starts with a fresh run: accepted, empty, unasked and unfinished, with bounded artifacts of its own scope. */
  lemma StartsFresh(h: seq<RunSnapshot>, i: nat, j: nat)
    requires History(h)
    ensures h[0].revision == 0 && h[0].checkpointFormat == CHECKPOINT_FORMAT && h[0].state == RunState.Accepted
    ensures h[0].invocations == map[] && h[0].waits == map[] && h[0].audit == [] && h[0].unresolvedEffects == []
    ensures h[0].output == None && h[0].error == None && h[0].finishedAt == None && !h[0].cancelRequested
    ensures h[0].createdAt <= h[0].deadlineAt && |h[0].artifacts| <= 1000
    ensures i < |h[0].artifacts| ==> h[0].artifacts[i].scope == h[0].scope
    ensures i < j < |h[0].artifacts| ==> h[0].artifacts[i].id != h[0].artifacts[j].id
  {
  }

  /** A run keeps what it was created as, every confirmed result, its cancellation and its audit; once finished, everything. */
  lemma WhatNeverChanges(h: seq<RunSnapshot>, i: nat, j: nat, key: string)
    requires History(h) && i <= j < |h|
    ensures h[i].id == h[j].id && h[i].scope == h[j].scope && h[i].actor == h[j].actor && h[i].resources == h[j].resources
    ensures h[i].definition == h[j].definition && h[i].package == h[j].package && h[i].input == h[j].input
    ensures h[i].artifacts == h[j].artifacts && h[i].createdAt == h[j].createdAt && h[i].deadlineAt == h[j].deadlineAt
    ensures key in h[i].invocations && h[i].invocations[key].state == InvocationState.Succeeded ==>
      key in h[j].invocations && h[j].invocations[key] == h[i].invocations[key]
    ensures (h[i].cancelRequested ==> h[j].cancelRequested) && h[i].audit <= h[j].audit
    ensures IsTerminal(h[i].state) ==>
      && h[j].state == h[i].state && h[j].output == h[i].output && h[j].error == h[i].error && h[j].finishedAt == h[i].finishedAt
      && h[j].invocations == h[i].invocations && h[j].waits == h[i].waits && h[j].unresolvedEffects == h[i].unresolvedEffects
  {
    HistoryPreserves(h, i, j);
    hide History, WaitContinues;
    if IsTerminal(h[i].state) {
      assert h[j].(revision := h[i].revision, audit := h[i].audit) == h[i];
    }
  }

  /** A wait belongs to the node that names it, ends with the run at the latest, and keeps its terms for good. */
  lemma WaitKeepsItsTerms(h: seq<RunSnapshot>, i: nat, j: nat, id: string)
    requires History(h) && i <= j < |h| && id in h[i].waits
    ensures id in h[j].waits
    ensures var w, v := h[i].waits[id], h[j].waits[id];
      && w.id == id && w.createdAt <= w.deadlineAt <= h[i].deadlineAt
      && w.node in h[i].invocations && h[i].invocations[w.node].control == Some(ControlFrame.Wait(id))
      && v.id == w.id && v.node == w.node && v.kind == w.kind && v.createdAt == w.createdAt && v.deadlineAt == w.deadlineAt
      && (w.startConfirmed ==> v.startConfirmed) && (w.delivery.Some? ==> v.delivery == w.delivery)
      && (IsTerminal(h[j].state) ==> v.state != Open)
  {
    HistoryPreserves(h, i, j);
    HistoryConsistent(h, i);
    HistoryConsistent(h, j);
    assert WaitContinues(h[i].waits[id], h[j].waits[id]) && WaitShape(h[i], id);
    hide History, WaitKindFits, WaitSettled;
  }

  /** What a wait holds was sent to it: to this run and this wait, under its correlation, with artifacts of its scope. */
  lemma DeliveryIsItsOwn(h: seq<RunSnapshot>, i: nat, id: string)
    requires History(h) && i < |h| && id in h[i].waits && h[i].waits[id].delivery.Some?
    ensures h[i].waits[id].kind.Signal?
    ensures var w, d := h[i].waits[id], h[i].waits[id].delivery.value;
      && d.command.runId == h[i].id && d.command.waitId == id && d.command.correlation == w.kind.correlation
      && d.command.messageId != "" && d.receipt.runId == h[i].id && d.receipt.waitId == id
      && d.receipt.messageId == d.command.messageId && !d.receipt.duplicate
      && forall k :: 0 <= k < |d.command.artifacts| ==> d.command.artifacts[k].scope == h[i].scope
  {
    HistoryConsistent(h, i);
    assert WaitShape(h[i], id) && WaitKindFits(h[i], h[i].waits[id]);
    hide History;
  }

  /** At most one delivery: once some snapshot holds one, every later snapshot holds the same. */
  lemma DeliveredOnce(h: seq<RunSnapshot>, i: nat, j: nat, id: string)
    requires History(h) && i < |h| && j < |h|
    requires id in h[i].waits && h[i].waits[id].delivery.Some?
    requires id in h[j].waits && h[j].waits[id].delivery.Some?
    ensures h[i].waits[id].delivery == h[j].waits[id].delivery
    ensures h[j].waits[id].state != Expired
    ensures h[j].waits[id].createdAt <= h[j].waits[id].delivery.value.receipt.acceptedAt < h[j].waits[id].deadlineAt
  {
    HistoryConsistent(h, i);
    HistoryConsistent(h, j);
    if i <= j {
      HistoryPreserves(h, i, j);
    } else {
      HistoryPreserves(h, j, i);
    }
    assert WaitKindFits(h[j], h[j].waits[id]);
  }

  /** A wait leaves the open state at most once, and never both delivered and expired. */
  lemma LeavesOpenOnce(h: seq<RunSnapshot>, i: nat, j: nat, id: string)
    requires History(h) && i <= j < |h| && id in h[i].waits && h[i].waits[id].state != Open
    ensures id in h[j].waits && h[j].waits[id] == h[i].waits[id]
    ensures h[j].waits[id].state == Expired ==> forall k :: 0 <= k < |h| && id in h[k].waits ==> h[k].waits[id].delivery == None
  {
    HistoryPreserves(h, i, j);
    assert WaitContinues(h[i].waits[id], h[j].waits[id]);
    if h[j].waits[id].state == Expired {
      forall k | 0 <= k < |h| && id in h[k].waits
        ensures h[k].waits[id].delivery == None
      {
        ExpiredUndelivered(h, j, k, id);
      }
    }
  }

  lemma ExpiredUndelivered(h: seq<RunSnapshot>, j: nat, k: nat, id: string)
    requires History(h) && j < |h| && k < |h| && id in h[j].waits && id in h[k].waits
    requires h[j].waits[id].state == Expired
    ensures h[k].waits[id].delivery == None
  {
    HistoryConsistent(h, j);
    assert WaitKindFits(h[j], h[j].waits[id]);
    if j <= k {
      HistoryPreserves(h, j, k);
    } else {
      HistoryPreserves(h, k, j);
    }
  }

  /** A node that waits is confirmed exactly while its wait is consumed, with the output fixed by delivery and start. */
  lemma ConsumedExactlyWhenConfirmed(h: seq<RunSnapshot>, i: nat, id: string)
    requires History(h) && i < |h| && id in h[i].waits
    ensures h[i].waits[id].node in h[i].invocations
    ensures h[i].waits[id].state == Consumed <==> NodeSucceeded(h[i], h[i].waits[id].node)
    ensures h[i].waits[id].state == Consumed && h[i].waits[id].kind.Signal? ==>
      && h[i].waits[id].delivery.Some?
      && h[i].invocations[h[i].waits[id].node].output == Some(SignalOutput(h[i], h[i].waits[id]))
      && (h[i].waits[id].kind.startNode.Some? ==> NodeSucceeded(h[i], h[i].waits[id].kind.startNode.value))
  {
    HistoryConsistent(h, i);
    assert WaitShape(h[i], id) && WaitKindFits(h[i], h[i].waits[id]) && WaitSettled(h[i], id);
  }

  /** The output of a consumed wait is the same in every later snapshot, and so is the start it reports. */
  lemma ConsumedOutputFixed(h: seq<RunSnapshot>, i: nat, j: nat, id: string)
    requires History(h) && i <= j < |h| && id in h[i].waits && h[i].waits[id].state == Consumed
    ensures id in h[j].waits && h[j].waits[id] == h[i].waits[id]
    ensures h[i].waits[id].node in h[i].invocations && h[i].waits[id].node in h[j].invocations
    ensures h[j].invocations[h[i].waits[id].node] == h[i].invocations[h[i].waits[id].node]
    ensures h[i].waits[id].kind.Signal? ==>
      StartedValue(h[j], h[i].waits[id].kind.startNode) == StartedValue(h[i], h[i].waits[id].kind.startNode)
  {
    ConsumedExactlyWhenConfirmed(h, i, id);
    HistoryPreserves(h, i, j);
    assert WaitContinues(h[i].waits[id], h[j].waits[id]);
  }

  /** The commit in which a wait stops being open. */
  ghost function SettledAt(h: seq<RunSnapshot>, i: nat, id: string): (k: nat)
    requires History(h) && i < |h| && id in h[i].waits && h[i].waits[id].state != Open
    ensures 0 < k <= i && id in h[k].waits && h[k].waits[id].state != Open
    ensures id in h[k - 1].waits && h[k - 1].waits[id].state == Open
    decreases i
  {
    assert i > 0;
    assert ValidSuccessor(h[i - 1], h[i - 1].revision, h[i]);
    if h[i - 1].waits[id].state != Open then SettledAt(h, i - 1, id) else i
  }

  /** A timer was consumed in one commit, and its output is the input its node had just before. */
  lemma TimerReturnsItsInput(h: seq<RunSnapshot>, i: nat, id: string)
    requires History(h) && i < |h| && id in h[i].waits
    requires h[i].waits[id].state == Consumed && h[i].waits[id].kind.Timer?
    ensures var k, node := SettledAt(h, i, id), h[i].waits[id].node;
      && node in h[i].invocations && node in h[k - 1].invocations
      && h[i].invocations[node].output == Some(h[k - 1].invocations[node].input)
  {
    var k, node := SettledAt(h, i, id), h[i].waits[id].node;
    HistoryPreserves(h, k - 1, i);
    HistoryPreserves(h, k, i);
    HistoryConsistent(h, k - 1);
    HistoryConsistent(h, k);
    assert ValidSuccessor(h[k - 1], h[k - 1].revision, h[k]);
    assert WaitContinues(h[k].waits[id], h[i].waits[id]);
    assert WaitContinues(h[k - 1].waits[id], h[k].waits[id]);
    assert TimerOutput(h[k - 1], h[k], id);
    ConsumedExactlyWhenConfirmed(h, k, id);
  }

  // ---------------------------------------------------------------- what a reader finds later

  /** Any number of accepted commits after `a`. */
  ghost predicate Later(a: RunSnapshot, b: RunSnapshot) {
    && Preserved(a, b) && a.revision <= b.revision && (b.revision == a.revision ==> b == a)
    && (a.revision <= MAX_REVISION ==> b.revision <= MAX_REVISION)
  }

  lemma LaterTransitive(a: RunSnapshot, b: RunSnapshot, c: RunSnapshot)
    requires Later(a, b) && Later(b, c)
    ensures Later(a, c)
  {
    PreservedTransitive(a, b, c);
    hide Preserved;
  }

  lemma LaterSelf(a: RunSnapshot)
    ensures Later(a, a)
  {
  }

  lemma SuccessorLater(a: RunSnapshot, b: RunSnapshot)
    requires ValidSuccessor(a, a.revision, b)
    ensures Later(a, b) && WaitsConsistent(b) && b.revision == a.revision + 1 <= MAX_REVISION
  {
    hide WaitsConsistent;
  }

  // ---------------------------------------------------------------- the single-node commit

  /** The refusal test of a single-node commit, shared by the trait default and the stores. */
  predicate NodeCommitAllowed(run: RunSnapshot, expected: nat, node: string, record: InvocationRecord) {
    && run.revision == expected
    && !record.IsWait()
    && !(node in run.invocations && run.invocations[node].IsWait())
    && !IsTerminal(run.state)
    && !(NodeSucceeded(run, node) && run.invocations[node] != record)
    && expected < MAX_REVISION
  }

  function WithNode(run: RunSnapshot, node: string, record: InvocationRecord): RunSnapshot {
    run.(revision := run.revision + 1, invocations := run.invocations[node := record])
  }

  /** Replacing one non-wait record cannot invalidate any wait of a consistent run. */
  lemma NodeCommitKeepsWaits(run: RunSnapshot, expected: nat, node: string, record: InvocationRecord)
    requires WaitsConsistent(run) && NodeCommitAllowed(run, expected, node, record)
    ensures ValidWaits(run, WithNode(run, node, record))
  {
    var next := WithNode(run, node, record);
    forall id | id in next.waits
      ensures WaitShape(next, id) && WaitKindFits(next, next.waits[id]) && WaitSettled(next, id)
      ensures WaitContinues(run.waits[id], next.waits[id]) && TimerOutput(run, next, id)
    {
      WaitUntouched(run, expected, node, record, id);
    }
  }

  lemma WaitUntouched(run: RunSnapshot, expected: nat, node: string, record: InvocationRecord, id: string)
    requires WaitsConsistent(run) && NodeCommitAllowed(run, expected, node, record) && id in run.waits
    ensures var next := WithNode(run, node, record);
      WaitShape(next, id) && WaitKindFits(next, next.waits[id]) && WaitSettled(next, id)
  {
    var next := WithNode(run, node, record);
    var w := run.waits[id];
    assert WaitShape(run, id) && WaitKindFits(run, w) && WaitSettled(run, id);
    assert run.invocations[w.node].IsWait();
    assert w.node != node;
    if w.kind.Signal? && w.kind.startNode.Some? && w.startConfirmed {
      assert NodeSucceeded(run, w.kind.startNode.value);
      assert next.invocations[w.kind.startNode.value] == run.invocations[w.kind.startNode.value];
    }
  }

  /**
   The single-node commit skips the wait checks, yet on every consistent run it accepts
   exactly what the full commit of the edited snapshot accepts.
   */
  lemma NodeCommitRefinesFullCommit(run: RunSnapshot, expected: nat, node: string, record: InvocationRecord)
    requires WaitsConsistent(run)
    ensures NodeCommitAllowed(run, expected, node, record) ==> ValidSuccessor(run, expected, WithNode(run, node, record))
    ensures NodeCommitAllowed(run, expected, node, record) ==> WaitsConsistent(WithNode(run, node, record))
  {
    if NodeCommitAllowed(run, expected, node, record) {
      NodeCommitKeepsWaits(run, expected, node, record);
    }
  }
}
