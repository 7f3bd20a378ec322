/**
 The in-memory execution store. Byte counters and the unresolved index are kept up to
 date beside each snapshot; every method is proved against the simple map of snapshots.
 */
module MemoryStore {
  import opened Wrappers
  import opened Protocol
  import opened Checkpoint
  import opened WaitHistory
  import opened StoreSpec

  /** The package is kept apart from the snapshot header. */
  datatype StoredRun = StoredRun(snapshot: RunSnapshot, package: Package, bytes: nat, unresolved: set<string>)
  {
    function Materialize(): RunSnapshot {
      snapshot.(package := package)
    }

    /** The counters agree with recomputation. */
    ghost predicate Indexed(sz: Sizer) {
      && snapshot.package == NO_PACKAGE
      && bytes == RunBytes(sz, snapshot)
      && unresolved == UnresolvedKeys(snapshot.invocations)
    }
  }

  ghost function Materialized(stored: map<string, StoredRun>): Runs {
    map id | id in stored :: stored[id].Materialize()
  }

  lemma MaterializedAdded(runs: map<string, StoredRun>, id: string, stored: StoredRun)
    ensures Materialized(runs[id := stored]) == Materialized(runs)[id := stored.Materialize()]
  {
  }

  lemma MaterializedProjections(sz: Sizer, stored: StoredRun)
    ensures Head(sz, stored.Materialize()) == Head(sz, stored.snapshot)
    ensures RunBytes(sz, stored.Materialize()) == RunBytes(sz, stored.snapshot)
  {
  }

  /** Comparing the package first and the header afterwards is the whole successor check. */
  lemma SplitValidation(stored: StoredRun, expected: nat, next: RunSnapshot)
    requires stored.snapshot.package == NO_PACKAGE
    ensures (stored.package == next.package && ValidSuccessor(stored.snapshot, expected, next.(package := NO_PACKAGE)))
      <==> ValidSuccessor(stored.Materialize(), expected, next)
  {
    hide ValidWaits;
    var header, full := stored.snapshot, stored.Materialize();
    var bare := next.(package := NO_PACKAGE);
    if stored.package == next.package {
      SameWaits(header, bare, full, next);
      if TerminalStable(header, bare) {
        assert IsTerminal(full.state) ==> next.(revision := full.revision, audit := full.audit) == full;
      }
      if TerminalStable(full, next) {
        assert IsTerminal(full.state) ==> bare.(revision := header.revision, audit := header.audit) == header;
      }
    }
  }

  lemma SameWaits(a: RunSnapshot, b: RunSnapshot, c: RunSnapshot, d: RunSnapshot)
    requires a == c.(package := a.package) && b == d.(package := b.package)
    ensures ValidWaits(a, b) <==> ValidWaits(c, d)
  {
    WaitsIgnorePackage(b, d);
    assert forall id :: id in b.waits && b.waits[id].node in b.invocations ==> (TimerOutput(a, b, id) <==> TimerOutput(c, d, id));
  }

  lemma WaitsIgnorePackage(b: RunSnapshot, d: RunSnapshot)
    requires b == d.(package := b.package)
    ensures WaitsConsistent(b) <==> WaitsConsistent(d)
    ensures forall id :: id in b.waits ==> (WaitShape(b, id) <==> WaitShape(d, id))
  {
    assert WaitControlsMatch(b) <==> WaitControlsMatch(d);
    forall id | id in b.waits
      ensures WaitShape(b, id) <==> WaitShape(d, id)
      ensures WaitKindFits(b, b.waits[id]) <==> WaitKindFits(d, d.waits[id])
      ensures WaitShape(b, id) ==> (WaitSettled(b, id) <==> WaitSettled(d, id))
    {
      var w := b.waits[id];
      if w.kind.Signal? && w.delivery.Some? {
        assert DeliveryFits(b, w, w.delivery.value) <==> DeliveryFits(d, w, w.delivery.value);
        assert SignalOutput(b, w) == SignalOutput(d, w);
      }
    }
  }

  method NewStored(sz: Sizer, snapshot: RunSnapshot, package: Package) returns (stored: StoredRun)
    requires snapshot.package == NO_PACKAGE
    ensures stored.Indexed(sz) && stored.snapshot == snapshot && stored.package == package
  {
    var bytes := ComputeRunBytes(sz, snapshot);
    var unresolved := ComputeUnresolved(snapshot.invocations);
    stored := StoredRun(snapshot, package, bytes, unresolved);
  }

  /** Head-only transitions reuse the payload sizes and uncertainty of the same nodes. */
  method After(sz: Sizer, current: StoredRun, snapshot: RunSnapshot) returns (stored: StoredRun)
    requires current.Indexed(sz) && snapshot.package == NO_PACKAGE
    requires SameIdentity(current.snapshot, snapshot)
    ensures stored.Indexed(sz) && stored.snapshot == snapshot && stored.package == current.package
  {
    if current.snapshot.invocations == snapshot.invocations {
      var before := ComputeResultBytes(sz, current.snapshot);
      var after := ComputeResultBytes(sz, snapshot);
      stored := StoredRun(snapshot, current.package, SaturatingSub(current.bytes, before) + after, current.unresolved);
    } else {
      stored := NewStored(sz, snapshot, current.package);
    }
  }

  /** The incremental edit of one record. */
  method Replace(sz: Sizer, current: StoredRun, node: string, record: InvocationRecord) returns (stored: StoredRun)
    requires current.Indexed(sz)
    ensures stored.Indexed(sz) && stored.Materialize() == WithNode(current.Materialize(), node, record)
  {
    hide NodeBytes, WaitBytes, RecordBytes, UnresolvedKeys;
    var nodes := current.snapshot.invocations;
    var bytes := SaturatingSub(current.bytes, if node in nodes then RecordBytes(sz, nodes[node]) else 0)
      + RecordBytes(sz, record);
    var unresolved := if record.IsUnresolved() then current.unresolved + {node} else current.unresolved - {node};
    var snapshot := WithNode(current.snapshot, node, record);
    stored := StoredRun(snapshot, current.package, bytes, unresolved);
    NodeBytesReplaced(sz, nodes, node, record);
    UnresolvedReplaced(nodes, node, record);
    RecordWithin(sz, nodes, node);
  }

  method HeadOf(ghost sz: Sizer, stored: StoredRun) returns (head: RunHead)
    requires stored.Indexed(sz)
    ensures head == Head(sz, stored.Materialize())
  {
    var wakeup := ComputeWakeup(stored.snapshot);
    head := RunHead(wakeup, stored.snapshot.id, stored.snapshot.scope, stored.snapshot.revision, stored.snapshot.state,
                    stored.snapshot.cancelRequested, stored.snapshot.deadlineAt, |stored.snapshot.invocations|,
                    stored.bytes, |stored.unresolved|);
    MaterializedProjections(sz, stored);
  }

  lemma IndexDecides(nodes: map<string, InvocationRecord>, prefix: string)
    ensures (exists y :: y in UnresolvedKeys(nodes) && prefix <= y) <==> UnresolvedBelow(nodes, prefix)
  {
    if UnresolvedBelow(nodes, prefix) {
      var k :| k in nodes && nodes[k].IsUnresolved() && prefix <= k;
      assert k in UnresolvedKeys(nodes);
    }
  }

  /** The indexed view: the first key at or after the prefix decides the descendants. */
  method ViewOf(ghost sz: Sizer, stored: StoredRun, node: Option<string>) returns (view: ExecutionView)
    requires stored.Indexed(sz)
    ensures view == View(sz, stored.Materialize(), node)
  {
    var head := HeadOf(sz, stored);
    var invocations := stored.snapshot.invocations;
    if node.Some? {
      var prefix := node.value + "/";
      var first := FirstFrom(stored.unresolved, prefix);
      FirstDecidesPrefix(stored.unresolved, prefix, first);
      view := ExecutionView(head, if node.value in invocations then Some(invocations[node.value]) else None,
                            first.Some? && prefix <= first.value);
      IndexDecides(invocations, prefix);
      assert view.unresolvedDescendants == UnresolvedBelow(invocations, prefix);
    } else {
      view := ExecutionView(head, None, stored.unresolved != {});
      assert stored.unresolved != {} <==> exists k :: k in UnresolvedKeys(invocations);
      assert forall k :: k in invocations && invocations[k].IsUnresolved() ==> k in UnresolvedKeys(invocations);
      assert view.unresolvedDescendants == (exists k :: k in invocations && invocations[k].IsUnresolved());
    }
  }

  ghost predicate AllIndexed(sz: Sizer, runs: map<string, StoredRun>) {
    forall id :: id in runs ==> runs[id].Indexed(sz)
  }

  /** The critical section of the single-node commit, on the map of runs. */
  method CommitNode(sz: Sizer, runs: map<string, StoredRun>, id: string, expected: nat, node: string, record: InvocationRecord)
    returns (r: Result<ExecutionView, StoreError>, after: map<string, StoredRun>)
    requires AllIndexed(sz, runs) && Coherent(Materialized(runs))
    ensures AllIndexed(sz, after) && Coherent(Materialized(after))
    ensures match NodeCommit(Materialized(runs), id, expected, node, record)
            case Ok(next) => r == Ok(View(sz, next[id], Some(node))) && Materialized(after) == next
            case Err(e) => r == Err(e) && after == runs
  {
    hide ValidSuccessor, Coherent, RunBytes, UnresolvedKeys, View, WithNode;
    if id !in runs {
      return Err(NotFound), runs;
    }
    var current := runs[id];
    assert NodeCommitAllowed(current.snapshot, expected, node, record) == NodeCommitAllowed(current.Materialize(), expected, node, record);
    if !NodeCommitAllowed(current.snapshot, expected, node, record) {
      return Err(Conflict), runs;
    }
    hide NodeCommitAllowed;
    var stored := Replace(sz, current, node, record);
    NodeCommitCoherent(Materialized(runs), id, node, record);
    MaterializedAdded(runs, id, stored);
    var view := ViewOf(sz, stored, Some(node));
    return Ok(view), runs[id := stored];
  }

  lemma SuccessorIdentity(run: RunSnapshot, expected: nat, next: RunSnapshot)
    requires ValidSuccessor(run, expected, next)
    ensures SameIdentity(run, next)
  {
  }

  class MemoryExecutionStore {
    const sz: Sizer
    var owner: Option<string>
    var runs: map<string, StoredRun>
    var receipts: Receipts

    ghost predicate Valid()
      reads this
    {
      AllIndexed(sz, runs) && Coherent(Runs())
    }

    /** The abstract store: every held snapshot with its package. */
    ghost function Runs(): StoreSpec.Runs
      reads this
    {
      Materialized(runs)
    }

    constructor (sz: Sizer)
      ensures Valid() && Runs() == map[] && owner == None && receipts == map[] && this.sz == sz
    {
      this.sz := sz;
      owner, runs, receipts := None, map[], map[];
    }

    method Claim(claimant: string) returns (r: Result<(), StoreError>)
      modifies this`owner
      ensures r == if old(owner) == None then Ok(()) else Err(Conflict)
      ensures owner == if old(owner) == None then Some(claimant) else old(owner)
    {
      if owner.Some? {
        return Err(Conflict);
      }
      owner := Some(claimant);
      return Ok(());
    }

    method Release(holder: string) returns (r: Result<(), StoreError>)
      modifies this`owner
      ensures r == if old(owner) == Some(holder) then Ok(()) else Err(Conflict)
      ensures owner == if old(owner) == Some(holder) then None else old(owner)
    {
      if owner != Some(holder) {
        return Err(Conflict);
      }
      owner := None;
      return Ok(());
    }

    method CountActive() returns (count: nat)
      requires Valid()
      ensures count == |ActiveIds(Runs())|
    {
      var active := set id | id in runs && !IsTerminal(runs[id].snapshot.state);
      assert active == ActiveIds(Runs());
      count := |active|;
    }

    /** The admission checks, in order; nothing is changed. */
    method Admit(run: RunSnapshot, receipt: Option<Reservation>, limits: StoreLimits)
      returns (r: Result<CreateOutcome, StoreError>)
      requires Valid()
      ensures r == Admission(Runs(), receipts, run, receipt, limits)
    {
      if receipt.Some? {
        var slot := (run.scope, receipt.value.key);
        if slot in receipts {
          var held := receipts[slot];
          if held.reservation.request != receipt.value.request {
            return Err(Conflict);
          }
          return Ok(Duplicate(held.runId, held.reservation.expiresAt));
        }
        if |receipts| >= limits.receiptCount {
          return Err(AdmissionFull);
        }
      }
      var active := CountActive();
      if active >= limits.activeRuns + limits.pendingRuns {
        return Err(AdmissionFull);
      }
      if !ValidInitial(run) || run.id in runs {
        return Err(Conflict);
      }
      return Ok(Created);
    }

    method Insert(run: RunSnapshot)
      requires Valid() && Coherent(Runs()[run.id := run])
      modifies this`runs
      ensures Valid() && Runs() == old(Runs())[run.id := run]
    {
      var stored := NewStored(sz, run.(package := NO_PACKAGE), run.package);
      MaterializedAdded(runs, run.id, stored);
      runs := runs[run.id := stored];
    }

    /** Expired receipts go first, even when the creation is then refused. */
    method Create(caller: string, run: RunSnapshot, receipt: Option<Reservation>, limits: StoreLimits)
      returns (r: Result<CreateOutcome, StoreError>)
      requires Valid()
      modifies this`runs, this`receipts
      ensures Valid()
      ensures old(owner) != Some(caller) ==> r == Err(Conflict) && Runs() == old(Runs()) && receipts == old(receipts)
      ensures old(owner) == Some(caller) ==>
        && var live := LiveReceipts(old(receipts), run.createdAt);
        && r == Admission(old(Runs()), live, run, receipt, limits)
        && Runs() == (if r == Ok(Created) then old(Runs())[run.id := run] else old(Runs()))
        && receipts == (if r == Ok(Created) && receipt.Some? then live[(run.scope, receipt.value.key) := Receipt(run.id, receipt.value)] else live)
      ensures old(owner) == Some(caller) ==>
        && Decides(old(Runs()), old(receipts), run, receipt, limits, r)
        && (!(r == Ok(Created) && receipt.Some?) ==> Expires(old(receipts), receipts, run.createdAt))
    {
      hide Admission, Decides, LiveReceipts, Expires, Coherent, ValidInitial, AllIndexed, Materialized;
      LiveMeans(receipts, run.createdAt);
      AdmissionMeans(Runs(), receipts, run, receipt, limits);
      if owner != Some(caller) {
        return Err(Conflict);
      }
      receipts := LiveReceipts(receipts, run.createdAt);
      r := Admit(run, receipt, limits);
      if r != Ok(Created) {
        return;
      }
      if receipt.Some? {
        receipts := receipts[(run.scope, receipt.value.key) := Receipt(run.id, receipt.value)];
      }
      CreationCoherent(Runs(), run);
      Insert(run);
    }

    method Get(id: string) returns (run: Option<RunSnapshot>)
      requires Valid()
      ensures run == if id in Runs() then Some(Runs()[id]) else None
    {
      run := if id in runs then Some(runs[id].Materialize()) else None;
    }

    /** The indexed view equals the view recomputed from the whole snapshot. */
    method GetView(id: string, node: Option<string>) returns (view: Option<ExecutionView>)
      requires Valid()
      ensures view == if id in Runs() then Some(View(sz, Runs()[id], node)) else None
    {
      if id !in runs {
        return None;
      }
      var found := ViewOf(sz, runs[id], node);
      view := Some(found);
    }

    method Commit(caller: string, expected: nat, next: RunSnapshot) returns (r: Result<(), StoreError>)
      requires Valid()
      modifies this`runs
      ensures Valid()
      ensures old(owner) != Some(caller) ==> r == Err(Conflict) && Runs() == old(Runs())
      ensures old(owner) == Some(caller) ==>
        match FullCommit(old(Runs()), expected, next)
        case Ok(after) => r == Ok(()) && Runs() == after
        case Err(e) => r == Err(e) && Runs() == old(Runs())
    {
      hide ValidSuccessor, Coherent, WaitsConsistent, RunBytes, UnresolvedKeys;
      if owner != Some(caller) {
        return Err(Conflict);
      }
      if next.id !in runs {
        return Err(NotFound);
      }
      var current := runs[next.id];
      SplitValidation(current, expected, next);
      if current.package != next.package {
        return Err(Conflict);
      }
      var bare := next.(package := NO_PACKAGE);
      if !ValidSuccessor(current.snapshot, expected, bare) {
        return Err(Conflict);
      }
      FullCommitCoherent(Runs(), expected, next);
      SuccessorIdentity(current.snapshot, expected, bare);
      var stored := After(sz, current, bare);
      MaterializedAdded(runs, next.id, stored);
      runs := runs[next.id := stored];
      return Ok(());
    }

    /** The fast single-node commit: no wait checks, counters moved by the difference of two records. */
    method CommitInvocation(caller: string, id: string, expected: nat, node: string, record: InvocationRecord)
      returns (r: Result<ExecutionView, StoreError>)
      requires Valid()
      modifies this`runs
      ensures Valid()
      ensures old(owner) != Some(caller) ==> r == Err(Conflict) && Runs() == old(Runs())
      ensures old(owner) == Some(caller) ==>
        match NodeCommit(old(Runs()), id, expected, node, record)
        case Ok(after) => r == Ok(View(sz, after[id], Some(node))) && Runs() == after
        case Err(e) => r == Err(e) && Runs() == old(Runs())
    {
      if owner != Some(caller) {
        return Err(Conflict);
      }
      var after;
      r, after := CommitNode(sz, runs, id, expected, node, record);
      runs := after;
    }

    /**
     The trait's default: fetch, edit and commit the whole snapshot. For the owner it
     promises exactly what `CommitInvocation` promises.
     */
    method CommitInvocationByDefault(caller: string, id: string, expected: nat, node: string, record: InvocationRecord)
      returns (r: Result<(), StoreError>)
      requires Valid()
      modifies this`runs
      ensures Valid()
      ensures old(owner) != Some(caller) ==> r.Err? && Runs() == old(Runs())
      ensures old(owner) == Some(caller) ==>
        match NodeCommit(old(Runs()), id, expected, node, record)
        case Ok(after) => r == Ok(()) && Runs() == after
        case Err(e) => r == Err(e) && Runs() == old(Runs())
    {
      var fetched := Get(id);
      if fetched.None? {
        return Err(NotFound);
      }
      var run := fetched.value;
      if !NodeCommitAllowed(run, expected, node, record) {
        return Err(Conflict);
      }
      CommitsCoherent(Runs(), id, expected, node, record, run);
      r := Commit(caller, expected, WithNode(run, node, record));
    }

    /** Retention: the oldest finished runs over the count, and those past their age. */
    method Collect(caller: string, now: nat, limits: StoreLimits) returns (r: Result<(), StoreError>)
      requires Valid()
      modifies this`runs, this`receipts
      ensures Valid()
      ensures old(owner) != Some(caller) ==> r == Err(Conflict) && Runs() == old(Runs()) && receipts == old(receipts)
      ensures old(owner) == Some(caller) ==>
        && r == Ok(()) && receipts == LiveReceipts(old(receipts), now)
        && Runs() == Collected(old(Runs()), now, limits)
        && Expires(old(receipts), receipts, now)
    {
      hide LiveReceipts, Expires, Collectable, WaitsConsistent;
      LiveMeans(receipts, now);
      if owner != Some(caller) {
        return Err(Conflict);
      }
      receipts := LiveReceipts(receipts, now);
      runs := Retained(runs, now, limits);
      return Ok(());
    }
  }

  /** The retention scan over the finished runs, oldest first. */
  method Retained(runs: map<string, StoredRun>, now: nat, limits: StoreLimits) returns (kept: map<string, StoredRun>)
    ensures Materialized(kept) == Collected(Materialized(runs), now, limits)
    ensures forall id :: id in kept ==> id in runs && kept[id] == runs[id]
  {
    var pool := FinishedRuns(runs);
    FinishedMaterialized(runs);
    var finished := SortFinished(pool);
    var excess := SaturatingSub(|finished|, limits.terminalRuns);
    var index := 0;
    kept := runs;
    assert Dropped(finished[..0], excess, now, limits.retentionMs) == {};
    hide Dropped, Collectable, Materialized, FinishedRuns, Ascending;
    while index < |finished|
      invariant index <= |finished|
      invariant kept == runs - Dropped(finished[..index], excess, now, limits.retentionMs)
    {
      var (at, id) := finished[index];
      DroppedStep(finished, index, excess, now, limits.retentionMs);
      if index < excess || SaturatingSub(now, at) >= limits.retentionMs {
        kept := kept - {id};
      }
      index := index + 1;
    }
    assert finished[..|finished|] == finished;
    DroppedAreCollectable(Materialized(runs), finished, pool, now, limits);
    KeptMaterialized(runs, Dropped(finished, excess, now, limits.retentionMs), now, limits);
  }

  lemma KeptMaterialized(runs: map<string, StoredRun>, dropped: set<string>, now: nat, limits: StoreLimits)
    requires forall id :: id in Materialized(runs) ==> (id in dropped <==> Collectable(Materialized(runs), id, now, limits))
    ensures Materialized(runs - dropped) == Collected(Materialized(runs), now, limits)
  {
    hide Collectable;
  }

  function FinishedRuns(runs: map<string, StoredRun>): set<(nat, string)> {
    set id | id in runs && IsTerminal(runs[id].snapshot.state) && runs[id].snapshot.finishedAt.Some?
      :: (runs[id].snapshot.finishedAt.value, id)
  }

  lemma FinishedMaterialized(runs: map<string, StoredRun>)
    ensures FinishedRuns(runs) == Finished(Materialized(runs))
  {
    forall x
      ensures x in FinishedRuns(runs) <==> x in Finished(Materialized(runs))
    {
      var id := x.1;
      if id in runs {
        assert Materialized(runs)[id].finishedAt == runs[id].snapshot.finishedAt;
      }
    }
  }
}
