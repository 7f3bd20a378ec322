/**
 The retry loops every engine edit goes through: read, edit, commit at the revision that was
 read, and start over when another writer was faster. Here over the memory store, with every
 other caller of the store at work between any two steps.
 */
module Updates {
  import opened Wrappers
  import opened Protocol
  import opened Checkpoint
  import opened WaitHistory
  import opened StoreSpec
  import M = MemoryStore

  datatype UpdateError = Store(error: StoreError) | Refused(cause: ForgeError) | OverActivations | OverBytes | Exhausted

  /** An edit of one record: it refuses, declines, or proposes. */
  type NodeEdit = (RunHead, Option<InvocationRecord>) -> Result<Option<InvocationRecord>, ForgeError>

  /** An edit of a whole run, which also sees the coherent head. */
  type RunEdit = (RunSnapshot, RunHead) -> Result<Option<RunSnapshot>, ForgeError>

  datatype Budget = Budget(activations: nat, runBytes: nat)

  /** What a loop must do, decided from one snapshot. */
  datatype Verdict<T> = Leave | Propose(next: T) | Refuse(reason: UpdateError)

  function RecordAt(run: RunSnapshot, key: string): Option<InvocationRecord> {
    if key in run.invocations then Some(run.invocations[key]) else None
  }

  /** The decision of a node update; the byte limit is on the run as it would become. */
  ghost function NodeVerdict(sz: Sizer, budget: Budget, run: RunSnapshot, key: string, checked: bool, edit: NodeEdit)
    : Verdict<InvocationRecord>
  {
    if IsTerminal(run.state) then Leave
    else
      match edit(Head(sz, run), RecordAt(run, key))
      case Err(e) => Refuse(Refused(e))
      case Ok(None) => Leave
      case Ok(Some(record)) =>
        if key !in run.invocations && |run.invocations| >= budget.activations then Refuse(OverActivations)
        else if checked && RunBytes(sz, WithNode(run, key, record)) > budget.runBytes then Refuse(OverBytes)
        else Propose(record)
  }

  ghost function RunVerdict(sz: Sizer, run: RunSnapshot, audits: bool, edit: RunEdit): Verdict<RunSnapshot> {
    if IsTerminal(run.state) && !audits then Leave
    else
      match edit(run, Head(sz, run))
      case Err(e) => Refuse(Refused(e))
      case Ok(None) => Leave
      case Ok(Some(next)) => if run.revision >= MAX_REVISION then Refuse(Exhausted) else Propose(next.(revision := run.revision + 1))
  }

  /** The engine's running total minus the old record plus the new one is the new run's size. */
  lemma BytesAfter(sz: Sizer, run: RunSnapshot, key: string, record: InvocationRecord)
    ensures var kept := RunBytes(sz, run) - (if key in run.invocations then RecordBytes(sz, run.invocations[key]) else 0);
      kept >= 0 && kept + RecordBytes(sz, record) == RunBytes(sz, WithNode(run, key, record))
  {
    NodeBytesReplaced(sz, run.invocations, key, record);
    OneOf(sz, run.invocations, key);
    hide NodeBytes, WaitBytes, RecordBytes, ArtifactBytes;
  }

  lemma OneOf(sz: Sizer, nodes: map<string, InvocationRecord>, key: string)
    ensures key in nodes ==> RecordBytes(sz, nodes[key]) <= NodeBytes(sz, nodes)
  {
    if key in nodes {
      var rest := nodes - {key};
      NodeBytesReplaced(sz, rest, key, nodes[key]);
      assert rest[key := nodes[key]] == nodes;
    }
  }

  // ---------------------------------------------------------------- other callers

  /** What happens to one run while nobody looks: accepted commits, or retention. */
  ghost predicate Follows(a: Runs, b: Runs, id: string) {
    id in b ==> id in a && Later(a[id], b[id])
  }

  lemma FollowsTransitive(a: Runs, b: Runs, c: Runs, id: string)
    requires Follows(a, b, id) && Follows(b, c, id)
    ensures Follows(a, c, id)
  {
    if id in c {
      LaterTransitive(a[id], b[id], c[id]);
    }
    hide Later;
  }

  lemma FollowsSelf(a: Runs, id: string)
    ensures Follows(a, a, id)
  {
    if id in a {
      LaterSelf(a[id]);
    }
  }

  lemma FullFollows(a: Runs, expected: nat, next: RunSnapshot, id: string)
    requires FullCommit(a, expected, next).Ok?
    ensures Follows(a, FullCommit(a, expected, next).value, id)
  {
    FollowsSelf(a, id);
    if next.id == id {
      assert a[id].revision == expected;
      SuccessorLater(a[id], next);
    }
    hide Later, ValidSuccessor;
  }

  lemma NodeFollows(a: Runs, run: string, expected: nat, node: string, record: InvocationRecord, id: string)
    requires Coherent(a) && NodeCommit(a, run, expected, node, record).Ok?
    ensures Follows(a, NodeCommit(a, run, expected, node, record).value, id)
  {
    CommitsCoherent(a, run, expected, node, record, a[run]);
    FullFollows(a, expected, WithNode(a[run], node, record), id);
    hide Follows, ValidSuccessor;
  }

  lemma CreationFollows(a: Runs, run: RunSnapshot, id: string)
    requires run.id != id
    ensures Follows(a, a[run.id := run], id)
  {
    FollowsSelf(a, id);
    hide Later;
  }

  lemma CollectionFollows(a: Runs, now: nat, limits: StoreLimits, id: string)
    ensures Follows(a, Collected(a, now, limits), id)
  {
    FollowsSelf(a, id);
    hide Later;
  }

  // ---------------------------------------------------------------- the loops

  class Updater {
    const store: M.MemoryExecutionStore
    const owner: string
    const scope: string
    const budget: Budget

    ghost predicate Valid()
      reads this, store
    {
      store.Valid() && store.owner == Some(owner)
    }

    constructor (store: M.MemoryExecutionStore, owner: string, scope: string, budget: Budget)
      requires store.Valid() && store.owner == Some(owner)
      ensures Valid() && this.store == store && this.owner == owner && this.scope == scope && this.budget == budget
    {
      this.store, this.owner, this.scope, this.budget := store, owner, scope, budget;
    }

    /** Any calls the rest of the engine makes; run identifiers are fresh, so `id` is never created again. */
    method Interfere(id: string)
      requires Valid()
      modifies store
      ensures Valid() && Follows(old(store.Runs()), store.Runs(), id)
    {
      FollowsSelf(store.Runs(), id);
      hide Follows, FullCommit, NodeCommit, Admission, Collected, Coherent, M.AllIndexed, M.Materialized;
      var moments :| moments >= 0;
      for i := 0 to moments
        invariant Valid() && Follows(old(store.Runs()), store.Runs(), id)
      {
        ghost var before := store.Runs();
        Act(id);
        FollowsTransitive(old(store.Runs()), before, store.Runs(), id);
      }
    }

    /** One call of somebody else. */
    method Act(id: string)
      requires Valid()
      modifies store
      ensures Valid() && Follows(old(store.Runs()), store.Runs(), id)
    {
      hide Follows, M.AllIndexed, M.Materialized, M.MemoryExecutionStore.Runs, M.MemoryExecutionStore.Valid, Coherent;
      var next: RunSnapshot := *;
      var expected :| expected >= 0;
      if * {
        ActNode(id, expected);
      } else if * {
        ActFull(id, expected, next);
      } else if * {
        ActCreate(id, next);
      } else {
        ActCollect(id);
      }
    }

    method ActFull(id: string, expected: nat, next: RunSnapshot)
      requires Valid()
      modifies store
      ensures Valid() && Follows(old(store.Runs()), store.Runs(), id)
    {
      hide Follows, FullCommit, M.AllIndexed, M.Materialized, ValidSuccessor, Coherent;
      ghost var before := store.Runs();
      FollowsSelf(before, id);
      var r := store.Commit(owner, expected, next);
      if r.Ok? {
        FullFollows(before, expected, next, id);
      }
    }

    method ActCreate(id: string, next: RunSnapshot)
      requires Valid()
      modifies store
      ensures Valid() && Follows(old(store.Runs()), store.Runs(), id)
    {
      hide Follows, Admission, M.AllIndexed, M.Materialized, Coherent;
      ghost var before := store.Runs();
      FollowsSelf(before, id);
      var limits: StoreLimits, receipt: Option<Reservation> := *, *;
      if next.id != id {
        var r := store.Create(owner, next, receipt, limits);
        CreationFollows(before, next, id);
      }
    }

    method ActCollect(id: string)
      requires Valid()
      modifies store
      ensures Valid() && Follows(old(store.Runs()), store.Runs(), id)
    {
      hide Follows, Collected, M.AllIndexed, M.Materialized, Coherent;
      ghost var before := store.Runs();
      var limits: StoreLimits := *;
      var now :| now >= 0;
      FollowsSelf(before, id);
      var r := store.Collect(owner, now, limits);
      CollectionFollows(before, now, limits, id);
    }

    lemma KnownCoherent()
      requires Valid()
      ensures Coherent(store.Runs())
    {
    }

    method ActNode(id: string, expected: nat)
      requires Valid()
      modifies store
      ensures Valid() && Follows(old(store.Runs()), store.Runs(), id)
    {
      hide Follows, NodeCommit, M.AllIndexed, M.Materialized, M.MemoryExecutionStore.Runs, Coherent, View;
      ghost var before := store.Runs();
      KnownCoherent();
      FollowsSelf(before, id);
      var key: string, run: string, record: InvocationRecord := *, *, *;
      var r := store.CommitInvocation(owner, run, expected, key, record);
      if r.Ok? {
        NodeFollows(before, run, expected, key, record, id);
      }
    }

    method ViewOf(id: string, key: Option<string>) returns (view: Result<ExecutionView, UpdateError>)
      requires Valid()
      ensures view == if id in store.Runs() && store.Runs()[id].scope == scope then Ok(View(store.sz, store.Runs()[id], key))
                      else Err(Store(NotFound))
    {
      var found := store.GetView(id, key);
      if found.None? || found.value.head.scope != scope {
        return Err(Store(NotFound));
      }
      return Ok(found.value);
    }

    /** The checks of a node update, from the indexed view alone. */
    method DecideNode(view: ExecutionView, ghost run: RunSnapshot, key: string, checked: bool, edit: NodeEdit)
      returns (verdict: Verdict<InvocationRecord>)
      requires view == View(store.sz, run, Some(key))
      ensures verdict == NodeVerdict(store.sz, budget, run, key, checked, edit)
    {
      ViewFacts(store.sz, run, key);
      hide View, Head, RunBytes, RecordBytes;
      if IsTerminal(view.head.state) {
        return Leave;
      }
      var change := edit(view.head, view.invocation);
      if change.Err? {
        return Refuse(Refused(change.error));
      }
      if change.value.None? {
        return Leave;
      }
      var record := change.value.value;
      if view.invocation.None? && view.head.invocationCount >= budget.activations {
        return Refuse(OverActivations);
      }
      var held := if view.invocation.Some? then RecordBytes(store.sz, view.invocation.value) else 0;
      BytesAfter(store.sz, run, key, record);
      if checked && SaturatingSub(view.head.retainedBytes, held) + RecordBytes(store.sz, record) > budget.runBytes {
        return Refuse(OverBytes);
      }
      return Propose(record);
    }

    /** The commit of a round at the revision it read; nothing means the race was lost to a newer revision. */
    method SubmitNode(id: string, key: string, record: InvocationRecord, ghost read: Runs, expected: nat)
      returns (r: Option<Result<ExecutionView, UpdateError>>)
      requires Valid() && Follows(read, store.Runs(), id) && id in read && read[id].revision == expected <= MAX_REVISION
      modifies store
      ensures Valid() && Follows(read, store.Runs(), id)
      ensures r.Some? && r.value.Ok? ==> NodeDone(store.sz, store.Runs(), id, read[id], key, Propose(record), r.value.value)
      ensures r.Some? && r.value.Err? ==>
        r.value.error == Store(NotFound) || (r.value.error == Store(Conflict) && !NodeCommitAllowed(read[id], expected, key, record))
      ensures r.None? ==> Room(store.Runs(), id) < Room(read, id)
    {
      hide Follows, NodeCommit, Coherent, M.AllIndexed, M.Materialized, NodeCommitAllowed, Later, View, Head, RunBytes;
      ghost var before := store.Runs();
      var committed := store.CommitInvocation(owner, id, expected, key, record);
      if committed.Ok? {
        NodeFollows(before, id, expected, key, record, id);
        FollowsTransitive(read, before, store.Runs(), id);
        NodeCommitted(read, before, id, expected, key, record);
        return Some(Ok(committed.value));
      }
      NodeErrors(before, id, expected, key, record);
      if committed.error != Conflict {
        return Some(Err(Store(NotFound)));
      }
      Interfere(id);
      FollowsTransitive(read, before, store.Runs(), id);
      var again := ViewOf(id, None);
      if again.Err? {
        return Some(Err(again.error));
      }
      FollowsMeans(read, before, id);
      FollowsMeans(before, store.Runs(), id);
      HeadFacts(store.sz, store.Runs()[id]);
      if again.value.head.revision == expected {
        return Some(Err(Store(Conflict)));
      }
      return None;
    }

    /** One round: view, decide, commit. */
    method TryNode(id: string, key: string, checked: bool, edit: NodeEdit)
      returns (r: Option<Result<ExecutionView, UpdateError>>, ghost at: Option<RunSnapshot>)
      requires Valid() && Bounded(store.Runs(), id)
      modifies store
      ensures Valid() && Follows(old(store.Runs()), store.Runs(), id) && Bounded(store.Runs(), id)
      ensures at.Some? ==> id in old(store.Runs()) && Later(old(store.Runs())[id], at.value)
      ensures NodeEnded(store.sz, budget, store.Runs(), id, at, key, checked, edit, r)
      ensures r.None? ==> Room(store.Runs(), id) < Room(old(store.Runs()), id)
    {
      hide Follows, NodeCommit, Coherent, M.AllIndexed, M.Materialized, NodeCommitAllowed, Later, View, Head, RunBytes, NodeVerdict;
      ghost var start := store.Runs();
      Interfere(id);
      var view := ViewOf(id, Some(key));
      BoundKept(start, store.Runs(), id);
      if view.Err? {
        return Some(Err(view.error)), None;
      }
      ghost var read := store.Runs();
      FollowsMeans(start, read, id);
      at := Some(read[id]);
      ViewFacts(store.sz, read[id], key);
      var verdict := DecideNode(view.value, read[id], key, checked, edit);
      if verdict.Refuse? {
        return Some(Err(verdict.reason)), at;
      }
      if verdict.Leave? {
        return Some(Ok(view.value)), at;
      }
      Interfere(id);
      r := SubmitNode(id, key, verdict.next, read, view.value.head.revision);
      FollowsTransitive(start, read, store.Runs(), id);
      BoundKept(read, store.Runs(), id);
    }

    /**
     A node update is atomic: there is one snapshot, somewhere between call and return, at
     which the edit was decided, and what was committed is that decision on that snapshot. A
     conflict comes back only for a record no commit could have carried.
     */
    method UpdateNode(id: string, key: string, checked: bool, edit: NodeEdit)
      returns (r: Result<ExecutionView, UpdateError>, ghost at: Option<RunSnapshot>)
      requires Valid() && Bounded(store.Runs(), id)
      modifies store
      ensures Valid() && Follows(old(store.Runs()), store.Runs(), id)
      ensures at.Some? ==> id in old(store.Runs()) && Later(old(store.Runs())[id], at.value)
      ensures NodeEnded(store.sz, budget, store.Runs(), id, at, key, checked, edit, Some(r))
    {
      FollowsSelf(store.Runs(), id);
      hide Follows, Later, NodeEnded, M.AllIndexed, M.Materialized, Coherent, Room, Bounded;
      ghost var start := store.Runs();
      while true
        invariant Valid() && Follows(start, store.Runs(), id) && Bounded(store.Runs(), id)
        decreases Room(store.Runs(), id)
      {
        ghost var head := store.Runs();
        var done;
        done, at := TryNode(id, key, checked, edit);
        FollowsTransitive(start, head, store.Runs(), id);
        if at.Some? {
          FollowsAt(start, head, id, at.value);
        }
        if done.Some? {
          return done.value, at;
        }
      }
    }

    method Read(id: string) returns (run: Result<RunSnapshot, UpdateError>)
      requires Valid()
      ensures run == if id in store.Runs() && store.Runs()[id].scope == scope then Ok(store.Runs()[id]) else Err(Store(NotFound))
    {
      var found := store.Get(id);
      if found.None? || found.value.scope != scope {
        return Err(Store(NotFound));
      }
      return Ok(found.value);
    }

    /** The checks of a run update on a snapshot and its own head. */
    method DecideRun(run: RunSnapshot, head: RunHead, audits: bool, edit: RunEdit) returns (verdict: Verdict<RunSnapshot>)
      requires head == Head(store.sz, run) && !(IsTerminal(run.state) && !audits)
      ensures verdict == RunVerdict(store.sz, run, audits, edit)
    {
      hide Head;
      var change := edit(run, head);
      if change.Err? {
        return Refuse(Refused(change.error));
      }
      if change.value.None? {
        return Leave;
      }
      if run.revision >= MAX_REVISION {
        return Refuse(Exhausted);
      }
      return Propose(change.value.value.(revision := run.revision + 1));
    }

    /** The commit of a whole edited run. */
    method SubmitRun(id: string, next: RunSnapshot, ghost read: Runs, expected: nat) returns (r: Option<Result<RunSnapshot, UpdateError>>)
      requires Valid() && Follows(read, store.Runs(), id) && id in read && read[id].revision == expected <= MAX_REVISION && next.id == id
      modifies store
      ensures Valid() && Follows(read, store.Runs(), id)
      ensures r.Some? && r.value.Ok? ==>
        ValidSuccessor(read[id], expected, next) && id in store.Runs() && store.Runs()[id] == next == r.value.value
      ensures r.Some? && r.value.Err? ==>
        r.value.error == Store(NotFound) || (r.value.error == Store(Conflict) && !ValidSuccessor(read[id], expected, next))
      ensures r.None? ==> Room(store.Runs(), id) < Room(read, id)
    {
      hide Follows, FullCommit, Coherent, M.AllIndexed, M.Materialized, ValidSuccessor, Later;
      ghost var before := store.Runs();
      var committed := store.Commit(owner, expected, next);
      FullMeans(read, before, id, expected, next);
      if committed.Ok? {
        FullFollows(before, expected, next, id);
        FollowsTransitive(read, before, store.Runs(), id);
        return Some(Ok(next));
      }
      if committed.error != Conflict {
        return Some(Err(Store(NotFound)));
      }
      Interfere(id);
      FollowsTransitive(read, before, store.Runs(), id);
      var again := Read(id);
      if again.Err? {
        return Some(Err(again.error));
      }
      FollowsMeans(read, before, id);
      FollowsMeans(before, store.Runs(), id);
      if again.value.revision == expected {
        return Some(Err(Store(Conflict)));
      }
      return None;
    }

    /** One round: read, wait for a head of the same revision, decide, commit. */
    method TryRun(id: string, audits: bool, edit: RunEdit)
      returns (r: Option<Result<RunSnapshot, UpdateError>>, ghost at: Option<RunSnapshot>)
      requires Valid() && Bounded(store.Runs(), id) && KeepsId(edit)
      modifies store
      ensures Valid() && Follows(old(store.Runs()), store.Runs(), id) && Bounded(store.Runs(), id)
      ensures at.Some? ==> id in old(store.Runs()) && Later(old(store.Runs())[id], at.value)
      ensures RunEnded(store.sz, store.Runs(), id, at, audits, edit, r)
      ensures r.None? ==> Room(store.Runs(), id) < Room(old(store.Runs()), id)
    {
      hide Follows, FullCommit, Coherent, M.AllIndexed, M.Materialized, ValidSuccessor, Later, View, Head;
      ghost var start := store.Runs();
      Interfere(id);
      var run := Read(id);
      BoundKept(start, store.Runs(), id);
      if run.Err? {
        return Some(Err(run.error)), None;
      }
      ghost var read := store.Runs();
      UnderItsId(read, id);
      FollowsMeans(start, read, id);
      at := Some(read[id]);
      if IsTerminal(run.value.state) && !audits {
        return Some(Ok(run.value)), at;
      }
      Interfere(id);
      FollowsTransitive(start, read, store.Runs(), id);
      BoundKept(read, store.Runs(), id);
      var view := ViewOf(id, None);
      if view.Err? {
        return Some(Err(view.error)), at;
      }
      FollowsMeans(read, store.Runs(), id);
      HeadFacts(store.sz, store.Runs()[id]);
      if view.value.head.revision != run.value.revision {
        return None, at;
      }
      var verdict := DecideRun(run.value, view.value.head, audits, edit);
      if verdict.Refuse? {
        return Some(Err(verdict.reason)), at;
      }
      if verdict.Leave? {
        return Some(Ok(run.value)), at;
      }
      VerdictKeepsId(store.sz, run.value, audits, edit);
      ghost var seen := store.Runs();
      Interfere(id);
      FollowsTransitive(read, seen, store.Runs(), id);
      r := SubmitRun(id, verdict.next, read, run.value.revision);
      FollowsTransitive(start, read, store.Runs(), id);
      BoundKept(read, store.Runs(), id);
    }

    /** The same for a whole run: the edit lands on exactly the snapshot it saw, or the caller learns why not. */
    method UpdateRun(id: string, audits: bool, edit: RunEdit) returns (r: Result<RunSnapshot, UpdateError>, ghost at: Option<RunSnapshot>)
      requires Valid() && Bounded(store.Runs(), id) && KeepsId(edit)
      modifies store
      ensures Valid() && Follows(old(store.Runs()), store.Runs(), id)
      ensures at.Some? ==> id in old(store.Runs()) && Later(old(store.Runs())[id], at.value)
      ensures RunEnded(store.sz, store.Runs(), id, at, audits, edit, Some(r))
    {
      FollowsSelf(store.Runs(), id);
      hide Follows, Later, RunEnded, M.AllIndexed, M.Materialized, Coherent, Room, Bounded, KeepsId;
      ghost var start := store.Runs();
      while true
        invariant Valid() && Follows(start, store.Runs(), id) && Bounded(store.Runs(), id)
        decreases Room(store.Runs(), id)
      {
        ghost var head := store.Runs();
        var done;
        done, at := TryRun(id, audits, edit);
        FollowsTransitive(start, head, store.Runs(), id);
        if at.Some? {
          FollowsAt(start, head, id, at.value);
        }
        if done.Some? {
          return done.value, at;
        }
      }
    }
  }

  /** Edits change what a run holds, not which run it is. */
  ghost predicate KeepsId(edit: RunEdit) {
    forall run: RunSnapshot, head: RunHead :: edit(run, head).Ok? && edit(run, head).value.Some? ==> edit(run, head).value.value.id == run.id
  }

  /** How a run update ended, told from the one snapshot it was decided on. */
  ghost predicate RunEnded(sz: Sizer, runs: Runs, id: string, at: Option<RunSnapshot>, audits: bool, edit: RunEdit,
                           r: Option<Result<RunSnapshot, UpdateError>>)
  {
    r.Some? ==>
      if r.value.Err? && r.value.error == Store(NotFound) then true
      else
        && at.Some?
        && match RunVerdict(sz, at.value, audits, edit)
           case Refuse(reason) => r.value == Err(reason)
           case Leave => r.value == Ok(at.value)
           case Propose(next) =>
             if r.value.Ok? then
               ValidSuccessor(at.value, at.value.revision, next) && id in runs && runs[id] == next == r.value.value
             else r.value.error == Store(Conflict) && !ValidSuccessor(at.value, at.value.revision, next)
  }

  lemma FullMeans(read: Runs, before: Runs, id: string, expected: nat, next: RunSnapshot)
    requires id in read && read[id].revision == expected && Follows(read, before, id) && next.id == id
    ensures FullCommit(before, expected, next).Ok? ==>
      && id in before && before[id] == read[id] && ValidSuccessor(read[id], expected, next)
      && FullCommit(before, expected, next).value == before[id := next]
    ensures FullCommit(before, expected, next).Err? ==>
      && FullCommit(before, expected, next).error == (if id in before then Conflict else NotFound)
      && (id in before ==> !ValidSuccessor(before[id], expected, next))
  {
    if id in before {
      FollowsMeans(read, before, id);
      if FullCommit(before, expected, next).Ok? {
        assert before[id].revision == expected;
      }
    }
    hide Follows, Later;
  }

  lemma UnderItsId(runs: Runs, id: string)
    requires Coherent(runs) && id in runs
    ensures runs[id].id == id
  {
  }

  lemma VerdictKeepsId(sz: Sizer, run: RunSnapshot, audits: bool, edit: RunEdit)
    requires KeepsId(edit) && RunVerdict(sz, run, audits, edit).Propose?
    ensures RunVerdict(sz, run, audits, edit).next.id == run.id
  {
    assert edit(run, Head(sz, run)).value.value.id == run.id;
    hide Head;
  }

  /** How a node update ended, told from the one snapshot it was decided on. */
  ghost predicate NodeEnded(sz: Sizer, budget: Budget, runs: Runs, id: string, at: Option<RunSnapshot>, key: string, checked: bool,
                            edit: NodeEdit, r: Option<Result<ExecutionView, UpdateError>>)
  {
    r.Some? ==>
      if r.value.Err? && r.value.error == Store(NotFound) then true
      else
        && at.Some?
        && var verdict := NodeVerdict(sz, budget, at.value, key, checked, edit);
           if r.value.Ok? then NodeDone(sz, runs, id, at.value, key, verdict, r.value.value)
           else NodeRefused(at.value, key, verdict, r.value.error)
  }

  lemma BoundKept(a: Runs, b: Runs, id: string)
    requires Follows(a, b, id) && Bounded(a, id)
    ensures Bounded(b, id) && Room(b, id) <= Room(a, id)
  {
    if id in b {
      FollowsMeans(a, b, id);
    }
  }

  lemma FollowsAt(a: Runs, b: Runs, id: string, at: RunSnapshot)
    requires Follows(a, b, id) && id in b && Later(b[id], at)
    ensures id in a && Later(a[id], at)
  {
    LaterTransitive(a[id], b[id], at);
  }

  predicate Bounded(runs: Runs, id: string) {
    id in runs ==> runs[id].revision <= MAX_REVISION
  }

  function Room(runs: Runs, id: string): nat {
    if id in runs && runs[id].revision <= MAX_REVISION then MAX_REVISION - runs[id].revision + 1 else 0
  }

  /** What a finished node update left behind. */
  ghost predicate NodeDone(sz: Sizer, runs: Runs, id: string, at: RunSnapshot, key: string, verdict: Verdict<InvocationRecord>, view: ExecutionView) {
    match verdict
    case Refuse(_) => false
    case Leave => view == View(sz, at, Some(key))
    case Propose(record) =>
      && NodeCommitAllowed(at, at.revision, key, record)
      && id in runs && runs[id] == WithNode(at, key, record) && view == View(sz, runs[id], Some(key))
  }

  /** Why a node update failed on a run that is there. */
  predicate NodeRefused(at: RunSnapshot, key: string, verdict: Verdict<InvocationRecord>, error: UpdateError) {
    match verdict
    case Refuse(reason) => error == reason
    case Leave => false
    case Propose(record) => error == Store(Conflict) && !NodeCommitAllowed(at, at.revision, key, record)
  }

  lemma FollowsMeans(a: Runs, b: Runs, id: string)
    requires Follows(a, b, id) && id in b
    ensures id in a && Later(a[id], b[id]) && a[id].revision <= b[id].revision
    ensures a[id].revision == b[id].revision ==> a[id] == b[id]
    ensures Bounded(a, id) ==> Bounded(b, id)
  {
    hide Preserved;
  }

  lemma NodeCommitted(read: Runs, before: Runs, id: string, expected: nat, key: string, record: InvocationRecord)
    requires id in read && read[id].revision == expected && Follows(read, before, id)
    requires NodeCommit(before, id, expected, key, record).Ok?
    ensures id in before && before[id] == read[id] && NodeCommitAllowed(read[id], expected, key, record)
    ensures var after := NodeCommit(before, id, expected, key, record).value;
      id in after && after[id] == WithNode(read[id], key, record)
  {
    FollowsMeans(read, before, id);
    hide Follows, Later;
  }

  lemma NodeErrors(runs: Runs, id: string, expected: nat, key: string, record: InvocationRecord)
    requires NodeCommit(runs, id, expected, key, record).Err?
    ensures NodeCommit(runs, id, expected, key, record).error == if id in runs then Conflict else NotFound
    ensures id in runs ==> !NodeCommitAllowed(runs[id], expected, key, record)
  {
  }

  lemma ViewFacts(sz: Sizer, run: RunSnapshot, key: string)
    ensures var view := View(sz, run, Some(key));
      view.invocation == RecordAt(run, key) && view.head == Head(sz, run)
    ensures Head(sz, run).revision == run.revision && Head(sz, run).state == run.state && Head(sz, run).scope == run.scope
    ensures Head(sz, run).retainedBytes == RunBytes(sz, run) && Head(sz, run).invocationCount == |run.invocations|
  {
    hide RunBytes, NextWakeup;
  }

  lemma HeadFacts(sz: Sizer, run: RunSnapshot)
    ensures View(sz, run, None).head == Head(sz, run) && Head(sz, run).revision == run.revision
  {
    hide RunBytes, NextWakeup;
  }
}
