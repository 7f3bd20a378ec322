/**
 The SQL execution store. Tables are maps, a transaction works on a private copy of the
 tables and either replaces them or leaves them alone, and every transaction is proved
 against the same simple map of snapshots as the in-memory store.
 */
module SqlStore {
  import opened Wrappers
  import opened Text
  import opened Protocol
  import opened Checkpoint
  import opened WaitHistory
  import opened StoreSpec

  /** A row of wf_runs; `body` is the header written by the last full commit. */
  datatype RunRow = RunRow(scope: string, revision: nat, state: RunState, cancelRequested: bool, deadlineAt: nat,
                           finishedAt: Option<nat>, retainedBytes: nat, invocationCount: nat, unresolvedCount: nat,
                           packageId: string, body: RunSnapshot, nextWakeup: Option<nat>)

  datatype NodeRow = NodeRow(retainedBytes: nat, unresolved: bool, body: InvocationRecord)
  {
    ghost predicate Sound(sz: Sizer) {
      retainedBytes == RecordBytes(sz, body) && unresolved == body.IsUnresolved()
    }
  }

  type NodeTable = map<(string, string), NodeRow>

  datatype Tables = Tables(packages: map<string, Package>, runs: map<string, RunRow>, nodes: NodeTable,
                           receipts: Receipts)

  // ---------------------------------------------------------------- reassembly

  ghost function PathsOf(nodes: NodeTable, id: string): (paths: set<string>)
    ensures forall path :: path in paths <==> (id, path) in nodes
  {
    var paths := set k | k in nodes && k.0 == id :: k.1;
    assert forall path :: (id, path) in nodes ==> (id, path).1 in paths;
    paths
  }

  ghost function NodesOf(nodes: NodeTable, id: string): map<string, InvocationRecord> {
    map path | path in PathsOf(nodes, id) :: nodes[(id, path)].body
  }

  /** What a reader puts together from a run row, its package and its node rows. */
  ghost function Assembled(t: Tables, id: string): RunSnapshot
    requires id in t.runs
  {
    var row := t.runs[id];
    row.body.(package := if row.packageId in t.packages then t.packages[row.packageId] else NO_PACKAGE,
              revision := row.revision, invocations := NodesOf(t.nodes, id))
  }

  ghost function Assembly(t: Tables): Runs {
    map id | id in t.runs :: Assembled(t, id)
  }

  function HeadColumns(id: string, row: RunRow): RunHead {
    RunHead(row.nextWakeup, id, row.scope, row.revision, row.state, row.cancelRequested, row.deadlineAt,
            row.invocationCount, row.retainedBytes, row.unresolvedCount)
  }

  /** The header body agrees with the columns a single-node commit never touches. */
  predicate BodyFits(id: string, row: RunRow) {
    && row.body.id == id && row.body.scope == row.scope && row.body.state == row.state
    && row.body.cancelRequested == row.cancelRequested && row.body.deadlineAt == row.deadlineAt
    && row.body.finishedAt == row.finishedAt && row.body.revision <= row.revision
    && row.body.invocations == map[] && row.body.package == NO_PACKAGE
  }

  ghost predicate RowSound(sz: Sizer, hash: Package -> string, t: Tables, id: string)
    requires id in t.runs
  {
    var row := t.runs[id];
    && BodyFits(id, row)
    && row.body.checkpointFormat == CHECKPOINT_FORMAT
    && row.packageId in t.packages && hash(t.packages[row.packageId]) == row.packageId
    && HeadColumns(id, row) == Head(sz, Assembled(t, id))
  }

  /** The projection is coherent: columns, bodies, node rows and foreign keys agree. */
  ghost predicate Sound(sz: Sizer, hash: Package -> string, t: Tables) {
    && (forall id :: id in t.runs ==> RowSound(sz, hash, t, id))
    && (forall k :: k in t.nodes ==> k.0 in t.runs && t.nodes[k].Sound(sz))
    && Coherent(Assembly(t))
  }

  /** The counts a row carries satisfy the table's own check. */
  lemma CountsWithinCheck(sz: Sizer, hash: Package -> string, t: Tables, id: string)
    requires Sound(sz, hash, t) && id in t.runs
    ensures t.runs[id].unresolvedCount <= t.runs[id].invocationCount
  {
    var nodes := Assembled(t, id).invocations;
    assert RowSound(sz, hash, t, id);
    assert UnresolvedKeys(nodes) <= nodes.Keys;
    SubsetSize(UnresolvedKeys(nodes), nodes.Keys);
  }

  lemma {:induction false} SubsetSize<T>(a: set<T>, b: set<T>)
    requires a <= b
    ensures |a| <= |b|
    decreases a
  {
    if a != {} {
      var x :| x in a;
      SubsetSize(a - {x}, b - {x});
    }
  }

  // ---------------------------------------------------------------- node rows

  ghost predicate OthersKept(before: NodeTable, after: NodeTable, id: string) {
    forall k: (string, string) :: k.0 != id ==> (k in before <==> k in after) && (k in before ==> after[k] == before[k])
  }

  ghost predicate NodeRowsSound(sz: Sizer, nodes: NodeTable) {
    forall k :: k in nodes ==> nodes[k].Sound(sz)
  }

  lemma OtherNodes(before: NodeTable, after: NodeTable, id: string, other: string)
    requires OthersKept(before, after, id) && other != id
    ensures NodesOf(after, other) == NodesOf(before, other)
  {
    forall path
      ensures path in PathsOf(after, other) <==> path in PathsOf(before, other)
      ensures path in PathsOf(before, other) ==> after[(other, path)] == before[(other, path)]
    {
      assert (other, path).0 != id;
    }
  }

  function RowFor(sz: Sizer, record: InvocationRecord): NodeRow {
    NodeRow(RecordBytes(sz, record), record.IsUnresolved(), record)
  }

  lemma NodeUpserted(nodes: NodeTable, id: string, path: string, row: NodeRow)
    ensures NodesOf(nodes[(id, path) := row], id) == NodesOf(nodes, id)[path := row.body]
    ensures OthersKept(nodes, nodes[(id, path) := row], id)
  {
  }

  lemma NodeDeleted(nodes: NodeTable, id: string, path: string)
    ensures NodesOf(nodes - {(id, path)}, id) == NodesOf(nodes, id) - {path}
    ensures OthersKept(nodes, nodes - {(id, path)}, id)
  {
  }

  method WriteChanged(sz: Sizer, before: NodeTable, id: string, current: map<string, InvocationRecord>,
                      next: map<string, InvocationRecord>) returns (nodes: NodeTable)
    requires NodesOf(before, id) == current && NodeRowsSound(sz, before)
    ensures NodesOf(nodes, id) == current + next
    ensures OthersKept(before, nodes, id) && NodeRowsSound(sz, nodes)
  {
    hide NodesOf, PathsOf;
    nodes := before;
    var left := next.Keys;
    while left != {}
      invariant left <= next.Keys
      invariant OthersKept(before, nodes, id) && NodeRowsSound(sz, nodes)
      invariant NodesOf(nodes, id) == current + (next - left)
      decreases left
    {
      var path :| path in left;
      MergeStep(current, next, left, path);
      if path !in current || current[path] != next[path] {
        NodeUpserted(nodes, id, path, RowFor(sz, next[path]));
        nodes := nodes[(id, path) := RowFor(sz, next[path])];
      }
      left := left - {path};
    }
    assert next - {} == next;
  }

  lemma MergeStep<V>(current: map<string, V>, next: map<string, V>, left: set<string>, path: string)
    requires path in left && left <= next.Keys
    ensures current + (next - (left - {path})) == (current + (next - left))[path := next[path]]
    ensures path in current && current[path] == next[path] ==> current + (next - (left - {path})) == current + (next - left)
  {
  }

  method DeleteRemoved(sz: Sizer, before: NodeTable, id: string, removed: set<string>) returns (nodes: NodeTable)
    requires NodeRowsSound(sz, before)
    ensures NodesOf(nodes, id) == NodesOf(before, id) - removed
    ensures OthersKept(before, nodes, id) && NodeRowsSound(sz, nodes)
  {
    hide NodesOf, PathsOf;
    nodes := before;
    var left := removed;
    assert NodesOf(nodes, id) - {} == NodesOf(nodes, id);
    while left != {}
      invariant left <= removed
      invariant OthersKept(before, nodes, id) && NodeRowsSound(sz, nodes)
      invariant NodesOf(nodes, id) == NodesOf(before, id) - (removed - left)
      decreases left
    {
      var path :| path in left;
      NodeDeleted(nodes, id, path);
      nodes := nodes - {(id, path)};
      assert NodesOf(before, id) - (removed - left) - {path} == NodesOf(before, id) - (removed - (left - {path}));
      left := left - {path};
    }
  }

  /** Write the changed records, then delete the removed ones. */
  method WriteChanges(sz: Sizer, before: NodeTable, id: string, current: map<string, InvocationRecord>,
                      next: map<string, InvocationRecord>) returns (nodes: NodeTable)
    requires NodesOf(before, id) == current && NodeRowsSound(sz, before)
    ensures NodesOf(nodes, id) == next
    ensures OthersKept(before, nodes, id) && NodeRowsSound(sz, nodes)
  {
    hide NodesOf, PathsOf, NodeRowsSound;
    var written := WriteChanged(sz, before, id, current, next);
    nodes := DeleteRemoved(sz, written, id, current.Keys - next.Keys);
    assert current + next - (current.Keys - next.Keys) == next;
  }

  // ---------------------------------------------------------------- reading

  method HeadOf(sz: Sizer, run: RunSnapshot) returns (head: RunHead)
    ensures head == Head(sz, run)
  {
    var wakeup := ComputeWakeup(run);
    var bytes := ComputeRunBytes(sz, run);
    var unresolved := ComputeUnresolved(run.invocations);
    head := RunHead(wakeup, run.id, run.scope, run.revision, run.state, run.cancelRequested, run.deadlineAt,
                    |run.invocations|, bytes, |unresolved|);
  }

  method ReadNode(sz: Sizer, t: Tables, id: string, path: string) returns (r: Result<Option<InvocationRecord>, StoreError>)
    requires NodeRowsSound(sz, t.nodes)
    ensures r == Ok(if path in NodesOf(t.nodes, id) then Some(NodesOf(t.nodes, id)[path]) else None)
  {
    if (id, path) !in t.nodes {
      return Ok(None);
    }
    var row := t.nodes[(id, path)];
    if RecordBytes(sz, row.body) != row.retainedBytes || row.body.IsUnresolved() != row.unresolved {
      return Err(Corrupt);
    }
    return Ok(Some(row.body));
  }

  /** The byte range from `path/` up to `path0` selects exactly the descendants. */
  lemma RangeIsDescendants(sz: Sizer, nodes: NodeTable, id: string, path: string)
    requires NodeRowsSound(sz, nodes)
    ensures (exists k :: k in nodes && k.0 == id && nodes[k].unresolved && InSlashRange(path, k.1))
      <==> UnresolvedBelow(NodesOf(nodes, id), path + "/")
  {
    forall k | k in nodes && k.0 == id && nodes[k].unresolved && InSlashRange(path, k.1)
      ensures UnresolvedBelow(NodesOf(nodes, id), path + "/")
    {
      SlashRangeIsPrefix(path, k.1);
      assert (id, k.1) in nodes && nodes[k].Sound(sz);
      assert k.1 in NodesOf(nodes, id) && NodesOf(nodes, id)[k.1].IsUnresolved();
    }
    if UnresolvedBelow(NodesOf(nodes, id), path + "/") {
      var q :| q in NodesOf(nodes, id) && NodesOf(nodes, id)[q].IsUnresolved() && path + "/" <= q;
      SlashRangeIsPrefix(path, q);
      assert (id, q) in nodes && nodes[(id, q)].Sound(sz);
    }
  }

  /** What coherence says of the columns of one run. */
  lemma SoundColumns(sz: Sizer, hash: Package -> string, t: Tables, id: string)
    requires Sound(sz, hash, t) && id in t.runs
    ensures HeadColumns(id, t.runs[id]) == Head(sz, Assembled(t, id))
    ensures NodeRowsSound(sz, t.nodes) && Assembled(t, id).invocations == NodesOf(t.nodes, id)
    ensures t.runs[id].unresolvedCount == |UnresolvedKeys(NodesOf(t.nodes, id))|
    ensures Assembled(t, id).revision == t.runs[id].revision && Assembled(t, id).state == t.runs[id].state
  {
    hide NodesOf, NextWakeup, RunBytes, UnresolvedKeys, Coherent;
    assert RowSound(sz, hash, t, id);
  }

  lemma CountDecides(nodes: map<string, InvocationRecord>)
    ensures |UnresolvedKeys(nodes)| != 0 <==> exists k :: k in nodes && nodes[k].IsUnresolved()
  {
    assert |UnresolvedKeys(nodes)| != 0 <==> exists k :: k in UnresolvedKeys(nodes);
    assert forall k :: k in nodes && nodes[k].IsUnresolved() ==> k in UnresolvedKeys(nodes);
  }

  method ReadView(sz: Sizer, ghost hash: Package -> string, t: Tables, id: string, node: Option<string>)
    returns (r: Result<Option<ExecutionView>, StoreError>)
    requires Sound(sz, hash, t)
    ensures r == Ok(if id in t.runs then Some(View(sz, Assembled(t, id), node)) else None)
  {
    hide Sound, NodesOf, Head, Assembled, UnresolvedBelow, UnresolvedKeys, InSlashRange;
    if id !in t.runs {
      return Ok(None);
    }
    SoundColumns(sz, hash, t, id);
    var head := HeadColumns(id, t.runs[id]);
    if node.Some? {
      var found := ReadNode(sz, t, id, node.value);
      if found.Err? {
        return Err(Corrupt);
      }
      RangeIsDescendants(sz, t.nodes, id, node.value);
      var below := exists k :: k in t.nodes && k.0 == id && t.nodes[k].unresolved && InSlashRange(node.value, k.1);
      return Ok(Some(ExecutionView(head, found.value, below)));
    }
    CountDecides(NodesOf(t.nodes, id));
    return Ok(Some(ExecutionView(head, None, head.unresolvedInvocations != 0)));
  }

  /** The rows of one run, checked one at a time. */
  method ReadNodes(sz: Sizer, t: Tables, id: string) returns (r: Result<map<string, InvocationRecord>, StoreError>)
    requires NodeRowsSound(sz, t.nodes)
    ensures r == Ok(NodesOf(t.nodes, id))
  {
    var invocations: map<string, InvocationRecord> := map[];
    var left := set k | k in t.nodes && k.0 == id;
    while left != {}
      invariant forall k :: k in left ==> k in t.nodes && k.0 == id
      invariant forall path :: path in invocations <==> (id, path) in t.nodes && (id, path) !in left
      invariant forall path :: path in invocations ==> invocations[path] == t.nodes[(id, path)].body
      decreases left
    {
      var k :| k in left;
      assert k == (id, k.1) && t.nodes[k].Sound(sz);
      var row := t.nodes[k];
      if RecordBytes(sz, row.body) != row.retainedBytes || row.body.IsUnresolved() != row.unresolved {
        return Err(Corrupt);
      }
      invocations := invocations[k.1 := row.body];
      left := left - {k};
    }
    assert invocations == NodesOf(t.nodes, id);
    return Ok(invocations);
  }

  /** Reassembly with every corruption test; on a coherent store none of them fires. */
  method ReadRun(sz: Sizer, hash: Package -> string, t: Tables, id: string) returns (r: Result<Option<RunSnapshot>, StoreError>)
    requires Sound(sz, hash, t)
    ensures r == Ok(if id in t.runs then Some(Assembled(t, id)) else None)
  {
    if id !in t.runs {
      return Ok(None);
    }
    assert RowSound(sz, hash, t, id);
    var row := t.runs[id];
    var head := HeadColumns(id, row);
    if row.body.checkpointFormat != CHECKPOINT_FORMAT || !BodyFits(id, row) {
      return Err(Corrupt);
    }
    if row.packageId !in t.packages || hash(t.packages[row.packageId]) != row.packageId {
      return Err(Corrupt);
    }
    var invocations := ReadNodes(sz, t, id);
    if invocations.Err? {
      return Err(Corrupt);
    }
    var run := row.body.(package := t.packages[row.packageId], revision := head.revision, invocations := invocations.value);
    var recomputed := HeadOf(sz, run);
    if recomputed != head {
      return Err(Corrupt);
    }
    return Ok(Some(run));
  }

  // ---------------------------------------------------------------- writing

  /** The columns and header a full write stores for a snapshot. */
  function RowOf(run: RunSnapshot, head: RunHead, packageId: string): RunRow {
    RunRow(run.scope, run.revision, run.state, run.cancelRequested, run.deadlineAt, run.finishedAt, head.retainedBytes,
           head.invocationCount, head.unresolvedInvocations, packageId,
           run.(invocations := map[], package := NO_PACKAGE), head.nextWakeup)
  }

  /** A full write of one run keeps every table coherent. */
  lemma FullWriteSound(sz: Sizer, hash: Package -> string, t: Tables, packages: map<string, Package>, nodes: NodeTable,
                       run: RunSnapshot, packageId: string)
    requires Sound(sz, hash, t) && WaitsConsistent(run) && run.checkpointFormat == CHECKPOINT_FORMAT
    requires OthersKept(t.nodes, nodes, run.id) && NodesOf(nodes, run.id) == run.invocations && NodeRowsSound(sz, nodes)
    requires forall p :: p in t.packages ==> p in packages && packages[p] == t.packages[p]
    requires packageId in packages && packages[packageId] == run.package && hash(run.package) == packageId
    ensures var after := Tables(packages, t.runs[run.id := RowOf(run, Head(sz, run), packageId)], nodes, t.receipts);
      Sound(sz, hash, after) && Assembly(after) == Assembly(t)[run.id := run]
  {
    hide Head, NodesOf, WaitsConsistent, RowSound, Assembled, Assembly, RowOf;
    var after := Tables(packages, t.runs[run.id := RowOf(run, Head(sz, run), packageId)], nodes, t.receipts);
    WrittenRow(sz, hash, after, run, packageId);
    OthersAssembled(sz, hash, t, after, run.id);
    forall k | k in nodes
      ensures k.0 in after.runs
    {
      if k.0 != run.id {
        assert k in t.nodes;
      }
    }
    AssemblyReplaced(t, after, run.id, run);
  }

  /** When one row and its nodes change, every other run reassembles to what it was. */
  lemma OthersAssembled(sz: Sizer, hash: Package -> string, t: Tables, after: Tables, id: string)
    requires Sound(sz, hash, t) && OthersKept(t.nodes, after.nodes, id)
    requires forall other :: other in t.runs && other != id ==> other in after.runs && after.runs[other] == t.runs[other]
    requires forall p :: p in t.packages ==> p in after.packages && after.packages[p] == t.packages[p]
    ensures forall other :: other in t.runs && other != id ==>
      other in after.runs && RowSound(sz, hash, after, other) && Assembled(after, other) == Assembled(t, other)
  {
    hide Head, NodesOf, RowSound, Assembled, Assembly, Coherent, OthersKept;
    forall other | other in t.runs && other != id
      ensures Assembled(after, other) == Assembled(t, other) && RowSound(sz, hash, after, other)
    {
      assert RowSound(sz, hash, t, other);
      KnownPackage(sz, hash, t, other);
      OtherNodes(t.nodes, after.nodes, id, other);
      RowKept(sz, hash, t, after, other);
    }
  }

  lemma AssemblyReplaced(t: Tables, after: Tables, id: string, run: RunSnapshot)
    requires after.runs.Keys == t.runs.Keys + {id} && Assembled(after, id) == run
    requires forall other :: other in t.runs && other != id ==> other in after.runs && Assembled(after, other) == Assembled(t, other)
    ensures Assembly(after) == Assembly(t)[id := run]
  {
    hide Assembled;
  }

  lemma AssemblyAt(t: Tables, id: string)
    ensures id in Assembly(t) <==> id in t.runs
    ensures id in t.runs ==> Assembly(t)[id] == Assembled(t, id)
  {
    hide Assembled;
  }

  lemma WrittenRow(sz: Sizer, hash: Package -> string, after: Tables, run: RunSnapshot, packageId: string)
    requires run.id in after.runs && after.runs[run.id] == RowOf(run, Head(sz, run), packageId)
    requires NodesOf(after.nodes, run.id) == run.invocations && run.checkpointFormat == CHECKPOINT_FORMAT
    requires packageId in after.packages && after.packages[packageId] == run.package && hash(run.package) == packageId
    ensures Assembled(after, run.id) == run && RowSound(sz, hash, after, run.id)
  {
    hide NodesOf, NextWakeup, RunBytes, UnresolvedKeys;
  }

  /** A run whose row, nodes and package are as before is as sound as before. */
  lemma RowKept(sz: Sizer, hash: Package -> string, t: Tables, after: Tables, id: string)
    requires id in t.runs && RowSound(sz, hash, t, id)
    requires id in after.runs && after.runs[id] == t.runs[id] && NodesOf(after.nodes, id) == NodesOf(t.nodes, id)
    requires t.runs[id].packageId in after.packages
    requires t.runs[id].packageId in t.packages ==> after.packages[t.runs[id].packageId] == t.packages[t.runs[id].packageId]
    ensures RowSound(sz, hash, after, id) && Assembled(after, id) == Assembled(t, id)
  {
    hide Head, NodesOf, BodyFits;
  }

  class SqliteExecutionStore {
    const sz: Sizer
    const hash: Package -> string
    var owner: Option<string>
    var tables: Tables

    ghost predicate Valid()
      reads this
    {
      Sound(sz, hash, tables)
    }

    /** The abstract store. */
    ghost function Runs(): StoreSpec.Runs
      reads this
    {
      Assembly(tables)
    }

    constructor (sz: Sizer, hash: Package -> string)
      ensures Valid() && Runs() == map[] && owner == None && tables.receipts == map[]
    {
      this.sz, this.hash := sz, hash;
      owner, tables := None, Tables(map[], map[], map[], map[]);
    }

    /** One owner at a time: the claim also needs the file lock, which another process may hold. */
    method Claim(claimant: string, unlocked: bool) returns (r: Result<(), StoreError>)
      modifies this`owner
      ensures r == if old(owner) == None && claimant != "" && unlocked then Ok(()) else Err(Conflict)
      ensures owner == if r.Ok? then Some(claimant) else old(owner)
    {
      if owner.Some? || claimant == "" || !unlocked {
        return Err(Conflict);
      }
      owner := Some(claimant);
      return Ok(());
    }

    method Release(holder: string) returns (r: Result<(), StoreError>)
      modifies this`owner
      ensures r == if old(owner) == Some(holder) then Ok(()) else Err(Conflict)
      ensures owner == if old(owner) == Some(holder) then None else old(owner)
    {
      if owner != Some(holder) {
        return Err(Conflict);
      }
      owner := None;
      return Ok(());
    }

    method Get(id: string) returns (r: Result<Option<RunSnapshot>, StoreError>)
      requires Valid()
      ensures r == if owner == None then Err(Conflict) else Ok(if id in Runs() then Some(Runs()[id]) else None)
    {
      if owner.None? {
        return Err(Conflict);
      }
      r := ReadRun(sz, hash, tables, id);
    }

    method GetView(id: string, node: Option<string>) returns (r: Result<Option<ExecutionView>, StoreError>)
      requires Valid()
      ensures r == if owner == None then Err(Conflict) else Ok(if id in Runs() then Some(View(sz, Runs()[id], node)) else None)
    {
      if owner.None? {
        return Err(Conflict);
      }
      r := ReadView(sz, hash, tables, id, node);
    }

    /** The admission checks over the tables of an open transaction. */
    method Admit(tx: Tables, run: RunSnapshot, receipt: Option<Reservation>, limits: StoreLimits)
      returns (r: Result<CreateOutcome, StoreError>)
      requires Sound(sz, hash, tx)
      ensures r == Admission(Assembly(tx), tx.receipts, run, receipt, limits)
    {
      hide Sound, Assembled, ValidInitial, ActiveIds;
      if receipt.Some? {
        var slot := (run.scope, receipt.value.key);
        if slot in tx.receipts {
          var held := tx.receipts[slot];
          if held.reservation.request != receipt.value.request {
            return Err(Conflict);
          }
          return Ok(Duplicate(held.runId, held.reservation.expiresAt));
        }
        if |tx.receipts| >= limits.receiptCount {
          return Err(AdmissionFull);
        }
      }
      var active := set id | id in tx.runs && !IsTerminal(tx.runs[id].state);
      ActiveRows(sz, hash, tx);
      if |active| >= limits.activeRuns + limits.pendingRuns {
        return Err(AdmissionFull);
      }
      if !ValidInitial(run) || run.id in tx.runs {
        return Err(Conflict);
      }
      return Ok(Created);
    }

    /** Package, run row and receipt appear in one transaction; a refusal changes nothing at all. */
    method Create(caller: string, run: RunSnapshot, receipt: Option<Reservation>, limits: StoreLimits)
      returns (r: Result<CreateOutcome, StoreError>)
      requires Valid()
      modifies this`tables
      ensures Valid()
      ensures old(owner) != Some(caller) ==> r == Err(Conflict)
      ensures old(owner) == Some(caller) ==>
        var decided := Admission(old(Runs()), LiveReceipts(old(tables.receipts), run.createdAt), run, receipt, limits);
        r == if decided == Ok(Created) && HashCollides(hash, old(tables.packages), run.package) then Err(Corrupt) else decided
      ensures Runs() == if r == Ok(Created) then old(Runs())[run.id := run] else old(Runs())
      ensures tables.receipts ==
        if r.Err? then old(tables.receipts)
        else if r == Ok(Created) && receipt.Some? then
          LiveReceipts(old(tables.receipts), run.createdAt)[(run.scope, receipt.value.key) := Receipt(run.id, receipt.value)]
        else LiveReceipts(old(tables.receipts), run.createdAt)
      ensures old(owner) == Some(caller) && r != Err(Corrupt) ==>
        Decides(old(Runs()), old(tables.receipts), run, receipt, limits, r)
      ensures r == Err(Corrupt) ==> Decides(old(Runs()), old(tables.receipts), run, receipt, limits, Ok(Created))
      ensures r.Ok? && !(r.value.Created? && receipt.Some?) ==> Expires(old(tables.receipts), tables.receipts, run.createdAt)
    {
      hide Admission, Decides, LiveReceipts, Expires, Sound, Assembly, ValidInitial, HashCollides;
      LiveMeans(tables.receipts, run.createdAt);
      AdmissionMeans(Runs(), tables.receipts, run, receipt, limits);
      if owner != Some(caller) {
        return Err(Conflict);
      }
      var tx := tables.(receipts := LiveReceipts(tables.receipts, run.createdAt));
      ReceiptsAside(sz, hash, tables, tx);
      r := Admit(tx, run, receipt, limits);
      if r.Err? {
        return;
      }
      AssemblyAt(tx, run.id);
      if r.value.Created? {
        var inserted := InsertRun(sz, hash, tx, run);
        if inserted.Err? {
          return Err(inserted.error);
        }
        tx := inserted.value;
        if receipt.Some? {
          ghost var before := tx;
          tx := tx.(receipts := tx.receipts[(run.scope, receipt.value.key) := Receipt(run.id, receipt.value)]);
          ReceiptsAside(sz, hash, before, tx);
        }
      }
      tables := tx;
    }

    method Commit(caller: string, expected: nat, next: RunSnapshot) returns (r: Result<(), StoreError>)
      requires Valid()
      modifies this`tables
      ensures Valid() && tables.receipts == old(tables.receipts)
      ensures old(owner) != Some(caller) ==> r == Err(Conflict) && Runs() == old(Runs())
      ensures old(owner) == Some(caller) ==>
        match FullCommit(old(Runs()), expected, next)
        case Ok(after) => r == Ok(()) && Runs() == after
        case Err(e) => r == Err(e) && Runs() == old(Runs())
    {
      if owner != Some(caller) {
        return Err(Conflict);
      }
      hide NodesOf, Head, ValidWaits, KeepsConfirmed, TerminalStable, WaitsConsistent;
      var read := ReadRun(sz, hash, tables, next.id);
      if read.Err? {
        return Err(Corrupt);
      }
      if read.value.None? {
        return Err(NotFound);
      }
      var current := read.value.value;
      if !ValidSuccessor(current, expected, next) {
        return Err(Conflict);
      }
      var row := tables.runs[next.id];
      SuccessorConsistent(current, expected, next);
      assert RowSound(sz, hash, tables, next.id);
      var head := HeadOf(sz, next);
      if row.revision != expected {
        return Err(Conflict);
      }
      var nodes := WriteChanges(sz, tables.nodes, next.id, current.invocations, next.invocations);
      FullWriteSound(sz, hash, tables, tables.packages, nodes, next, row.packageId);
      var updated := row.(revision := next.revision, state := next.state, cancelRequested := next.cancelRequested,
        finishedAt := next.finishedAt, retainedBytes := head.retainedBytes, invocationCount := head.invocationCount,
        unresolvedCount := head.unresolvedInvocations, body := next.(invocations := map[], package := NO_PACKAGE),
        nextWakeup := head.nextWakeup);
      assert updated == RowOf(next, head, row.packageId);
      tables := tables.(runs := tables.runs[next.id := updated], nodes := nodes);
      return Ok(());
    }

    /** Four columns and one node row; the header body and the wake-up column stay as they are. */
    method CommitInvocation(caller: string, id: string, expected: nat, path: string, record: InvocationRecord)
      returns (r: Result<ExecutionView, StoreError>)
      requires Valid()
      modifies this`tables
      ensures Valid() && tables.receipts == old(tables.receipts)
      ensures old(owner) != Some(caller) ==> r == Err(Conflict) && Runs() == old(Runs())
      ensures old(owner) == Some(caller) ==>
        match NodeCommit(old(Runs()), id, expected, path, record)
        case Ok(after) => r == Ok(View(sz, after[id], Some(path))) && Runs() == after
        case Err(e) => r == Err(e) && Runs() == old(Runs())
      ensures id in old(tables.runs) && id in tables.runs ==>
        tables.runs[id].body == old(tables.runs[id].body) && tables.runs[id].nextWakeup == old(tables.runs[id].nextWakeup)
    {
      hide Sound, NodesOf, Assembled, Assembly, Head, View, NodeColumns, WithNode, UnresolvedKeys, NodeCommitAllowed, RowFor, PathsOf;
      AssemblyAt(tables, id);
      if owner != Some(caller) {
        return Err(Conflict);
      }
      if id !in tables.runs {
        return Err(NotFound);
      }
      SoundColumns(sz, hash, tables, id);
      var row := tables.runs[id];
      var found := ReadNode(sz, tables, id, path);
      if found.Err? {
        return Err(Corrupt);
      }
      var previous := found.value;
      NodeTest(tables, id, expected, path, record, previous);
      if row.revision != expected || record.IsWait() || (previous.Some? && previous.value.IsWait()) || IsTerminal(row.state)
         || (previous.Some? && previous.value.state == InvocationState.Succeeded && previous.value != record)
         || expected >= MAX_REVISION {
        return Err(Conflict);
      }
      var updated := NodeColumns(sz, row, previous, record);
      NodeWriteSound(sz, hash, tables, id, path, record);
      NodeColumnsKeep(sz, row, previous, record);
      tables := tables.(runs := tables.runs[id := updated], nodes := tables.nodes[(id, path) := RowFor(sz, record)]);
      AssemblyAt(tables, id);
      var view := ReadView(sz, hash, tables, id, Some(path));
      if view.Err? {
        return Err(Corrupt);
      }
      return Ok(view.value.value);
    }

    /** Retention, cascade to node rows, then packages nobody references. */
    method Collect(caller: string, now: nat, limits: StoreLimits) returns (r: Result<(), StoreError>)
      requires Valid()
      modifies this`tables
      ensures Valid()
      ensures old(owner) != Some(caller) ==> r == Err(Conflict) && tables == old(tables)
      ensures old(owner) == Some(caller) ==>
        && r == Ok(()) && tables.receipts == LiveReceipts(old(tables.receipts), now)
        && Expires(old(tables.receipts), tables.receipts, now)
        && Runs() == Collected(old(Runs()), now, limits)
        && (forall p :: p in tables.packages ==> exists id :: id in tables.runs && tables.runs[id].packageId == p)
    {
      LiveMeans(tables.receipts, now);
      hide LiveReceipts, Expires;
      if owner != Some(caller) {
        return Err(Conflict);
      }
      tables := Retained(sz, hash, tables, now, limits);
      return Ok(());
    }
  }

  lemma SuccessorConsistent(run: RunSnapshot, expected: nat, next: RunSnapshot)
    requires ValidSuccessor(run, expected, next)
    ensures WaitsConsistent(next) && next.checkpointFormat == run.checkpointFormat
  {
  }

  predicate HashCollides(hash: Package -> string, packages: map<string, Package>, package: Package) {
    hash(package) in packages && packages[hash(package)] != package
  }

  lemma ReceiptsAside(sz: Sizer, hash: Package -> string, before: Tables, after: Tables)
    requires Sound(sz, hash, before) && after == before.(receipts := after.receipts)
    ensures Sound(sz, hash, after) && Assembly(after) == Assembly(before)
  {
    hide NodesOf, RowSound, Coherent, Assembled;
    forall id | id in before.runs
      ensures RowSound(sz, hash, after, id) && Assembled(after, id) == Assembled(before, id)
    {
      assert RowSound(sz, hash, before, id);
      KnownPackage(sz, hash, before, id);
      RowKept(sz, hash, before, after, id);
    }
    assert Assembly(after) == Assembly(before);
  }

  lemma KnownPackage(sz: Sizer, hash: Package -> string, t: Tables, id: string)
    requires id in t.runs && RowSound(sz, hash, t, id)
    ensures t.runs[id].packageId in t.packages
    ensures Assembled(t, id).state == t.runs[id].state && Assembled(t, id).finishedAt == t.runs[id].finishedAt
  {
    hide NodesOf, Head, HeadColumns;
  }

  lemma ActiveRows(sz: Sizer, hash: Package -> string, t: Tables)
    requires Sound(sz, hash, t)
    ensures (set id | id in t.runs && !IsTerminal(t.runs[id].state)) == ActiveIds(Assembly(t))
  {
    hide NodesOf, RowSound, Coherent, Assembled;
    forall id | id in t.runs
      ensures Assembly(t)[id].state == t.runs[id].state
    {
      assert RowSound(sz, hash, t, id);
      KnownPackage(sz, hash, t, id);
    }
  }

  /** Intern the package, refuse a colliding hash, insert the run row. */
  method InsertRun(sz: Sizer, hash: Package -> string, t: Tables, run: RunSnapshot) returns (r: Result<Tables, StoreError>)
    requires Sound(sz, hash, t) && ValidInitial(run) && run.id !in t.runs
    ensures r == Err(Corrupt) <==> HashCollides(hash, t.packages, run.package)
    ensures r.Err? ==> r.error == Corrupt
    ensures r.Ok? ==> Sound(sz, hash, r.value) && Assembly(r.value) == Assembly(t)[run.id := run] && r.value.receipts == t.receipts
  {
    hide NodesOf, Head, Assembled, WaitsConsistent, RowSound;
    assert WaitsConsistent(run) && run.invocations == map[] by { InitialConsistent(run); }
    var packageId := hash(run.package);
    var packages := if packageId in t.packages then t.packages else t.packages[packageId := run.package];
    if packages[packageId] != run.package {
      return Err(Corrupt);
    }
    var head := HeadOf(sz, run);
    NoRowsYet(sz, hash, t, run.id);
    FullWriteSound(sz, hash, t, packages, t.nodes, run, packageId);
    return Ok(Tables(packages, t.runs[run.id := RowOf(run, head, packageId)], t.nodes, t.receipts));
  }

  lemma InitialConsistent(run: RunSnapshot)
    requires ValidInitial(run)
    ensures WaitsConsistent(run) && run.invocations == map[] && run.checkpointFormat == CHECKPOINT_FORMAT
  {
  }

  lemma NoRowsYet(sz: Sizer, hash: Package -> string, t: Tables, id: string)
    requires Sound(sz, hash, t) && id !in t.runs
    ensures NodesOf(t.nodes, id) == map[] && OthersKept(t.nodes, t.nodes, id)
  {
    forall path
      ensures path !in PathsOf(t.nodes, id)
    {
      assert (id, path).0 == id;
    }
  }

  /** The counters a single-node commit writes. */
  function NodeColumns(sz: Sizer, row: RunRow, previous: Option<InvocationRecord>, record: InvocationRecord): RunRow
  {
    row.(revision := row.revision + 1,
         retainedBytes := SaturatingSub(row.retainedBytes, if previous.Some? then RecordBytes(sz, previous.value) else 0)
           + RecordBytes(sz, record),
         invocationCount := row.invocationCount + (if previous.None? then 1 else 0),
         unresolvedCount := SaturatingSub(row.unresolvedCount, if previous.Some? && previous.value.IsUnresolved() then 1 else 0)
           + (if record.IsUnresolved() then 1 else 0))
  }

  function Before(run: RunSnapshot, path: string): Option<InvocationRecord> {
    if path in run.invocations then Some(run.invocations[path]) else None
  }

  lemma BytesAfterNode(sz: Sizer, run: RunSnapshot, path: string, record: InvocationRecord)
    ensures RunBytes(sz, WithNode(run, path, record)) ==
      SaturatingSub(RunBytes(sz, run), if Before(run, path).Some? then RecordBytes(sz, Before(run, path).value) else 0)
      + RecordBytes(sz, record)
  {
    hide NodeBytes, WaitBytes, RecordBytes;
    NodeBytesReplaced(sz, run.invocations, path, record);
    RecordWithin(sz, run.invocations, path);
  }

  lemma UnresolvedAfterNode(run: RunSnapshot, path: string, record: InvocationRecord)
    ensures |UnresolvedKeys(WithNode(run, path, record).invocations)| ==
      SaturatingSub(|UnresolvedKeys(run.invocations)|, if Before(run, path).Some? && Before(run, path).value.IsUnresolved() then 1 else 0)
      + (if record.IsUnresolved() then 1 else 0)
    ensures |WithNode(run, path, record).invocations| == |run.invocations| + (if Before(run, path).None? then 1 else 0)
  {
    hide UnresolvedKeys;
    var nodes := run.invocations;
    UnresolvedReplaced(nodes, path, record);
    assert nodes[path := record].Keys == nodes.Keys + {path};
    UnresolvedMember(nodes, path);
    OneMoreOrLess(UnresolvedKeys(nodes), path);
    OneMoreOrLess(nodes.Keys, path);
  }

  lemma UnresolvedMember(nodes: map<string, InvocationRecord>, path: string)
    ensures path in UnresolvedKeys(nodes) <==> path in nodes && nodes[path].IsUnresolved()
  {
  }

  lemma OneMoreOrLess(keys: set<string>, key: string)
    ensures |keys + {key}| == |keys| + (if key in keys then 0 else 1)
    ensures |keys - {key}| == |keys| - (if key in keys then 1 else 0)
  {
    assert key in keys ==> keys + {key} == keys;
    assert key !in keys ==> keys - {key} == keys;
  }

  /** The four columns are the head of the edited run; the wake-up column needs no update. */
  lemma NodeRowWritten(sz: Sizer, hash: Package -> string, t: Tables, after: Tables, id: string, path: string, record: InvocationRecord)
    requires id in t.runs && RowSound(sz, hash, t, id)
    requires after.packages == t.packages && id in after.runs
    requires after.runs[id] == NodeColumns(sz, t.runs[id], Before(Assembled(t, id), path), record)
    requires NodesOf(after.nodes, id) == NodesOf(t.nodes, id)[path := record]
    ensures RowSound(sz, hash, after, id) && Assembled(after, id) == WithNode(Assembled(t, id), path, record)
  {
    hide NodesOf, RunBytes, RecordBytes, PendingWakeup, UnresolvedKeys, Before;
    var run := Assembled(t, id);
    BytesAfterNode(sz, run, path, record);
    UnresolvedAfterNode(run, path, record);
  }

  lemma NodeColumnsKeep(sz: Sizer, row: RunRow, previous: Option<InvocationRecord>, record: InvocationRecord)
    ensures NodeColumns(sz, row, previous, record).body == row.body && NodeColumns(sz, row, previous, record).nextWakeup == row.nextWakeup
  {
  }

  /** The tests on the columns are those on the reassembled run. */
  lemma NodeTest(t: Tables, id: string, expected: nat, path: string, record: InvocationRecord, previous: Option<InvocationRecord>)
    requires id in t.runs && previous == Before(Assembled(t, id), path)
    requires Assembled(t, id).revision == t.runs[id].revision && Assembled(t, id).state == t.runs[id].state
    ensures NodeCommitAllowed(Assembled(t, id), expected, path, record) <==>
      !(t.runs[id].revision != expected || record.IsWait() || (previous.Some? && previous.value.IsWait()) || IsTerminal(t.runs[id].state)
        || (previous.Some? && previous.value.state == InvocationState.Succeeded && previous.value != record)
        || expected >= MAX_REVISION)
  {
    hide Assembled;
  }

  /** A single-node write keeps every table coherent although body and wake-up are left alone. */
  lemma NodeWriteSound(sz: Sizer, hash: Package -> string, t: Tables, id: string, path: string, record: InvocationRecord)
    requires Sound(sz, hash, t) && id in t.runs
    requires NodeCommitAllowed(Assembled(t, id), t.runs[id].revision, path, record)
    ensures var after := t.(runs := t.runs[id := NodeColumns(sz, t.runs[id], Before(Assembled(t, id), path), record)],
                            nodes := t.nodes[(id, path) := RowFor(sz, record)]);
      && Sound(sz, hash, after)
      && Assembly(after) == Assembly(t)[id := WithNode(Assembled(t, id), path, record)]
  {
    hide NodesOf, RowSound, Coherent, Assembled, Assembly, NodeColumns, Before, WithNode, NodeCommitAllowed;
    var run, row := Assembled(t, id), t.runs[id];
    assert RowSound(sz, hash, t, id);
    var after := t.(runs := t.runs[id := NodeColumns(sz, row, Before(run, path), record)],
                    nodes := t.nodes[(id, path) := RowFor(sz, record)]);
    SoundColumns(sz, hash, t, id);
    NodeUpserted(t.nodes, id, path, RowFor(sz, record));
    NodeRowWritten(sz, hash, t, after, id, path, record);
    OthersAssembled(sz, hash, t, after, id);
    AssemblyReplaced(t, after, id, WithNode(run, path, record));
    AssemblyAt(t, id);
    NodeCommitCoherent(Assembly(t), id, path, record);
  }

  // ---------------------------------------------------------------- retention

  function FinishedRows(runs: map<string, RunRow>): set<(nat, string)> {
    set id | id in runs && IsTerminal(runs[id].state) && runs[id].finishedAt.Some? :: (runs[id].finishedAt.value, id)
  }

  lemma FinishedAssembled(sz: Sizer, hash: Package -> string, t: Tables)
    requires Sound(sz, hash, t)
    ensures FinishedRows(t.runs) == Finished(Assembly(t))
  {
    forall x
      ensures x in FinishedRows(t.runs) <==> x in Finished(Assembly(t))
    {
      if x.1 in t.runs {
        assert RowSound(sz, hash, t, x.1);
        assert Assembly(t)[x.1].finishedAt == t.runs[x.1].finishedAt && Assembly(t)[x.1].state == t.runs[x.1].state;
      }
    }
  }

  method Retained(sz: Sizer, ghost hash: Package -> string, t: Tables, now: nat, limits: StoreLimits) returns (after: Tables)
    requires Sound(sz, hash, t)
    ensures Sound(sz, hash, after)
    ensures after.receipts == LiveReceipts(t.receipts, now)
    ensures Assembly(after) == Collected(Assembly(t), now, limits)
    ensures forall p :: p in after.packages ==> exists id :: id in after.runs && after.runs[id].packageId == p
  {
    hide NodesOf, Sound, Assembled, Collected;
    var pool := FinishedRows(t.runs);
    FinishedAssembled(sz, hash, t);
    var finished := SortFinished(pool);
    var excess := SaturatingSub(|finished|, limits.terminalRuns);
    assert forall k :: k in t.nodes ==> k.0 in t.runs by { NodesHaveRuns(sz, hash, t); }
    var runs, nodes := DropFinished(t, finished, excess, now, limits.retentionMs);
    DroppedAreCollectable(Assembly(t), finished, pool, now, limits);
    var packages := map p | p in t.packages && exists id :: id in runs && runs[id].packageId == p :: t.packages[p];
    after := Tables(packages, runs, nodes, LiveReceipts(t.receipts, now));
    RestrictionSound(sz, hash, t, after);
    CollectedAssembly(t, after, now, limits);
  }

  lemma NodesHaveRuns(sz: Sizer, hash: Package -> string, t: Tables)
    requires Sound(sz, hash, t)
    ensures forall k :: k in t.nodes ==> k.0 in t.runs
  {
    hide RowSound, Coherent;
  }

  lemma CollectedAssembly(t: Tables, after: Tables, now: nat, limits: StoreLimits)
    requires after.runs.Keys <= t.runs.Keys
    requires forall id :: id in t.runs ==> (id in after.runs <==> !Collectable(Assembly(t), id, now, limits))
    requires forall id :: id in after.runs ==> Assembled(after, id) == Assembled(t, id)
    ensures Assembly(after) == Collected(Assembly(t), now, limits)
  {
    hide Assembled, Collectable;
  }

  /** The deletions of the retention scan, each with its cascade. */
  method DropFinished(t: Tables, finished: seq<(nat, string)>, excess: nat, now: nat, retentionMs: nat)
    returns (runs: map<string, RunRow>, nodes: NodeTable)
    requires forall k :: k in t.nodes ==> k.0 in t.runs
    ensures runs == t.runs - Dropped(finished, excess, now, retentionMs)
    ensures nodes == NodesUnder(t.nodes, runs.Keys)
  {
    var index := 0;
    runs, nodes := t.runs, t.nodes;
    while index < |finished|
      invariant index <= |finished|
      invariant runs == t.runs - Dropped(finished[..index], excess, now, retentionMs)
      invariant nodes == NodesUnder(t.nodes, runs.Keys)
    {
      var (at, id) := finished[index];
      DroppedStep(finished, index, excess, now, retentionMs);
      if index < excess || SaturatingSub(now, at) >= retentionMs {
        runs := runs - {id};
        nodes := map k | k in nodes && k.0 != id :: nodes[k];
      }
      index := index + 1;
    }
    assert finished[..|finished|] == finished;
  }

  function NodesUnder(nodes: NodeTable, ids: set<string>): NodeTable {
    map k | k in nodes && k.0 in ids :: nodes[k]
  }

  /** Dropping whole runs, their node rows and unreferenced packages keeps the rest as it was. */
  lemma RestrictionSound(sz: Sizer, hash: Package -> string, t: Tables, after: Tables)
    requires Sound(sz, hash, t)
    requires after.runs.Keys <= t.runs.Keys && (forall id :: id in after.runs ==> after.runs[id] == t.runs[id])
    requires after.nodes == NodesUnder(t.nodes, after.runs.Keys)
    requires forall p :: p in after.packages <==> p in t.packages && exists id :: id in after.runs && after.runs[id].packageId == p
    requires forall p :: p in after.packages ==> after.packages[p] == t.packages[p]
    ensures Sound(sz, hash, after)
    ensures forall id :: id in after.runs ==> Assembled(after, id) == Assembled(t, id)
  {
    hide NodesOf, RowSound, WaitsConsistent, Assembled;
    forall id | id in after.runs
      ensures RowSound(sz, hash, after, id) && Assembled(after, id) == Assembled(t, id)
    {
      assert RowSound(sz, hash, t, id);
      KnownPackage(sz, hash, t, id);
      NodesUnderKept(t.nodes, after.runs.Keys, id);
      RowKept(sz, hash, t, after, id);
    }
    forall id | id in Assembly(after)
      ensures Assembly(after)[id].id == id && WaitsConsistent(Assembly(after)[id])
    {
      assert Assembly(after)[id] == Assembly(t)[id];
    }
  }

  lemma NodesUnderKept(nodes: NodeTable, ids: set<string>, id: string)
    requires id in ids
    ensures NodesOf(NodesUnder(nodes, ids), id) == NodesOf(nodes, id)
  {
  }
}
