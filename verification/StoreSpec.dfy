/**
 The simple store both providers must agree with: a map from run id to its full
 snapshot, plus the library steps the providers lean on.
 */
module StoreSpec {
  import opened Wrappers
  import opened Text
  import opened Protocol
  import opened Checkpoint
  import opened WaitHistory
  import S = MapSums

  type Runs = map<string, RunSnapshot>

  datatype StoreLimits = StoreLimits(activeRuns: nat, pendingRuns: nat, terminalRuns: nat, retentionMs: nat,
                                     receiptCount: nat)

  datatype StoreError = Conflict | NotFound | AdmissionFull | Corrupt

  datatype Reservation = Reservation(key: string, request: string, expiresAt: nat)

  datatype CreateOutcome = Created | Duplicate(runId: string, expiresAt: nat)

  datatype Receipt = Receipt(runId: string, reservation: Reservation)

  type Receipts = map<(string, string), Receipt>

  /** Every held run is stored under its own id and passes the wait checks. */
  ghost predicate Coherent(runs: Runs) {
    forall id :: id in runs ==> runs[id].id == id && WaitsConsistent(runs[id])
  }

  /** The whole-snapshot commit. */
  function FullCommit(runs: Runs, expected: nat, next: RunSnapshot): Result<Runs, StoreError> {
    if next.id !in runs then Err(NotFound)
    else if !ValidSuccessor(runs[next.id], expected, next) then Err(Conflict)
    else Ok(runs[next.id := next])
  }

  /** The single-node commit. */
  function NodeCommit(runs: Runs, id: string, expected: nat, node: string, record: InvocationRecord):
    Result<Runs, StoreError>
  {
    if id !in runs then Err(NotFound)
    else if !NodeCommitAllowed(runs[id], expected, node, record) then Err(Conflict)
    else Ok(runs[id := WithNode(runs[id], node, record)])
  }

  /** Both commits keep the store coherent, and the first is the second on the edited snapshot. */
  lemma CommitsCoherent(runs: Runs, id: string, expected: nat, node: string, record: InvocationRecord, next: RunSnapshot)
    requires Coherent(runs)
    ensures FullCommit(runs, expected, next).Ok? ==> Coherent(FullCommit(runs, expected, next).value)
    ensures NodeCommit(runs, id, expected, node, record).Ok? ==> Coherent(NodeCommit(runs, id, expected, node, record).value)
    ensures NodeCommit(runs, id, expected, node, record).Ok? ==>
      FullCommit(runs, expected, WithNode(runs[id], node, record)) == NodeCommit(runs, id, expected, node, record)
  {
    if id in runs {
      NodeCommitRefinesFullCommit(runs[id], expected, node, record);
    }
  }

  ghost function ActiveIds(runs: Runs): set<string> {
    set id | id in runs && !IsTerminal(runs[id].state)
  }

  function LiveReceipts(receipts: Receipts, now: nat): Receipts {
    map k | k in receipts && receipts[k].reservation.expiresAt > now :: receipts[k]
  }

  /** The admission decision, in the order the stores make it. */
  ghost function Admission(runs: Runs, live: Receipts, run: RunSnapshot, receipt: Option<Reservation>,
                           limits: StoreLimits): Result<CreateOutcome, StoreError>
  {
    if receipt.Some? && (run.scope, receipt.value.key) in live then
      var held := live[(run.scope, receipt.value.key)];
      if held.reservation.request != receipt.value.request then Err(Conflict)
      else Ok(Duplicate(held.runId, held.reservation.expiresAt))
    else if receipt.Some? && |live| >= limits.receiptCount then Err(AdmissionFull)
    else if |ActiveIds(runs)| >= limits.activeRuns + limits.pendingRuns then Err(AdmissionFull)
    else if !ValidInitial(run) || run.id in runs then Err(Conflict)
    else Ok(Created)
  }

  // ---------------------------------------------------------------- what a receipt means

  /** At this moment the slot is taken: a creation was acknowledged under it and its receipt has not expired. */
  predicate Taken(receipts: Receipts, slot: (string, string), at: nat) {
    slot in receipts && receipts[slot].reservation.expiresAt > at
  }

  /** Exactly the receipts that have not expired are held, each as it was. */
  ghost predicate Expires(before: Receipts, after: Receipts, at: nat) {
    && (forall slot :: slot in after <==> slot in before && before[slot].reservation.expiresAt > at)
    && (forall slot :: slot in after ==> after[slot] == before[slot])
  }

  ghost function TakenSlots(receipts: Receipts, at: nat): set<(string, string)> {
    set slot | slot in receipts && Taken(receipts, slot, at)
  }

  /** There is room for one more run, and for one more receipt if one is asked for. */
  ghost predicate HasRoom(runs: Runs, receipts: Receipts, run: RunSnapshot, receipt: Option<Reservation>, limits: StoreLimits) {
    && (receipt.Some? ==> |TakenSlots(receipts, run.createdAt)| < limits.receiptCount)
    && |ActiveIds(runs)| < limits.activeRuns + limits.pendingRuns
  }

  /**
   What a creation must be answered. A taken slot decides alone: the same request is the run already made, another
   request is refused. Behind a free slot the run is created exactly when there is room for it and it is new and initial.
   */
  ghost predicate Decides(runs: Runs, receipts: Receipts, run: RunSnapshot, receipt: Option<Reservation>, limits: StoreLimits,
                          r: Result<CreateOutcome, StoreError>)
  {
    var taken := receipt.Some? && Taken(receipts, (run.scope, receipt.value.key), run.createdAt);
    && (taken ==>
          var held := receipts[(run.scope, receipt.value.key)];
          if held.reservation.request == receipt.value.request
          then r == Ok(Duplicate(held.runId, held.reservation.expiresAt)) else r == Err(Conflict))
    && (!taken ==>
          && (r == Err(AdmissionFull) <==> !HasRoom(runs, receipts, run, receipt, limits))
          && (r == Ok(Created) <==> HasRoom(runs, receipts, run, receipt, limits) && ValidInitial(run) && run.id !in runs)
          && (r == Err(Conflict) <==> HasRoom(runs, receipts, run, receipt, limits) && !(ValidInitial(run) && run.id !in runs)))
  }

  lemma LiveMeans(receipts: Receipts, at: nat)
    ensures Expires(receipts, LiveReceipts(receipts, at), at)
    ensures LiveReceipts(receipts, at).Keys == TakenSlots(receipts, at)
    ensures |LiveReceipts(receipts, at)| == |TakenSlots(receipts, at)|
  {
    assert LiveReceipts(receipts, at).Keys == TakenSlots(receipts, at);
    KeysCount(LiveReceipts(receipts, at));
  }

  lemma KeysCount(receipts: Receipts)
    ensures |receipts| == |receipts.Keys|
  {
  }

  lemma AdmissionMeans(runs: Runs, receipts: Receipts, run: RunSnapshot, receipt: Option<Reservation>, limits: StoreLimits)
    ensures var r := Admission(runs, LiveReceipts(receipts, run.createdAt), run, receipt, limits);
      && Decides(runs, receipts, run, receipt, limits, r) && r != Err(Corrupt)
      && (r == Ok(Created) ==> ValidInitial(run) && run.id !in runs)
  {
    LiveMeans(receipts, run.createdAt);
    hide LiveReceipts, TakenSlots, ActiveIds, ValidInitial;
  }

  lemma FullCommitCoherent(runs: Runs, expected: nat, next: RunSnapshot)
    requires Coherent(runs) && next.id in runs && ValidSuccessor(runs[next.id], expected, next)
    ensures Coherent(runs[next.id := next])
  {
  }

  lemma NodeCommitCoherent(runs: Runs, id: string, path: string, record: InvocationRecord)
    requires Coherent(runs) && id in runs && NodeCommitAllowed(runs[id], runs[id].revision, path, record)
    ensures Coherent(runs[id := WithNode(runs[id], path, record)])
  {
    CommitsCoherent(runs, id, runs[id].revision, path, record, runs[id]);
  }

  lemma CreationCoherent(runs: Runs, run: RunSnapshot)
    requires Coherent(runs) && ValidInitial(run)
    ensures Coherent(runs[run.id := run])
  {
  }

  // ---------------------------------------------------------------- retention

  /** Order of `(finished_at, id)`. */
  predicate Earlier(a: (nat, string), b: (nat, string)) {
    a.0 < b.0 || (a.0 == b.0 && Less(a.1, b.1))
  }

  ghost function Finished(runs: Runs): set<(nat, string)> {
    set id | id in runs && IsTerminal(runs[id].state) && runs[id].finishedAt.Some? :: (runs[id].finishedAt.value, id)
  }

  ghost function Rank(finished: set<(nat, string)>, x: (nat, string)): nat {
    |set y | y in finished && Earlier(y, x)|
  }

  /** A finished run goes when it is among the oldest over the count, or old enough. */
  ghost predicate Collectable(runs: Runs, id: string, now: nat, limits: StoreLimits) {
    && id in runs && IsTerminal(runs[id].state) && runs[id].finishedAt.Some?
    && var at := runs[id].finishedAt.value;
       || Rank(Finished(runs), (at, id)) + limits.terminalRuns < |Finished(runs)|
       || limits.retentionMs == 0 || now >= at + limits.retentionMs
  }

  /** Retention is fair to age: whenever it takes a run it also takes every run that finished earlier. */
  lemma OldestGoFirst(runs: Runs, older: string, newer: string, now: nat, limits: StoreLimits)
    requires older in runs && IsTerminal(runs[older].state) && runs[older].finishedAt.Some?
    requires newer in runs && runs[newer].finishedAt.Some? && runs[older].finishedAt.value < runs[newer].finishedAt.value
    requires Collectable(runs, newer, now, limits)
    ensures Collectable(runs, older, now, limits)
  {
    var a, b := (runs[older].finishedAt.value, older), (runs[newer].finishedAt.value, newer);
    RankGrows(Finished(runs), a, b);
  }

  lemma RankGrows(finished: set<(nat, string)>, a: (nat, string), b: (nat, string))
    requires a.0 < b.0
    ensures Rank(finished, a) <= Rank(finished, b)
  {
    var before, after := set y | y in finished && Earlier(y, a), set y | y in finished && Earlier(y, b);
    forall y | y in before
      ensures y in after
    {
      EarlierTransitive(y, a, b);
    }
    S.SubsetCount(before, after);
  }

  ghost function Collected(runs: Runs, now: nat, limits: StoreLimits): Runs {
    map id | id in runs && !Collectable(runs, id, now, limits) :: runs[id]
  }

  lemma EarlierTotal(a: (nat, string), b: (nat, string))
    ensures Earlier(a, b) || a == b || Earlier(b, a)
    ensures !(Earlier(a, b) && Earlier(b, a)) && !Earlier(a, a)
  {
    LessTotal(a.1, b.1);
    IrreflexiveLess(a.1);
  }

  lemma EarlierTransitive(a: (nat, string), b: (nat, string), c: (nat, string))
    requires Earlier(a, b) && Earlier(b, c)
    ensures Earlier(a, c)
  {
    if a.0 == b.0 && b.0 == c.0 {
      LessTransitive(a.1, b.1, c.1);
    }
  }

  ghost predicate Ascending(s: seq<(nat, string)>) {
    forall i, j :: 0 <= i < j < |s| ==> Earlier(s[i], s[j])
  }

  /** The earliest element of a nonempty set. */
  method Earliest(pool: set<(nat, string)>) returns (first: (nat, string))
    requires pool != {}
    ensures first in pool && forall y :: y in pool && y != first ==> Earlier(first, y)
  {
    first :| first in pool;
    var left := pool - {first};
    while left != {}
      invariant left <= pool && first in pool - left
      invariant forall y :: y in pool - left && y != first ==> Earlier(first, y)
      decreases left
    {
      var y :| y in left;
      EarlierTotal(first, y);
      if Earlier(y, first) {
        forall z | z in pool - left && z != first
          ensures Earlier(y, z)
        {
          EarlierTransitive(y, first, z);
        }
        first := y;
      }
      left := left - {y};
    }
  }

  /** `Vec::sort` on finished runs: ascending, the same elements. */
  method SortFinished(pool: set<(nat, string)>) returns (sorted: seq<(nat, string)>)
    ensures Ascending(sorted)
    ensures forall x :: x in sorted <==> x in pool
    ensures |sorted| == |pool|
  {
    sorted := [];
    var left := pool;
    while left != {}
      invariant left <= pool
      invariant Ascending(sorted)
      invariant forall x :: x in sorted <==> x in pool - left
      invariant forall x, y :: x in sorted && y in left ==> Earlier(x, y)
      invariant |sorted| + |left| == |pool|
      decreases left
    {
      var first := Earliest(left);
      sorted := sorted + [first];
      left := left - {first};
    }
  }

  ghost function Members(s: seq<(nat, string)>): set<(nat, string)> {
    set y | y in s
  }

  /** In an ascending list, position is rank. */
  lemma PositionIsRank(sorted: seq<(nat, string)>, pool: set<(nat, string)>, i: nat)
    requires Ascending(sorted) && i < |sorted|
    requires forall x :: x in sorted <==> x in pool
    ensures Rank(pool, sorted[i]) == i
  {
    var before := set y | y in pool && Earlier(y, sorted[i]);
    forall y
      ensures y in before <==> y in sorted[..i]
    {
      if y in before {
        var k :| 0 <= k < |sorted| && sorted[k] == y;
        EarlierTotal(sorted[k], sorted[i]);
      }
    }
    DistinctPrefix(sorted[..i]);
    assert before == Members(sorted[..i]);
  }

  lemma {:induction false} DistinctPrefix(sorted: seq<(nat, string)>)
    requires Ascending(sorted)
    ensures |Members(sorted)| == |sorted|
    decreases |sorted|
  {
    if sorted != [] {
      var n := |sorted| - 1;
      var last := sorted[n];
      DistinctPrefix(sorted[..n]);
      assert sorted == sorted[..n] + [last];
      forall k | 0 <= k < n
        ensures sorted[k] != last
      {
        EarlierTotal(sorted[k], last);
      }
      assert Members(sorted) == Members(sorted[..n]) + {last};
    }
  }

  function SaturatingSub(a: nat, b: nat): nat {
    if a < b then 0 else a - b
  }

  /** The ids a retention scan over `finished` removes. */
  ghost function Dropped(finished: seq<(nat, string)>, excess: nat, now: nat, retentionMs: nat): set<string> {
    set i | 0 <= i < |finished| && (i < excess || SaturatingSub(now, finished[i].0) >= retentionMs) :: finished[i].1
  }

  lemma DroppedAreCollectable(runs: Runs, finished: seq<(nat, string)>, pool: set<(nat, string)>, now: nat, limits: StoreLimits)
    requires pool == Finished(runs) && Ascending(finished) && |finished| == |pool|
    requires forall x :: x in finished <==> x in pool
    ensures var dropped := Dropped(finished, SaturatingSub(|finished|, limits.terminalRuns), now, limits.retentionMs);
      forall id :: id in runs ==> (id in dropped <==> Collectable(runs, id, now, limits))
  {
    var excess := SaturatingSub(|finished|, limits.terminalRuns);
    forall id | id in runs
      ensures id in Dropped(finished, excess, now, limits.retentionMs) <==> Collectable(runs, id, now, limits)
    {
      if IsTerminal(runs[id].state) && runs[id].finishedAt.Some? {
        var x := (runs[id].finishedAt.value, id);
        assert x in pool;
        var i :| 0 <= i < |finished| && finished[i] == x;
        PositionIsRank(finished, pool, i);
        forall j | 0 <= j < |finished| && finished[j].1 == id
          ensures j == i
        {
          assert finished[j] in pool;
          EarlierTotal(x, x);
        }
      } else {
        forall j | 0 <= j < |finished|
          ensures finished[j].1 != id
        {
          assert finished[j] in pool;
        }
      }
    }
  }

  lemma DroppedStep(finished: seq<(nat, string)>, index: nat, excess: nat, now: nat, retentionMs: nat)
    requires index < |finished|
    ensures Dropped(finished[..index + 1], excess, now, retentionMs) == Dropped(finished[..index], excess, now, retentionMs)
      + (if index < excess || SaturatingSub(now, finished[index].0) >= retentionMs then {finished[index].1} else {})
  {
    var shorter, longer := finished[..index], finished[..index + 1];
    assert forall i :: 0 <= i < index ==> shorter[i] == longer[i];
    assert longer[index] == finished[index];
  }

  // ---------------------------------------------------------------- ordered key queries

  /** `range(lo..).next()` of an ordered set: its first member at or after `lo`. */
  method FirstFrom(keys: set<string>, lo: string) returns (first: Option<string>)
    ensures first.Some? ==> first.value in keys && AtMost(lo, first.value)
    ensures first.Some? ==> forall y :: y in keys && AtMost(lo, y) ==> AtMost(first.value, y)
    ensures first.None? ==> forall y :: y in keys ==> !AtMost(lo, y)
  {
    first := None;
    var left := keys;
    while left != {}
      invariant left <= keys
      invariant first.Some? ==> first.value in keys && AtMost(lo, first.value)
      invariant first.Some? ==> forall y :: y in keys - left && AtMost(lo, y) ==> AtMost(first.value, y)
      invariant first.None? ==> forall y :: y in keys - left ==> !AtMost(lo, y)
      decreases left
    {
      var y :| y in left;
      if AtMost(lo, y) && (first.None? || Less(y, first.value)) {
        if first.Some? {
          forall z | z in keys - left && AtMost(lo, z)
            ensures AtMost(y, z)
          {
            if first.value != z {
              LessTransitive(y, first.value, z);
            }
          }
        }
        first := Some(y);
      } else if first.Some? {
        LessTotal(y, first.value);
      }
      left := left - {y};
    }
  }

  /** The first key at or after a prefix decides whether any key carries the prefix. */
  lemma FirstDecidesPrefix(keys: set<string>, prefix: string, first: Option<string>)
    requires first.Some? ==> first.value in keys && AtMost(prefix, first.value)
    requires first.Some? ==> forall y :: y in keys && AtMost(prefix, y) ==> AtMost(first.value, y)
    requires first.None? ==> forall y :: y in keys ==> !AtMost(prefix, y)
    ensures (first.Some? && prefix <= first.value) <==> exists y :: y in keys && prefix <= y
  {
    forall y | y in keys && prefix <= y
      ensures first.Some? && prefix <= first.value
    {
      PrefixAtMost(prefix, y);
      PrefixInterval(prefix, first.value, y);
    }
  }

  // ---------------------------------------------------------------- projections computed by loops

  method ComputePending(waits: map<string, WaitRecord>) returns (at: Option<nat>)
    ensures at == PendingWakeup(waits)
  {
    at := None;
    var left := waits.Keys;
    while left != {}
      invariant left <= waits.Keys
      invariant at.Some? ==> exists k :: k in waits.Keys - left && WaitReadyAt(waits[k]) == at
      invariant forall k :: k in waits.Keys - left && WaitReadyAt(waits[k]).Some? ==>
        at.Some? && at.value <= WaitReadyAt(waits[k]).value
      decreases left
    {
      var k :| k in left;
      var ready := WaitReadyAt(waits[k]);
      if ready.Some? && (at.None? || ready.value < at.value) {
        at := ready;
      }
      left := left - {k};
    }
    if at.Some? {
      assert EarliestReady(waits, at.value);
    }
  }

  method ComputeWakeup(run: RunSnapshot) returns (at: Option<nat>)
    ensures at == NextWakeup(run)
  {
    var pending := ComputePending(run.waits);
    if run.state == RunState.Waiting {
      at := Some(if pending.Some? && pending.value < run.deadlineAt then pending.value else run.deadlineAt);
    } else {
      at := pending;
    }
  }

  ghost function WaitSizes(sz: Sizer, waits: map<string, WaitRecord>): map<string, nat> {
    map k | k in waits :: sz.wait(waits[k])
  }

  lemma WaitBytesAdded(sz: Sizer, waits: map<string, WaitRecord>, k: string, w: WaitRecord)
    requires k !in waits
    ensures WaitBytes(sz, waits[k := w]) == WaitBytes(sz, waits) + sz.wait(w)
  {
    hide S.Sum;
    assert WaitBytes(sz, waits) == S.Sum(WaitSizes(sz, waits));
    assert WaitSizes(sz, waits[k := w]) == WaitSizes(sz, waits)[k := sz.wait(w)];
    S.SumUpdate(WaitSizes(sz, waits), k, sz.wait(w));
  }

  method ComputeWaitBytes(sz: Sizer, waits: map<string, WaitRecord>) returns (total: nat)
    ensures total == WaitBytes(sz, waits)
  {
    total := 0;
    var left := waits.Keys;
    ghost var done: map<string, WaitRecord> := map[];
    assert WaitBytes(sz, done) == 0;
    hide WaitBytes;
    while left != {}
      invariant left <= waits.Keys && done.Keys == waits.Keys - left
      invariant forall k :: k in done ==> done[k] == waits[k]
      invariant total == WaitBytes(sz, done)
      decreases left
    {
      var k :| k in left;
      WaitBytesAdded(sz, done, k, waits[k]);
      total := total + sz.wait(waits[k]);
      left := left - {k};
      done := done[k := waits[k]];
    }
    assert done == waits;
  }

  method ComputeResultBytes(sz: Sizer, run: RunSnapshot) returns (total: nat)
    ensures total == ResultBytes(sz, run)
  {
    var waits := ComputeWaitBytes(sz, run.waits);
    total := (if run.output.Some? then sz.value(run.output.value) else 0)
    + (if run.error.Some? then sz.error(run.error.value) else 0)
    + sz.audit(run.audit) + sz.effects(run.unresolvedEffects) + waits;
  }

  method ComputeNodeBytes(sz: Sizer, nodes: map<string, InvocationRecord>) returns (total: nat)
    ensures total == NodeBytes(sz, nodes)
  {
    total := 0;
    var left := nodes.Keys;
    ghost var done: map<string, InvocationRecord> := map[];
    S.SumEmpty(NodeSizes(sz, done));
    hide NodeBytes, RecordBytes;
    while left != {}
      invariant left <= nodes.Keys && done.Keys == nodes.Keys - left
      invariant forall k :: k in done ==> done[k] == nodes[k]
      invariant total == NodeBytes(sz, done)
      decreases left
    {
      var k :| k in left;
      NodeBytesReplaced(sz, done, k, nodes[k]);
      total := total + RecordBytes(sz, nodes[k]);
      left := left - {k};
      done := done[k := nodes[k]];
    }
    assert done == nodes;
  }

  method ComputeRunBytes(sz: Sizer, run: RunSnapshot) returns (total: nat)
    ensures total == RunBytes(sz, run)
  {
    var result := ComputeResultBytes(sz, run);
    var nodes := ComputeNodeBytes(sz, run.invocations);
    total := sz.value(run.input) + ArtifactBytes(sz, run.artifacts) + result + nodes;
  }

  lemma RecordWithin(sz: Sizer, nodes: map<string, InvocationRecord>, node: string)
    ensures node in nodes ==> RecordBytes(sz, nodes[node]) <= NodeBytes(sz, nodes)
  {
    if node in nodes {
      S.SumWithout(NodeSizes(sz, nodes), node);
    }
  }

  /** Everything a record holds is counted: its input and configuration, its output, its error and its frame. */
  lemma RecordIsCounted(sz: Sizer, run: RunSnapshot, key: string)
    requires key in run.invocations
    ensures var r := run.invocations[key];
      sz.value(r.input) + sz.value(r.config) + (if r.output.Some? then sz.value(r.output.value) else 0)
      + (if r.error.Some? then sz.error(r.error.value) else 0) + (if r.control.Some? then sz.frame(r.control.value) else 0)
      <= RunBytes(sz, run)
  {
    hide NodeBytes, WaitBytes, ArtifactBytes;
    RecordWithin(sz, run.invocations, key);
  }

  /** So are the input and output of the run, each of its waits and each of its artifacts. */
  lemma HoldingsAreCounted(sz: Sizer, run: RunSnapshot, id: string, i: nat)
    ensures sz.value(run.input) + (if run.output.Some? then sz.value(run.output.value) else 0)
            + (if run.error.Some? then sz.error(run.error.value) else 0)
            + (if id in run.waits then sz.wait(run.waits[id]) else 0)
            + (if i < |run.artifacts| then sz.artifact(run.artifacts[i]) else 0) <= RunBytes(sz, run)
  {
    hide NodeBytes, WaitBytes, ArtifactBytes;
    if id in run.waits {
      WaitWithin(sz, run.waits, id);
    }
    if i < |run.artifacts| {
      ArtifactWithin(sz, run.artifacts, i);
    }
  }

  lemma WaitWithin(sz: Sizer, waits: map<string, WaitRecord>, id: string)
    requires id in waits
    ensures sz.wait(waits[id]) <= WaitBytes(sz, waits)
  {
    hide S.Sum;
    assert WaitBytes(sz, waits) == S.Sum(WaitSizes(sz, waits));
    S.SumWithout(WaitSizes(sz, waits), id);
  }

  lemma {:induction false} ArtifactWithin(sz: Sizer, artifacts: seq<ArtifactRef>, i: nat)
    requires i < |artifacts|
    ensures sz.artifact(artifacts[i]) <= ArtifactBytes(sz, artifacts)
  {
    if i > 0 {
      ArtifactWithin(sz, artifacts[1..], i - 1);
    }
  }

  method ComputeUnresolved(nodes: map<string, InvocationRecord>) returns (keys: set<string>)
    ensures keys == UnresolvedKeys(nodes)
  {
    keys := set k | k in nodes && nodes[k].IsUnresolved();
  }
}
