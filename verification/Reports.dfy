/**
 The linked chain of batch reports: what the walk accepts, what the accepted chain
 says about the rows, and that every state the batch operation builds is accepted.
 */
module Reports {
  import opened Wrappers

  const MAX_ROWS: nat := 10_000
  const MAX_BATCH: nat := 100

  datatype Status = Succeeded | Failed | Unresolved

  datatype ReportRow = ReportRow(index: Option<nat>, status: Status, payload: string)

  datatype Summary = Summary(rows: nat, succeeded: nat, failed: nat)

  datatype BatchReport = BatchReport(isPartial: bool, start: nat, end: nat, summary: Summary, previous: Option<string>,
                                     rows: seq<ReportRow>)

  datatype Cursor = Cursor(cursor: nat, more: bool, summary: Summary, report: Option<string>)

  datatype SourceRow = SourceRow(index: nat, payload: string)

  datatype Page = Page(cursor: nat, nextCursor: nat, total: nat, rows: seq<SourceRow>)

  datatype RowOutcome =
    | Success(index: nat, outputIndex: Option<nat>, output: string)
    | Failure(index: nat, code: string)

  datatype ReportError = Disagreement | Cyclic | Gap | RowOrder | BadCount | UnresolvedRow | Incomplete | Missing

  /** The published artifacts: content never changes under a reference. */
  type Shelf = map<string, BatchReport>

  function Count(rows: seq<ReportRow>, status: Status): nat {
    if rows == [] then 0 else (if rows[0].status == status then 1 else 0) + Count(rows[1..], status)
  }

  lemma {:induction false} CountConcat(a: seq<ReportRow>, b: seq<ReportRow>, status: Status)
    ensures Count(a + b, status) == Count(a, status) + Count(b, status)
  {
    if a == [] {
      assert a + b == b;
    } else {
      assert (a + b)[1..] == a[1..] + b;
      CountConcat(a[1..], b, status);
    }
  }

  predicate InOrder(rows: seq<ReportRow>, start: nat) {
    forall i :: 0 <= i < |rows| ==> rows[i].index == Some(start + i) && rows[i].status != Unresolved
  }

  /** One report continues a chain that ends at `end` with these counts. */
  predicate Fits(r: BatchReport, end: nat, succeeded: nat, failed: nat) {
    && r.isPartial && r.end == end && r.start <= end
    && |r.rows| <= MAX_BATCH && end - r.start == |r.rows|
    && r.summary == Summary(end, succeeded, failed)
    && (r.rows == [] ==> r.previous == None)
    && InOrder(r.rows, r.start)
    && Count(r.rows, Succeeded) <= succeeded && Count(r.rows, Failed) <= failed
  }

  /** `refs`, newest first, is the whole chain behind `next`. */
  ghost predicate Chained(shelf: Shelf, next: Option<string>, end: nat, succeeded: nat, failed: nat, refs: seq<string>)
    decreases refs
  {
    if refs == [] then next == None && end == 0 && succeeded == 0 && failed == 0
    else
      && next == Some(refs[0]) && refs[0] in shelf
      && var r := shelf[refs[0]];
         && Fits(r, end, succeeded, failed)
         && Chained(shelf, r.previous, r.start, succeeded - Count(r.rows, Succeeded), failed - Count(r.rows, Failed),
                    refs[1..])
  }

  ghost predicate HasChain(shelf: Shelf, next: Option<string>, end: nat, succeeded: nat, failed: nat) {
    exists refs :: Chained(shelf, next, end, succeeded, failed, refs)
  }

  /** The rows of a chain, oldest first. */
  ghost function AllRows(shelf: Shelf, refs: seq<string>): seq<ReportRow>
    requires forall i :: 0 <= i < |refs| ==> refs[i] in shelf
  {
    if refs == [] then [] else AllRows(shelf, refs[1..]) + shelf[refs[0]].rows
  }

  lemma {:induction false} ChainedOnShelf(shelf: Shelf, next: Option<string>, end: nat, succeeded: nat, failed: nat,
                                          refs: seq<string>)
    requires Chained(shelf, next, end, succeeded, failed, refs)
    ensures forall i :: 0 <= i < |refs| ==> refs[i] in shelf
    decreases refs
  {
    if refs != [] {
      var r := shelf[refs[0]];
      ChainedOnShelf(shelf, r.previous, r.start, succeeded - Count(r.rows, Succeeded), failed - Count(r.rows, Failed),
                     refs[1..]);
      assert forall i :: 1 <= i < |refs| ==> refs[i] == refs[1..][i - 1];
    }
  }

  /** An accepted chain covers rows `0..end` exactly once, in order, with the summary's counts. */
  lemma {:induction false} ChainCoversRows(shelf: Shelf, next: Option<string>, end: nat, succeeded: nat, failed: nat,
                                           refs: seq<string>)
    requires Chained(shelf, next, end, succeeded, failed, refs)
    requires forall i :: 0 <= i < |refs| ==> refs[i] in shelf
    ensures |AllRows(shelf, refs)| == end
    ensures InOrder(AllRows(shelf, refs), 0)
    ensures Count(AllRows(shelf, refs), Succeeded) == succeeded
    ensures Count(AllRows(shelf, refs), Failed) == failed
    decreases refs
  {
    if refs != [] {
      var r := shelf[refs[0]];
      var s, f := succeeded - Count(r.rows, Succeeded), failed - Count(r.rows, Failed);
      ChainedOnShelf(shelf, r.previous, r.start, s, f, refs[1..]);
      ChainCoversRows(shelf, r.previous, r.start, s, f, refs[1..]);
      var before := AllRows(shelf, refs[1..]);
      CountConcat(before, r.rows, Succeeded);
      CountConcat(before, r.rows, Failed);
    }
  }

  function Reverse(refs: seq<string>): (reversed: seq<string>)
    ensures |reversed| == |refs|
  {
    if refs == [] then [] else Reverse(refs[1..]) + [refs[0]]
  }

  lemma {:induction false} ReverseAppend(a: seq<string>, x: string)
    ensures Reverse(a + [x]) == [x] + Reverse(a)
  {
    if a == [] {
      assert a + [x] == [x];
    } else {
      assert (a + [x])[1..] == a[1..] + [x];
      ReverseAppend(a[1..], x);
    }
  }

  // ---------------------------------------------------------------- the walk

  /** The per-row loop: indices in order, counts taken off the running totals. */
  method CheckRows(rows: seq<ReportRow>, start: nat, succeeded0: nat, failed0: nat)
    returns (r: Result<(nat, nat), ReportError>)
    ensures r.Ok? <==> InOrder(rows, start) && Count(rows, Succeeded) <= succeeded0 && Count(rows, Failed) <= failed0
    ensures r.Ok? ==> r.value == (succeeded0 - Count(rows, Succeeded), failed0 - Count(rows, Failed))
  {
    var succeeded, failed := succeeded0, failed0;
    var i := 0;
    while i < |rows|
      invariant 0 <= i <= |rows|
      invariant forall j :: 0 <= j < i ==> rows[j].index == Some(start + j) && rows[j].status != Unresolved
      invariant succeeded0 - succeeded + Count(rows[i..], Succeeded) == Count(rows, Succeeded)
      invariant failed0 - failed + Count(rows[i..], Failed) == Count(rows, Failed)
    {
      assert rows[i..][0] == rows[i] && rows[i..][1..] == rows[i + 1..];
      if rows[i].index != Some(start + i) {
        return Err(RowOrder);
      }
      match rows[i].status {
        case Succeeded =>
          if succeeded == 0 { return Err(BadCount); }
          succeeded := succeeded - 1;
        case Failed =>
          if failed == 0 { return Err(BadCount); }
          failed := failed - 1;
        case Unresolved =>
          return Err(UnresolvedRow);
      }
      i := i + 1;
    }
    r := Ok((succeeded, failed));
  }

  /** One step of the walk: read a report and compare it with the running totals. */
  method ReadReport(shelf: Shelf, reference: string, end: nat, succeeded: nat, failed: nat)
    returns (r: Result<(nat, nat), ReportError>)
    ensures r.Ok? <==> reference in shelf && Fits(shelf[reference], end, succeeded, failed)
    ensures r.Ok? ==> r.value == (succeeded - Count(shelf[reference].rows, Succeeded),
                                  failed - Count(shelf[reference].rows, Failed))
  {
    if reference !in shelf {
      return Err(Missing);
    }
    var report := shelf[reference];
    if !report.isPartial || report.end != end || report.start > report.end || |report.rows| > MAX_BATCH
       || report.end - report.start != |report.rows|
       || report.summary.rows != end || report.summary.succeeded != succeeded || report.summary.failed != failed
       || (report.rows == [] && report.previous.Some?) {
      return Err(Gap);
    }
    r := CheckRows(report.rows, report.start, succeeded, failed);
  }

  /** Where the walk stands: the report to read next and what is left to account for. */
  datatype Position = Position(next: Option<string>, end: nat, succeeded: nat, failed: nat)

  ghost predicate ChainedAt(shelf: Shelf, p: Position, refs: seq<string>) {
    Chained(shelf, p.next, p.end, p.succeeded, p.failed, refs)
  }

  /** The chains from the first position are exactly the taken references followed by the chains from here. */
  ghost predicate Corresponds(shelf: Shelf, first: Position, taken: seq<string>, here: Position) {
    && (forall rest :: ChainedAt(shelf, here, rest) ==> ChainedAt(shelf, first, taken + rest))
    && (forall refs :: ChainedAt(shelf, first, refs) ==> taken <= refs && ChainedAt(shelf, here, refs[|taken|..]))
  }

  /** The walk from the newest report back to the first; the result is oldest first. */
  method References(shelf: Shelf, state: Cursor) returns (r: Result<seq<string>, ReportError>)
    requires state.cursor <= MAX_ROWS
    ensures r.Ok? <==> HasChain(shelf, state.report, state.cursor, state.summary.succeeded, state.summary.failed)
    ensures r.Ok? ==> exists refs ::
      && Chained(shelf, state.report, state.cursor, state.summary.succeeded, state.summary.failed, refs)
      && r.value == Reverse(refs)
  {
    var seen: set<string> := {};
    var references: seq<string> := [];
    ghost var first := Position(state.report, state.cursor, state.summary.succeeded, state.summary.failed);
    var here := Position(state.report, state.cursor, state.summary.succeeded, state.summary.failed);
    assert forall rest :: ChainedAt(shelf, here, rest) ==> references + rest == rest;
    while here.next.Some?
      invariant |seen| == |references|
      invariant here.next.Some? ==> forall t :: t in seen ==> t in shelf && shelf[t].end > here.end
      invariant here.next.Some? ==> |references| + here.end <= state.cursor
      invariant Corresponds(shelf, first, references, here)
      decreases here.end, here.next.Some?
    {
      var reference := here.next.value;
      if reference in seen || |seen| + 1 > MAX_ROWS + 1 {
        Rejected(shelf, first, references, here);
        return Err(Cyclic);
      }
      var counted := ReadReport(shelf, reference, here.end, here.succeeded, here.failed);
      if counted.Err? {
        Rejected(shelf, first, references, here);
        return Err(counted.error);
      }
      var report := shelf[reference];
      var there := Position(report.previous, report.start, counted.value.0, counted.value.1);
      ChainStep(shelf, first, references, here, there);
      seen := seen + {reference};
      references := references + [reference];
      here := there;
    }
    if here.end != 0 || here.succeeded != 0 || here.failed != 0 {
      Rejected(shelf, first, references, here);
      return Err(Incomplete);
    }
    assert ChainedAt(shelf, here, []);
    assert references + [] == references;
    r := Ok(Reverse(references));
  }

  /** A position the walk refuses cannot be completed to a chain. */
  lemma Rejected(shelf: Shelf, first: Position, taken: seq<string>, here: Position)
    requires Corresponds(shelf, first, taken, here)
    requires match here.next
             case None => here.end != 0 || here.succeeded != 0 || here.failed != 0
             case Some(ref) => ref !in shelf || !Fits(shelf[ref], here.end, here.succeeded, here.failed)
    ensures !HasChain(shelf, first.next, first.end, first.succeeded, first.failed)
  {
    assert forall rest :: !ChainedAt(shelf, here, rest);
    forall refs
      ensures !Chained(shelf, first.next, first.end, first.succeeded, first.failed, refs)
    {
      assert !ChainedAt(shelf, first, refs);
    }
  }

  /** Taking one fitting report off a chain keeps both directions of the correspondence. */
  lemma ChainStep(shelf: Shelf, first: Position, taken: seq<string>, here: Position, there: Position)
    requires here.next.Some? && here.next.value in shelf
    requires var r := shelf[here.next.value];
      && Fits(r, here.end, here.succeeded, here.failed)
      && there == Position(r.previous, r.start, here.succeeded - Count(r.rows, Succeeded),
                           here.failed - Count(r.rows, Failed))
    requires Corresponds(shelf, first, taken, here)
    ensures Corresponds(shelf, first, taken + [here.next.value], there)
  {
    var reference := here.next.value;
    forall rest | ChainedAt(shelf, there, rest)
      ensures ChainedAt(shelf, first, taken + [reference] + rest)
    {
      var longer := [reference] + rest;
      assert longer[1..] == rest;
      assert ChainedAt(shelf, here, longer);
      assert taken + longer == taken + [reference] + rest;
    }
    forall refs | ChainedAt(shelf, first, refs)
      ensures taken + [reference] <= refs && ChainedAt(shelf, there, refs[|taken + [reference]|..])
    {
      var rest := refs[|taken|..];
      assert ChainedAt(shelf, here, rest);
      assert rest != [] && rest[0] == reference;
      assert refs == taken + rest;
      assert rest[1..] == refs[|taken| + 1..];
    }
  }

  // ---------------------------------------------------------------- building the chain

  predicate PageAgrees(state: Cursor, page: Page, results: seq<RowOutcome>) {
    && |page.rows| <= MAX_BATCH && |results| == |page.rows|
    && page.cursor == state.cursor && state.summary.rows == state.cursor
    && state.summary.succeeded + state.summary.failed == state.summary.rows
    && page.cursor + |page.rows| == page.nextCursor
    && page.nextCursor <= page.total && page.total <= MAX_ROWS
    && state.more && (page.rows == [] ==> page.total == 0)
  }

  predicate RowAgrees(page: Page, results: seq<RowOutcome>, i: nat)
    requires i < |page.rows| == |results|
  {
    && page.rows[i].index == page.cursor + i
    && results[i].index == i
    && match results[i]
       case Success(_, outputIndex, _) => outputIndex == Some(page.rows[i].index)
       case Failure(_, code) => code != "effect.unknown"
  }

  function EntryFor(row: SourceRow, result: RowOutcome): ReportRow {
    match result
    case Success(_, _, output) => ReportRow(Some(row.index), Succeeded, row.payload + output)
    case Failure(_, code) => ReportRow(Some(row.index), Failed, row.payload + code)
  }

  function Entries(rows: seq<SourceRow>, results: seq<RowOutcome>): (entries: seq<ReportRow>)
    requires |rows| == |results|
    ensures |entries| == |rows|
    ensures forall i :: 0 <= i < |rows| ==> entries[i] == EntryFor(rows[i], results[i])
  {
    seq(|rows|, i requires 0 <= i < |rows| => EntryFor(rows[i], results[i]))
  }

  /** The cursor and the shelf after one batch, or nothing when the inputs disagree. */
  function Batch(shelf: Shelf, state: Cursor, page: Page, results: seq<RowOutcome>, reference: string)
    : Option<(Cursor, Shelf)>
  {
    if !PageAgrees(state, page, results) || exists i: nat :: i < |page.rows| && !RowAgrees(page, results, i) then None
    else
      var entries := Entries(page.rows, results);
      var summary := Summary(page.nextCursor, state.summary.succeeded + Count(entries, Succeeded),
                             state.summary.failed + Count(entries, Failed));
      var report := BatchReport(true, page.cursor, page.nextCursor, summary, state.report, entries);
      Some((Cursor(page.nextCursor, page.nextCursor < page.total, summary, Some(reference)), shelf[reference := report]))
  }

  /** The batch operation: the loop over page rows and their results. */
  method ReportBatch(shelf: Shelf, state: Cursor, page: Page, results: seq<RowOutcome>, reference: string)
    returns (r: Option<(Cursor, Shelf)>)
    ensures r == Batch(shelf, state, page, results, reference)
  {
    if !PageAgrees(state, page, results) {
      return None;
    }
    var summary := state.summary;
    var rows: seq<ReportRow> := [];
    var i := 0;
    ghost var all := Entries(page.rows, results);
    while i < |page.rows|
      invariant 0 <= i <= |page.rows| && rows == all[..i]
      invariant forall j: nat :: j < i ==> RowAgrees(page, results, j)
      invariant summary.rows == state.summary.rows
      invariant summary.succeeded + Count(all[i..], Succeeded) == state.summary.succeeded + Count(all, Succeeded)
      invariant summary.failed + Count(all[i..], Failed) == state.summary.failed + Count(all, Failed)
    {
      assert all[i..][0] == all[i] && all[i..][1..] == all[i + 1..];
      if page.rows[i].index != page.cursor + i {
        assert !RowAgrees(page, results, i);
        return None;
      }
      match results[i] {
        case Success(index, outputIndex, output) =>
          if index != i || outputIndex != Some(page.rows[i].index) {
            assert !RowAgrees(page, results, i);
            return None;
          }
          summary := summary.(succeeded := summary.succeeded + 1);
        case Failure(index, code) =>
          if index != i || code == "effect.unknown" {
            assert !RowAgrees(page, results, i);
            return None;
          }
          summary := summary.(failed := summary.failed + 1);
      }
      rows := rows + [EntryFor(page.rows[i], results[i])];
      i := i + 1;
    }
    assert all[i..] == [] && rows == all;
    summary := summary.(rows := page.nextCursor);
    var report := BatchReport(true, page.cursor, page.nextCursor, summary, state.report, rows);
    r := Some((Cursor(page.nextCursor, page.nextCursor < page.total, summary, Some(reference)), shelf[reference := report]));
  }

  const EMPTY: Cursor := Cursor(0, true, Summary(0, 0, 0), None)

  datatype BatchInput = BatchInput(page: Page, results: seq<RowOutcome>, reference: string)

  /** Repeated batches from an empty cursor, each publishing under a new reference. */
  ghost predicate Built(inputs: seq<BatchInput>, state: Cursor, shelf: Shelf)
    decreases inputs
  {
    if inputs == [] then state == EMPTY && shelf == map[]
    else
      var n := |inputs| - 1;
      var last := inputs[n];
      exists state', shelf' ::
        && Built(inputs[..n], state', shelf') && last.reference !in shelf'
        && Batch(shelf', state', last.page, last.results, last.reference) == Some((state, shelf))
  }

  lemma {:induction false} MoreShelf(shelf: Shelf, reference: string, report: BatchReport, next: Option<string>, end: nat,
                                     succeeded: nat, failed: nat, refs: seq<string>)
    requires Chained(shelf, next, end, succeeded, failed, refs) && reference !in shelf
    ensures Chained(shelf[reference := report], next, end, succeeded, failed, refs)
    decreases refs
  {
    if refs != [] {
      var r := shelf[refs[0]];
      MoreShelf(shelf, reference, report, r.previous, r.start, succeeded - Count(r.rows, Succeeded),
                failed - Count(r.rows, Failed), refs[1..]);
    }
  }

  lemma {:induction false} CountsSum(rows: seq<ReportRow>)
    requires forall i :: 0 <= i < |rows| ==> rows[i].status != Unresolved
    ensures Count(rows, Succeeded) + Count(rows, Failed) == |rows|
  {
    if rows != [] {
      CountsSum(rows[1..]);
    }
  }

  /** What a state must satisfy to be published once all its rows are settled. */
  ghost predicate Consistent(state: Cursor, shelf: Shelf) {
    && HasChain(shelf, state.report, state.cursor, state.summary.succeeded, state.summary.failed)
    && state.cursor <= MAX_ROWS && state.summary.rows == state.cursor
    && state.summary.succeeded + state.summary.failed == state.cursor
    && (state.more && state.report.Some? ==> state.cursor > 0)
  }

  lemma BatchFits(shelf: Shelf, state: Cursor, input: BatchInput, state': Cursor, shelf': Shelf)
    requires Batch(shelf, state, input.page, input.results, input.reference) == Some((state', shelf'))
    requires state.more && state.report.Some? ==> state.cursor > 0
    ensures state'.report == Some(input.reference) && input.reference in shelf'
    ensures var r := shelf'[input.reference];
      && shelf' == shelf[input.reference := r]
      && Fits(r, state'.cursor, state'.summary.succeeded, state'.summary.failed)
      && r.start == state.cursor && r.previous == state.report
      && state'.summary.succeeded - Count(r.rows, Succeeded) == state.summary.succeeded
      && state'.summary.failed - Count(r.rows, Failed) == state.summary.failed
    ensures state'.cursor <= MAX_ROWS && state'.summary.rows == state'.cursor
    ensures state'.summary.succeeded + state'.summary.failed == state'.cursor
    ensures state'.more ==> state'.cursor > 0
  {
    var entries := Entries(input.page.rows, input.results);
    forall i | 0 <= i < |entries|
      ensures entries[i].index == Some(state.cursor + i) && entries[i].status != Unresolved
    {
      assert RowAgrees(input.page, input.results, i);
    }
    CountsSum(entries);
  }

  /** One more batch keeps the chain acceptable. */
  lemma BatchKeepsConsistent(shelf: Shelf, state: Cursor, input: BatchInput, state': Cursor, shelf': Shelf)
    requires Consistent(state, shelf) && input.reference !in shelf
    requires Batch(shelf, state, input.page, input.results, input.reference) == Some((state', shelf'))
    ensures Consistent(state', shelf')
  {
    BatchFits(shelf, state, input, state', shelf');
    var refs :| Chained(shelf, state.report, state.cursor, state.summary.succeeded, state.summary.failed, refs);
    MoreShelf(shelf, input.reference, shelf'[input.reference], state.report, state.cursor, state.summary.succeeded,
              state.summary.failed, refs);
    var longer := [input.reference] + refs;
    assert longer[1..] == refs;
    assert Chained(shelf', state'.report, state'.cursor, state'.summary.succeeded, state'.summary.failed, longer);
  }

  /** Every state built from an empty cursor by any number of batches is accepted by the walk. */
  lemma {:induction false} BuiltIsAccepted(inputs: seq<BatchInput>, state: Cursor, shelf: Shelf)
    requires Built(inputs, state, shelf)
    ensures Consistent(state, shelf)
    decreases inputs
  {
    if inputs == [] {
      assert Chained(shelf, None, 0, 0, 0, []);
    } else {
      var n := |inputs| - 1;
      var last := inputs[n];
      var state', shelf' :|
        && Built(inputs[..n], state', shelf') && last.reference !in shelf'
        && Batch(shelf', state', last.page, last.results, last.reference) == Some((state, shelf));
      BuiltIsAccepted(inputs[..n], state', shelf');
      BatchKeepsConsistent(shelf', state', last, state, shelf);
    }
  }

  // ---------------------------------------------------------------- what the chain says of the source

  /** A report row tells of its source row what became of it. */
  predicate Tells(row: SourceRow, result: RowOutcome, entry: ReportRow) {
    && entry.index == Some(row.index)
    && (entry.status == Succeeded <==> result.Success?) && (entry.status == Failed <==> result.Failure?)
    && entry.payload == row.payload + (if result.Success? then result.output else result.code)
  }

  /** The batch is the page at the cursor, one outcome for each of its rows, none of them in doubt. */
  predicate Matches(state: Cursor, page: Page, results: seq<RowOutcome>) {
    && state.more && page.cursor == state.cursor && page.nextCursor == page.cursor + |page.rows| <= page.total
    && |results| == |page.rows| <= MAX_BATCH && page.total <= MAX_ROWS && (page.rows == [] ==> page.total == 0)
    && (forall i :: 0 <= i < |results| ==> RowMatch(state, page, results, i))
  }

  /**
   One batch: accepted exactly when it matches the cursor and the totals add up; then it moves the cursor past its
   rows, goes on exactly while the source has more, and writes one report that links to the one before it.
   */
  lemma BatchMeans(shelf: Shelf, state: Cursor, page: Page, results: seq<RowOutcome>, reference: string)
    ensures Batch(shelf, state, page, results, reference).Some? <==>
      && Matches(state, page, results)
      && state.summary.rows == state.cursor && state.summary.succeeded + state.summary.failed == state.cursor
    ensures Batch(shelf, state, page, results, reference).Some? ==>
      var (after, shelf') := Batch(shelf, state, page, results, reference).value;
      && after.cursor == state.cursor + |page.rows| && (after.more <==> after.cursor < page.total)
      && after.report == Some(reference) && reference in shelf' && shelf' == shelf[reference := shelf'[reference]]
      && shelf'[reference].previous == state.report && shelf'[reference].start == state.cursor
      && |shelf'[reference].rows| == |page.rows|
      && forall i :: 0 <= i < |page.rows| ==> Tells(page.rows[i], results[i], shelf'[reference].rows[i])
  {
    if PageAgrees(state, page, results) {
      if i: nat :| i < |page.rows| && !RowAgrees(page, results, i) {
        RowMatches(state, page, results, i);
      } else {
        forall i: nat | i < |page.rows|
          ensures RowMatch(state, page, results, i)
        {
          RowMatches(state, page, results, i);
        }
      }
    }
  }

  predicate RowMatch(state: Cursor, page: Page, results: seq<RowOutcome>, i: int)
    requires 0 <= i < |results| == |page.rows|
  {
    && page.rows[i].index == state.cursor + i && results[i].index == i
    && (results[i].Success? ==> results[i].outputIndex == Some(state.cursor + i))
    && (results[i].Failure? ==> results[i].code != "effect.unknown")
  }

  lemma RowMatches(state: Cursor, page: Page, results: seq<RowOutcome>, i: nat)
    requires i < |page.rows| == |results| && page.cursor == state.cursor
    ensures RowAgrees(page, results, i) <==> RowMatch(state, page, results, i)
  {
  }

  /** Every source row with its outcome, in the order the batches took them. */
  ghost function Taken(inputs: seq<BatchInput>): seq<(SourceRow, RowOutcome)>
    requires forall i :: 0 <= i < |inputs| ==> |inputs[i].results| == |inputs[i].page.rows|
    decreases |inputs|
  {
    if inputs == [] then []
    else
      var last := inputs[|inputs| - 1];
      Taken(inputs[..|inputs| - 1]) + seq(|last.results|, i requires 0 <= i < |last.results| => (last.page.rows[i], last.results[i]))
  }

  lemma {:induction false} BuiltMatches(inputs: seq<BatchInput>, state: Cursor, shelf: Shelf)
    requires Built(inputs, state, shelf)
    ensures forall i :: 0 <= i < |inputs| ==> |inputs[i].results| == |inputs[i].page.rows|
    decreases |inputs|
  {
    if inputs != [] {
      var n := |inputs| - 1;
      var last := inputs[n];
      var before, left :| Built(inputs[..n], before, left) && last.reference !in left
        && Batch(left, before, last.page, last.results, last.reference) == Some((state, shelf));
      BuiltMatches(inputs[..n], before, left);
      assert forall i :: 0 <= i < n ==> inputs[..n][i] == inputs[i];
    }
  }

  lemma {:induction false} OneChain(shelf: Shelf, next: Option<string>, end: nat, succeeded: nat, failed: nat,
                                    a: seq<string>, b: seq<string>)
    requires Chained(shelf, next, end, succeeded, failed, a) && Chained(shelf, next, end, succeeded, failed, b)
    ensures a == b
    decreases a
  {
    if a != [] {
      var r := shelf[a[0]];
      assert b != [] && b[0] == a[0];
      OneChain(shelf, r.previous, r.start, succeeded - Count(r.rows, Succeeded), failed - Count(r.rows, Failed), a[1..], b[1..]);
    }
  }

  lemma {:induction false} SameRows(shelf: Shelf, longer: Shelf, refs: seq<string>)
    requires forall i :: 0 <= i < |refs| ==> refs[i] in shelf && refs[i] in longer && longer[refs[i]] == shelf[refs[i]]
    ensures AllRows(longer, refs) == AllRows(shelf, refs)
  {
    if refs != [] {
      SameRows(shelf, longer, refs[1..]);
    }
  }

  /** A report of every row, in the order of the source. */
  ghost predicate TellsAll(taken: seq<(SourceRow, RowOutcome)>, rows: seq<ReportRow>) {
    |rows| == |taken| && forall i :: 0 <= i < |taken| ==> Tells(taken[i].0, taken[i].1, rows[i])
  }

  /**
   Conservation: however the rows were cut into batches, the chain behind the cursor tells of every row that was
   taken, once, in order, with its own outcome and nothing else; and the cursor says there is no more exactly when
   the last page reached the end of its source.
   */
  lemma {:induction false} ChainTellsTheSource(inputs: seq<BatchInput>, state: Cursor, shelf: Shelf, refs: seq<string>)
    requires Built(inputs, state, shelf)
    requires Chained(shelf, state.report, state.cursor, state.summary.succeeded, state.summary.failed, refs)
    ensures forall i :: 0 <= i < |refs| ==> refs[i] in shelf
    ensures forall i :: 0 <= i < |inputs| ==> |inputs[i].results| == |inputs[i].page.rows|
    ensures TellsAll(Taken(inputs), AllRows(shelf, refs))
    ensures inputs != [] ==> (!state.more <==> |AllRows(shelf, refs)| == inputs[|inputs| - 1].page.total)
    decreases |inputs|
  {
    BuiltMatches(inputs, state, shelf);
    ChainedOnShelf(shelf, state.report, state.cursor, state.summary.succeeded, state.summary.failed, refs);
    ChainCoversRows(shelf, state.report, state.cursor, state.summary.succeeded, state.summary.failed, refs);
    if inputs != [] {
      var n := |inputs| - 1;
      var last := inputs[n];
      var before, left :| Built(inputs[..n], before, left) && last.reference !in left
        && Batch(left, before, last.page, last.results, last.reference) == Some((state, shelf));
      BuiltIsAccepted(inputs[..n], before, left);
      var rest :| Chained(left, before.report, before.cursor, before.summary.succeeded, before.summary.failed, rest);
      ChainTellsTheSource(inputs[..n], before, left, rest);
      BatchFits(left, before, last, state, shelf);
      NewestTells(left, before, last.reference, state, shelf, refs, rest);
      BatchMeans(left, before, last.page, last.results, last.reference);
      hide Batch, Chained, Built, AllRows, Taken;
      TellsMore(inputs, AllRows(left, rest), shelf[last.reference].rows);
    }
  }

  /** The newest report stands before the chain it was added to. */
  lemma NewestTells(left: Shelf, before: Cursor, reference: string, state: Cursor, shelf: Shelf, refs: seq<string>, rest: seq<string>)
    requires reference !in left && reference in shelf && shelf == left[reference := shelf[reference]]
    requires state.report == Some(reference)
    requires var r := shelf[reference];
      && r.previous == before.report && r.start == before.cursor
      && state.summary.succeeded - Count(r.rows, Succeeded) == before.summary.succeeded
      && state.summary.failed - Count(r.rows, Failed) == before.summary.failed
    requires Chained(left, before.report, before.cursor, before.summary.succeeded, before.summary.failed, rest)
    requires Chained(shelf, state.report, state.cursor, state.summary.succeeded, state.summary.failed, refs)
    ensures forall i :: 0 <= i < |rest| ==> rest[i] in left
    ensures forall i :: 0 <= i < |refs| ==> refs[i] in shelf
    ensures AllRows(shelf, refs) == AllRows(left, rest) + shelf[reference].rows
  {
    hide Fits, Count, Chained, AllRows;
    var r := shelf[reference];
    ChainHead(shelf, state.report, state.cursor, state.summary.succeeded, state.summary.failed, refs);
    MoreShelf(left, reference, r, before.report, before.cursor, before.summary.succeeded, before.summary.failed, rest);
    ChainedOnShelf(left, before.report, before.cursor, before.summary.succeeded, before.summary.failed, rest);
    ChainedOnShelf(shelf, state.report, state.cursor, state.summary.succeeded, state.summary.failed, refs);
    OneChain(shelf, before.report, before.cursor, before.summary.succeeded, before.summary.failed, refs[1..], rest);
    SameRows(left, shelf, rest);
    RowsOfHead(shelf, refs);
  }

  lemma ChainHead(shelf: Shelf, next: Option<string>, end: nat, succeeded: nat, failed: nat, refs: seq<string>)
    requires Chained(shelf, next, end, succeeded, failed, refs) && next.Some?
    ensures refs != [] && refs[0] == next.value && refs[0] in shelf
    ensures var r := shelf[refs[0]];
      Chained(shelf, r.previous, r.start, succeeded - Count(r.rows, Succeeded), failed - Count(r.rows, Failed), refs[1..])
  {
    hide Fits;
  }

  lemma RowsOfHead(shelf: Shelf, refs: seq<string>)
    requires refs != [] && forall i :: 0 <= i < |refs| ==> refs[i] in shelf
    ensures AllRows(shelf, refs) == AllRows(shelf, refs[1..]) + shelf[refs[0]].rows
  {
  }

  lemma TellsMore(inputs: seq<BatchInput>, older: seq<ReportRow>, newer: seq<ReportRow>)
    requires inputs != [] && forall i :: 0 <= i < |inputs| ==> |inputs[i].results| == |inputs[i].page.rows|
    requires TellsAll(Taken(inputs[..|inputs| - 1]), older)
    requires var last := inputs[|inputs| - 1];
      |newer| == |last.page.rows| && forall i :: 0 <= i < |newer| ==> Tells(last.page.rows[i], last.results[i], newer[i])
    ensures TellsAll(Taken(inputs), older + newer)
  {
    hide Tells;
  }

  // ---------------------------------------------------------------- publication

  /** These are the rows of the chain behind the cursor. */
  ghost predicate WholeChain(shelf: Shelf, state: Cursor, rows: seq<ReportRow>) {
    exists refs ::
      && Chained(shelf, state.report, state.cursor, state.summary.succeeded, state.summary.failed, refs)
      && (forall i :: 0 <= i < |refs| ==> refs[i] in shelf) && rows == AllRows(shelf, refs)
  }

  /** Built by batches and published, a report tells of the whole source: nothing is missing, doubled or out of place. */
  lemma PublishedTellsTheSource(inputs: seq<BatchInput>, state: Cursor, shelf: Shelf, rows: seq<ReportRow>)
    requires Built(inputs, state, shelf) && WholeChain(shelf, state, rows) && !state.more
    ensures forall i :: 0 <= i < |inputs| ==> |inputs[i].results| == |inputs[i].page.rows|
    ensures TellsAll(Taken(inputs), rows) && inputs != [] && |rows| == inputs[|inputs| - 1].page.total
  {
    hide Built, Chained, AllRows;
    var refs :| Chained(shelf, state.report, state.cursor, state.summary.succeeded, state.summary.failed, refs)
      && (forall i :: 0 <= i < |refs| ==> refs[i] in shelf) && rows == AllRows(shelf, refs);
    ChainTellsTheSource(inputs, state, shelf, refs);
    EmptyHasMore(inputs, state, shelf);
  }

  lemma EmptyHasMore(inputs: seq<BatchInput>, state: Cursor, shelf: Shelf)
    requires Built(inputs, state, shelf) && !state.more
    ensures inputs != []
  {
  }

  /** The final report: every row of the run, once, in source order. */
  method PublishReport(shelf: Shelf, state: Cursor) returns (r: Result<seq<ReportRow>, ReportError>)
    ensures r.Ok? <==>
      && !state.more && state.cursor == state.summary.rows && state.cursor <= MAX_ROWS
      && state.summary.succeeded + state.summary.failed == state.cursor
      && HasChain(shelf, state.report, state.cursor, state.summary.succeeded, state.summary.failed)
    ensures r.Ok? ==>
      && |r.value| == state.cursor && InOrder(r.value, 0)
      && Count(r.value, Succeeded) == state.summary.succeeded && Count(r.value, Failed) == state.summary.failed
      && WholeChain(shelf, state, r.value)
  {
    if state.more || state.cursor != state.summary.rows || state.cursor > MAX_ROWS
       || state.summary.succeeded + state.summary.failed != state.cursor {
      return Err(Disagreement);
    }
    var walked := References(shelf, state);
    if walked.Err? {
      return Err(walked.error);
    }
    var references := walked.value;
    ghost var refs :|
      && Chained(shelf, state.report, state.cursor, state.summary.succeeded, state.summary.failed, refs)
      && references == Reverse(refs);
    ChainedOnShelf(shelf, state.report, state.cursor, state.summary.succeeded, state.summary.failed, refs);
    ChainCoversRows(shelf, state.report, state.cursor, state.summary.succeeded, state.summary.failed, refs);
    var rows := CollectRows(shelf, references, refs);
    r := Ok(rows);
  }

  /** The rows of the reports, oldest report first. */
  method CollectRows(shelf: Shelf, references: seq<string>, ghost refs: seq<string>) returns (rows: seq<ReportRow>)
    requires forall k :: 0 <= k < |refs| ==> refs[k] in shelf
    requires references == Reverse(refs)
    ensures rows == AllRows(shelf, refs)
  {
    rows := [];
    ghost var left := refs;
    var i := 0;
    assert references[0..] == Reverse(left);
    while i < |references|
      invariant 0 <= i <= |references|
      invariant forall k :: 0 <= k < |left| ==> left[k] in shelf
      invariant references[i..] == Reverse(left)
      invariant RowsFrom(shelf, rows, left) == AllRows(shelf, refs)
    {
      ghost var k := |left| - 1;
      assert left != [];
      assert left == left[..k] + [left[k]];
      ReverseAppend(left[..k], left[k]);
      assert references[i] == references[i..][0] == left[k];
      assert references[i + 1..] == references[i..][1..] == Reverse(left[..k]);
      RowsFromStep(shelf, rows, left);
      rows := rows + shelf[references[i]].rows;
      left := left[..k];
      i := i + 1;
    }
    assert left == [];
    assert rows + [] == rows;
  }

  /** The rows written so far followed by those of the reports still to come (newest first). */
  ghost function RowsFrom(shelf: Shelf, rows: seq<ReportRow>, left: seq<string>): seq<ReportRow>
    requires forall k :: 0 <= k < |left| ==> left[k] in shelf
  {
    rows + AllRows(shelf, left)
  }

  lemma {:induction false} AllRowsOldest(shelf: Shelf, refs: seq<string>)
    requires forall k :: 0 <= k < |refs| ==> refs[k] in shelf
    requires refs != []
    ensures AllRows(shelf, refs) == shelf[refs[|refs| - 1]].rows + AllRows(shelf, refs[..|refs| - 1])
    decreases refs
  {
    if |refs| > 1 {
      AllRowsOldest(shelf, refs[1..]);
      assert refs[1..][..|refs| - 2] == refs[..|refs| - 1][1..];
    }
  }

  lemma RowsFromStep(shelf: Shelf, rows: seq<ReportRow>, left: seq<string>)
    requires forall k :: 0 <= k < |left| ==> left[k] in shelf
    requires left != []
    ensures RowsFrom(shelf, rows, left) == RowsFrom(shelf, rows + shelf[left[|left| - 1]].rows, left[..|left| - 1])
  {
    AllRowsOldest(shelf, left);
  }
}
