/**
 Signal delivery: the screening of a command and the compare-and-swap loop that records it,
 with every other writer of the run at work between the read and the commit.
 */
module Signals {
  import opened Wrappers
  import opened Text
  import opened Json
  import opened Protocol
  import opened Checkpoint
  import opened WaitHistory
  import opened RunEdits

  datatype Refusal =
    | Invalid | OverLimit | AccessDenied | Unsupported | NotFound | WaitNotFound | Conflict | WaitExpired | Unavailable
    | CommitRefused

  // ---------------------------------------------------------------- artifact order

  predicate InOrder(artifacts: seq<ArtifactRef>) {
    forall i, j :: 0 <= i < j < |artifacts| ==> AtMost(artifacts[i].id, artifacts[j].id)
  }

  lemma AtMostTransitive(a: string, b: string, c: string)
    requires AtMost(a, b) && AtMost(b, c)
    ensures AtMost(a, c)
  {
    if Less(a, b) && Less(b, c) {
      LessTransitive(a, b, c);
    }
  }

  /** A stable insertion: before the first later identifier. */
  method Inserted(sorted: seq<ArtifactRef>, a: ArtifactRef) returns (r: seq<ArtifactRef>)
    requires InOrder(sorted)
    ensures InOrder(r) && multiset(r) == multiset(sorted) + multiset{a}
  {
    hide InOrder, Less;
    var i := |sorted|;
    while i > 0 && Less(a.id, sorted[i - 1].id)
      invariant 0 <= i <= |sorted| && (i < |sorted| ==> Less(a.id, sorted[i].id))
    {
      i := i - 1;
    }
    InsertedInOrder(sorted, a, i);
    assert sorted == sorted[..i] + sorted[i..];
    r := sorted[..i] + [a] + sorted[i..];
  }

  lemma InsertedInOrder(sorted: seq<ArtifactRef>, a: ArtifactRef, i: nat)
    requires InOrder(sorted) && i <= |sorted|
    requires i < |sorted| ==> Less(a.id, sorted[i].id)
    requires i > 0 ==> !Less(a.id, sorted[i - 1].id)
    ensures InOrder(sorted[..i] + [a] + sorted[i..])
  {
    hide Less;
    forall j | 0 <= j < i
      ensures AtMost(sorted[j].id, a.id)
    {
      LessTotal(a.id, sorted[i - 1].id);
      AtMostTransitive(sorted[j].id, sorted[i - 1].id, a.id);
    }
    forall j | i <= j < |sorted|
      ensures AtMost(a.id, sorted[j].id)
    {
      if j > i {
        AtMostTransitive(a.id, sorted[i].id, sorted[j].id);
      }
    }
    hide AtMost;
  }

  lemma SameMembers(a: seq<ArtifactRef>, b: seq<ArtifactRef>)
    requires multiset(a) == multiset(b)
    ensures |a| == |b| && forall x :: x in a <==> x in b
  {
    assert |a| == |multiset(a)| && |b| == |multiset(b)|;
    forall x
      ensures x in a <==> x in b
    {
      assert x in a <==> x in multiset(a);
      assert x in b <==> x in multiset(b);
    }
  }

  method SortById(artifacts: seq<ArtifactRef>) returns (sorted: seq<ArtifactRef>)
    ensures InOrder(sorted) && multiset(sorted) == multiset(artifacts)
  {
    sorted := [];
    for i := 0 to |artifacts|
      invariant InOrder(sorted) && multiset(sorted) == multiset(artifacts[..i])
    {
      assert artifacts[..i + 1] == artifacts[..i] + [artifacts[i]];
      sorted := Inserted(sorted, artifacts[i]);
    }
    assert artifacts[..|artifacts|] == artifacts;
  }

  lemma {:induction false} FirstIsLeast(s: seq<ArtifactRef>, i: nat)
    requires SortedArtifacts(s) && 0 < i < |s|
    ensures Less(s[0].id, s[i].id)
  {
    if i > 1 {
      FirstIsLeast(s, i - 1);
      LessTransitive(s[0].id, s[i - 1].id, s[i].id);
    }
  }

  lemma SortedTail(s: seq<ArtifactRef>)
    requires SortedArtifacts(s) && s != []
    ensures SortedArtifacts(s[1..]) && multiset(s) == multiset{s[0]} + multiset(s[1..])
  {
    assert s == [s[0]] + s[1..];
  }

  lemma HeadsAgree(s: seq<ArtifactRef>, t: seq<ArtifactRef>)
    requires SortedArtifacts(s) && SortedArtifacts(t) && multiset(s) == multiset(t) && s != [] && t != []
    ensures s[0] == t[0]
  {
    assert s[0] in multiset(t) && t[0] in multiset(s);
    var i :| 0 <= i < |t| && t[i] == s[0];
    var j :| 0 <= j < |s| && s[j] == t[0];
    if i > 0 && j > 0 {
      FirstIsLeast(t, i);
      FirstIsLeast(s, j);
      LessTotal(s[0].id, t[0].id);
    }
  }

  lemma SameRest(a: multiset<ArtifactRef>, b: multiset<ArtifactRef>, x: ArtifactRef)
    requires multiset{x} + a == multiset{x} + b
    ensures a == b
  {
    assert a == multiset{x} + a - multiset{x};
    assert b == multiset{x} + b - multiset{x};
  }

  /** Strictly sorted lists of the same artifacts are the same list. */
  lemma {:induction false} OneOrder(s: seq<ArtifactRef>, t: seq<ArtifactRef>)
    requires SortedArtifacts(s) && SortedArtifacts(t) && multiset(s) == multiset(t)
    ensures s == t
  {
    hide SortedArtifacts, Less;
    if s == [] || t == [] {
      assert |multiset(s)| == |s| && |multiset(t)| == |t|;
    } else {
      HeadsAgree(s, t);
      SortedTail(s);
      SortedTail(t);
      SameRest(multiset(s[1..]), multiset(t[1..]), s[0]);
      OneOrder(s[1..], t[1..]);
      assert s == [s[0]] + s[1..] && t == [t[0]] + t[1..];
    }
  }

  // ---------------------------------------------------------------- what a delivery means

  /** The same command, in whatever order its artifacts are listed. */
  predicate SameCommand(a: SignalCommand, b: SignalCommand) {
    a.(artifacts := []) == b.(artifacts := []) && multiset(a.artifacts) == multiset(b.artifacts)
  }

  predicate Delivered(run: RunSnapshot, id: string) {
    id in run.waits && run.waits[id].delivery.Some?
  }

  /** The run holds this actor's command. */
  predicate Recorded(run: RunSnapshot, command: SignalCommand, actor: string) {
    && Delivered(run, command.waitId)
    && SameCommand(run.waits[command.waitId].delivery.value.command, command)
    && run.waits[command.waitId].delivery.value.actor == actor
  }

  /** The run holds it, acknowledged by this receipt. */
  predicate Holds(run: RunSnapshot, command: SignalCommand, actor: string, receipt: SignalReceipt) {
    Recorded(run, command, actor) && run.waits[command.waitId].delivery.value.receipt == receipt.(duplicate := false)
  }

  /** Two acknowledged deliveries to one wait, at any two moments of its run, are one and the same. */
  lemma OneSignalPerWait(a: RunSnapshot, b: RunSnapshot, c: SignalCommand, x: string, r: SignalReceipt,
                         d: SignalCommand, y: string, q: SignalReceipt)
    requires Preserved(a, b) && Holds(a, c, x, r) && Holds(b, d, y, q) && c.waitId == d.waitId
    ensures SameCommand(c, d) && x == y && r.(duplicate := false) == q.(duplicate := false)
  {
    assert WaitContinues(a.waits[c.waitId], b.waits[c.waitId]);
  }

  /** Reservations were made in the past: the clock is monotone. */
  predicate ClockPast(run: RunSnapshot, now: nat) {
    forall id :: id in run.waits ==> run.waits[id].createdAt <= now
  }

  lemma LaterDelivered(a: RunSnapshot, b: RunSnapshot, id: string)
    requires Later(a, b) && Delivered(a, id)
    ensures Delivered(b, id) && b.waits[id].delivery == a.waits[id].delivery
  {
    assert WaitContinues(a.waits[id], b.waits[id]);
  }

  /** What is not delivered now was never delivered. */
  lemma NotYet(a: RunSnapshot, b: RunSnapshot, command: SignalCommand, actor: string)
    requires Later(a, b) && !Delivered(b, command.waitId)
    ensures !Delivered(a, command.waitId) && !Recorded(a, command, actor)
  {
    if Delivered(a, command.waitId) {
      LaterDelivered(a, b, command.waitId);
    }
  }

  lemma StillRecorded(a: RunSnapshot, b: RunSnapshot, command: SignalCommand, actor: string)
    requires Later(a, b) && Recorded(a, command, actor)
    ensures Recorded(b, command, actor)
  {
    LaterDelivered(a, b, command.waitId);
  }

  /** A proposal accepted where it was read is refused only where the revision moved. */
  lemma Moved(read: RunSnapshot, run: RunSnapshot, next: RunSnapshot)
    requires Later(read, run) && ValidSuccessor(read, read.revision, next) && !ValidSuccessor(run, read.revision, next)
    ensures read.revision < run.revision
  {
    hide ValidSuccessor, Preserved;
  }

  lemma SuccessorAt(run: RunSnapshot, expected: nat, next: RunSnapshot)
    requires ValidSuccessor(run, expected, next)
    ensures run.revision == expected
  {
  }

  lemma StillPast(read: RunSnapshot, id: string, d: SignalDelivery, at: nat, now: nat)
    requires ClockPast(read, at) && at <= now && id in read.waits
    ensures ClockPast(Proposed(Deliver(read, id, d)), now)
  {
  }

  lemma OnlySignalsHold(run: RunSnapshot, id: string)
    requires WaitsConsistent(run) && Delivered(run, id)
    ensures run.waits[id].kind.Signal? && DeliveryFits(run, run.waits[id], run.waits[id].delivery.value)
  {
    assert WaitKindFits(run, run.waits[id]);
  }

  /** Held and equal to the letter once both are sorted. */
  lemma SameWhenSorted(held: SignalCommand, command: SignalCommand)
    requires SortedArtifacts(held.artifacts) && SortedArtifacts(command.artifacts)
    ensures SameCommand(held, command) <==> held == command
  {
    if SameCommand(held, command) {
      OneOrder(held.artifacts, command.artifacts);
      assert held == held.(artifacts := []).(artifacts := held.artifacts);
    }
  }

  /** The delivery the loop proposes. */
  function Proposal(command: SignalCommand, actor: string, now: nat, durable: bool): SignalDelivery {
    SignalDelivery(command, actor, SignalReceipt(command.runId, command.waitId, command.messageId, now, durable, false))
  }

  /** What screening leaves of a command. */
  predicate Screened(command: SignalCommand, scope: string) {
    && 1 <= Bytes(command.waitId) <= 256 && 1 <= Bytes(command.messageId) <= 256 && 1 <= Bytes(command.correlation) <= 256
    && |command.artifacts| <= 1000 && SortedArtifacts(command.artifacts)
    && (forall i :: 0 <= i < |command.artifacts| ==> command.artifacts[i].scope == scope)
  }

  lemma ProposalFits(run: RunSnapshot, command: SignalCommand, actor: string, now: nat, durable: bool)
    requires WaitsConsistent(run) && ClockPast(run, now) && Screened(command, run.scope) && command.runId == run.id
    requires command.waitId in run.waits && run.waits[command.waitId].kind.Signal?
    requires run.waits[command.waitId].delivery == None
    requires run.waits[command.waitId].kind.correlation == command.correlation
    requires run.waits[command.waitId].state != Expired && run.waits[command.waitId].state != Closed
    requires now < run.waits[command.waitId].deadlineAt
    ensures run.waits[command.waitId].state == Open
    ensures DeliveryFits(run, run.waits[command.waitId], Proposal(command, actor, now, durable))
  {
    assert WaitShape(run, command.waitId) && WaitKindFits(run, run.waits[command.waitId]);
    hide WaitsConsistent, Bytes, SortedArtifacts;
    EmptyHasNoBytes();
  }

  lemma PastLater(run: RunSnapshot, since: nat, now: nat)
    requires ClockPast(run, since) && since <= now
    ensures ClockPast(run, now)
  {
  }

  /** What the examination leaves to propose is a successor of the snapshot it examined. */
  lemma ProposalAccepted(run: RunSnapshot, command: SignalCommand, actor: string, now: nat, durable: bool)
    requires WaitsConsistent(run) && ClockPast(run, now) && Screened(command, run.scope) && command.runId == run.id
    requires command.waitId in run.waits && run.waits[command.waitId].kind.Signal?
    requires run.waits[command.waitId].delivery == None
    requires run.waits[command.waitId].kind.correlation == command.correlation
    requires run.waits[command.waitId].state != Expired && run.waits[command.waitId].state != Closed
    requires now < run.waits[command.waitId].deadlineAt && !IsTerminal(run.state) && run.revision < MAX_REVISION
    ensures var next := Proposed(Deliver(run, command.waitId, Proposal(command, actor, now, durable)));
      ValidSuccessor(run, run.revision, next)
  {
    ProposalFits(run, command, actor, now, durable);
    hide WaitsConsistent, DeliveryFits, ClockPast, Screened, ValidSuccessor, Proposal;
    DeliverAccepted(run, command.waitId, Proposal(command, actor, now, durable));
  }

  lemma StillHolds(a: RunSnapshot, b: RunSnapshot, command: SignalCommand, actor: string, receipt: SignalReceipt)
    requires Later(a, b) && Holds(a, command, actor, receipt)
    ensures Holds(b, command, actor, receipt)
  {
    LaterDelivered(a, b, command.waitId);
  }

  lemma EmptyHasNoBytes()
    ensures Bytes("") == 0
  {
  }

  lemma ProposalHolds(run: RunSnapshot, command: SignalCommand, actor: string, now: nat, durable: bool)
    requires command.waitId in run.waits
    ensures var d := Proposal(command, actor, now, durable);
      Holds(Proposed(Deliver(run, command.waitId, d)), command, actor, d.receipt)
  {
  }

  /** The wait asks for this correlation, and its schema accepts the payload. */
  predicate Welcome(run: RunSnapshot, command: SignalCommand, accepts: (Value, Value) -> bool) {
    && command.waitId in run.waits && run.waits[command.waitId].kind.Signal?
    && run.waits[command.waitId].kind.correlation == command.correlation
    && accepts(run.waits[command.waitId].kind.payloadSchema, command.payload)
  }

  /** The receipt names the command and the moment it was accepted. */
  predicate Stamped(receipt: SignalReceipt, command: SignalCommand, since: nat, now: nat, durable: bool) {
    && receipt.runId == command.runId && receipt.waitId == command.waitId && receipt.messageId == command.messageId
    && since <= receipt.acceptedAt <= now && receipt.durable == durable && !receipt.duplicate
  }

  lemma ProposalWelcome(run: RunSnapshot, command: SignalCommand, actor: string, now: nat, durable: bool,
                        accepts: (Value, Value) -> bool)
    requires Welcome(run, command, accepts)
    ensures Welcome(Proposed(Deliver(run, command.waitId, Proposal(command, actor, now, durable))), command, accepts)
  {
  }

  lemma ProposalStamped(command: SignalCommand, actor: string, at: nat, durable: bool, since: nat, now: nat)
    requires since <= at <= now
    ensures Stamped(Proposal(command, actor, at, durable).receipt, command, since, now, durable)
  {
  }

  class SignalPort {
    const scope: string
    const durable: bool
    const coordinated: bool
    const valueBytes: nat
    const payloadFits: Value -> bool
    const listBytes: seq<ArtifactRef> -> nat
    const accepts: (Value, Value) -> bool
    var run: RunSnapshot
    var held: bool
    var now: nat
    ghost var commits: nat

    ghost predicate Valid()
      reads this
    {
      WaitsConsistent(run) && ClockPast(run, now) && run.revision <= MAX_REVISION
    }

    constructor (run: RunSnapshot, now: nat, scope: string, durable: bool, coordinated: bool, valueBytes: nat,
                 payloadFits: Value -> bool, listBytes: seq<ArtifactRef> -> nat, accepts: (Value, Value) -> bool)
      requires WaitsConsistent(run) && ClockPast(run, now) && run.revision <= MAX_REVISION
      ensures Valid() && this.run == run && this.now == now && this.scope == scope && held && commits == 0
    {
      this.run, this.now, this.held, this.commits := run, now, true, 0;
      this.scope, this.durable, this.coordinated, this.valueBytes := scope, durable, coordinated, valueBytes;
      this.payloadFits, this.listBytes, this.accepts := payloadFits, listBytes, accepts;
    }

    /** What may pass between two steps of the loop: time, other commits, retention of a finished run. */
    method Interfere()
      requires Valid()
      modifies this`run, this`held, this`now
      ensures Valid() && Later(old(run), run) && old(now) <= now && (held ==> old(held))
    {
      LaterSelf(run);
      hide WaitsConsistent, Later, ValidSuccessor;
      var moments :| moments >= 0;
      for i := 0 to moments
        invariant Valid() && Later(old(run), run) && old(now) <= now && (held ==> old(held))
      {
        if * {
          var elapsed :| elapsed >= 0;
          now := now + elapsed;
        } else if * {
          if IsTerminal(run.state) { held := false; }
        } else {
          var next: RunSnapshot := *;
          if ValidSuccessor(run, run.revision, next) && ClockPast(next, now) {
            SuccessorLater(run, next);
            LaterTransitive(old(run), run, next);
            run := next;
          }
        }
      }
    }

    /** The checks that need no run, and the order the artifacts are kept in. */
    method Screen(command: SignalCommand, permitted: bool) returns (r: Result<SignalCommand, Refusal>)
      ensures r.Ok? ==> Screened(r.value, scope) && SameCommand(r.value, command) && r.value.runId == command.runId
      ensures r.Ok? ==>
        && 1 <= Bytes(command.waitId) <= 256 && 1 <= Bytes(command.messageId) <= 256 && 1 <= Bytes(command.correlation) <= 256
        && payloadFits(command.payload) && |command.artifacts| <= 1000 && listBytes(r.value.artifacts) <= valueBytes
        && (command.artifacts != [] ==> permitted && (durable ==> coordinated))
        && (forall a :: a in command.artifacts ==> a.scope == scope)
      ensures r.Err? ==> r.error in {Invalid, OverLimit, AccessDenied, Unsupported}
    {
      hide Bytes;
      if !(1 <= Bytes(command.waitId) <= 256 && 1 <= Bytes(command.messageId) <= 256 && 1 <= Bytes(command.correlation) <= 256) {
        return Err(Invalid);
      }
      if !payloadFits(command.payload) {
        return Err(OverLimit);
      }
      var artifacts := SortById(command.artifacts);
      SameMembers(artifacts, command.artifacts);
      if |artifacts| > 1000 || (exists i :: 0 < i < |artifacts| && artifacts[i - 1].id == artifacts[i].id) || listBytes(artifacts) > valueBytes {
        return Err(OverLimit);
      }
      if artifacts != [] {
        if !permitted || (exists i :: 0 <= i < |artifacts| && artifacts[i].scope != scope) {
          return Err(AccessDenied);
        }
        if durable && !coordinated {
          return Err(Unsupported);
        }
      }
      return Ok(command.(artifacts := artifacts));
    }

    /** The final commit of one round; an acknowledgement may be lost. */
    method Submit(expected: nat, next: RunSnapshot) returns (r: Result<(), Refusal>)
      requires Valid() && ClockPast(next, now)
      modifies this`run, this`commits
      ensures Valid() && Later(old(run), run)
      ensures r.Ok? ==> run == next && commits == old(commits) + 1
      ensures r.Err? && r.error != Unavailable ==> run == old(run) && commits == old(commits)
      ensures r == Err(Conflict) ==> held && !ValidSuccessor(run, expected, next)
      ensures r.Err? ==> r.error in {NotFound, Conflict, Unavailable}
    {
      LaterSelf(run);
      hide WaitsConsistent, Later, ValidSuccessor, ClockPast;
      if * {
        return Err(Unavailable);
      }
      if !held {
        return Err(NotFound);
      }
      if !ValidSuccessor(run, expected, next) {
        return Err(Conflict);
      }
      SuccessorAt(run, expected, next);
      SuccessorLater(run, next);
      run, commits := next, commits + 1;
      if * {
        return Err(Unavailable);
      }
      return Ok(());
    }

    /** The answers a snapshot gives by itself; none means the delivery may be proposed. */
    method Examine(read: RunSnapshot, at: nat, command: SignalCommand, actor: string) returns (answer: Option<Result<SignalReceipt, Refusal>>)
      requires WaitsConsistent(read) && Screened(command, scope)
      ensures answer.None? ==> !Delivered(read, command.waitId) && Welcome(read, command, accepts)
      ensures answer == Some(Err(WaitNotFound)) <==> !(command.waitId in read.waits && read.waits[command.waitId].kind.Signal?)
      ensures command.waitId in read.waits && read.waits[command.waitId].kind.Signal? ==>
        var w := read.waits[command.waitId];
        var over := IsTerminal(read.state) || read.cancelRequested || w.state == Closed;
        && (answer.None? <==> w.delivery == None && w.kind.correlation == command.correlation && w.state != Expired && !over
                              && accepts(w.kind.payloadSchema, command.payload) && at < w.deadlineAt)
        && (w.delivery == None ==>
              && (answer == Some(Err(Invalid)) <==>
                    || w.kind.correlation != command.correlation
                    || (w.state != Expired && !over && !accepts(w.kind.payloadSchema, command.payload)))
              && (answer == Some(Err(WaitExpired)) <==>
                    && w.kind.correlation == command.correlation
                    && (w.state == Expired || (!over && accepts(w.kind.payloadSchema, command.payload) && at >= w.deadlineAt)))
              && (answer == Some(Err(Conflict)) <==> w.kind.correlation == command.correlation && w.state != Expired && over))
        && (w.delivery.Some? ==> answer.Some? && (answer.value.Ok? <==> Recorded(read, command, actor)))
      ensures answer.Some? && answer.value.Ok? ==> answer.value.value.duplicate && Holds(read, command, actor, answer.value.value)
      ensures Recorded(read, command, actor) ==> answer.Some? && answer.value.Ok?
      ensures answer.Some? && answer.value.Err? ==> answer.value.error in {WaitNotFound, Conflict, Invalid, WaitExpired}
      ensures answer.Some? && Delivered(read, command.waitId) && !Recorded(read, command, actor) && read.waits[command.waitId].kind.Signal? ==>
        answer.value == Err(Conflict)
    {
      var id := command.waitId;
      if Delivered(read, id) {
        OnlySignalsHold(read, id);
        SameWhenSorted(read.waits[id].delivery.value.command, command);
      }
      hide WaitsConsistent, SameCommand, SortedArtifacts, Bytes;
      if id !in read.waits || !read.waits[id].kind.Signal? {
        return Some(Err(WaitNotFound));
      }
      var wait := read.waits[id];
      if wait.delivery.Some? {
        if wait.delivery.value.command != command || wait.delivery.value.actor != actor {
          return Some(Err(Conflict));
        }
        return Some(Ok(wait.delivery.value.receipt.(duplicate := true)));
      }
      if wait.kind.correlation != command.correlation {
        return Some(Err(Invalid));
      }
      if wait.state == Expired {
        return Some(Err(WaitExpired));
      }
      if IsTerminal(read.state) || read.cancelRequested || wait.state == Closed {
        return Some(Err(Conflict));
      }
      if !accepts(wait.kind.payloadSchema, command.payload) {
        return Some(Err(Invalid));
      }
      if at >= wait.deadlineAt {
        return Some(Err(WaitExpired));
      }
      return None;
    }

    /**
     The delivery loop. It ends, because every lost race moved the revision. A receipt means
     the run holds exactly this command of this actor; a fresh receipt means this call
     committed it; a conflict is never the store's verdict on the loop's own proposal.
     */
    method DeliverSignal(command: SignalCommand, actor: string) returns (r: Result<SignalReceipt, Refusal>)
      requires Valid() && Screened(command, scope)
      modifies this`run, this`held, this`now, this`commits
      ensures Valid() && Later(old(run), run) && old(now) <= now
      ensures r.Ok? ==> Holds(run, command, actor, r.value)
      ensures r.Ok? && !r.value.duplicate ==> !Delivered(old(run), command.waitId) && commits == old(commits) + 1
      ensures (r.Ok? && r.value.duplicate) || (r.Err? && r.error != Unavailable) ==> commits == old(commits)
      ensures r.Ok? && !r.value.duplicate ==> Welcome(run, command, accepts) && Stamped(r.value, command, old(now), now, durable)
      ensures r != Err(CommitRefused)
      ensures Recorded(old(run), command, actor) && r.Err? ==> r.error in {AccessDenied, NotFound, Unavailable}
    {
      LaterSelf(run);
      hide WaitsConsistent, Later, Screened, SameCommand, ClockPast, Recorded, Holds, Delivered, ValidSuccessor, Proposal, Welcome, Stamped;
      while true
        invariant Valid() && Later(old(run), run) && old(now) <= now && commits == old(commits)
        decreases MAX_REVISION - run.revision
      {
        var authorized: bool := *;
        if !authorized {
          return Err(AccessDenied);
        }
        var read, id := run, command.waitId;
        if !held || read.id != command.runId || read.scope != scope {
          return Err(NotFound);
        }
        ghost var since := now;
        Interfere();
        PastLater(read, since, now);
        var at := now;
        var answer := Examine(read, at, command, actor);
        if Recorded(old(run), command, actor) {
          StillRecorded(old(run), read, command, actor);
        }
        if answer.Some? {
          LaterTransitive(old(run), read, run);
          if answer.value.Ok? {
            StillHolds(read, run, command, actor, answer.value.value);
          }
          return answer.value;
        }
        NotYet(old(run), read, command, actor);
        var d := Proposal(command, actor, at, durable);
        LaterTransitive(old(run), read, run);
        var over: bool := *;
        if over {
          return Err(OverLimit);
        }
        if read.revision == MAX_REVISION {
          return Err(Conflict);
        }
        ProposalAccepted(read, command, actor, at, durable);
        var next := Proposed(Deliver(read, id, d));
        StillPast(read, id, d, at, now);
        ghost var before := run;
        var committed := Submit(read.revision, next);
        LaterTransitive(old(run), before, run);
        LaterTransitive(read, before, run);
        if committed.Ok? {
          ProposalHolds(read, command, actor, at, durable);
          ProposalWelcome(read, command, actor, at, durable, accepts);
          ProposalStamped(command, actor, at, durable, old(now), now);
          return Ok(d.receipt);
        }
        if committed.error != Conflict {
          return Err(committed.error);
        }
        Moved(read, run, next);
        if run.revision == read.revision {
          return Err(CommitRefused);
        }
      }
    }

    /** The whole port: screening, then the loop, on the command as it was given. */
    method Signal(command: SignalCommand, actor: string, permitted: bool) returns (r: Result<SignalReceipt, Refusal>)
      requires Valid()
      modifies this`run, this`held, this`now, this`commits
      ensures Valid() && Later(old(run), run) && old(now) <= now
      ensures r.Ok? ==> Holds(run, command, actor, r.value)
      ensures r.Ok? && !r.value.duplicate ==> !Delivered(old(run), command.waitId) && commits == old(commits) + 1
      ensures (r.Ok? && r.value.duplicate) || (r.Err? && r.error != Unavailable) ==> commits == old(commits)
      ensures r.Ok? && !r.value.duplicate ==> Welcome(run, command, accepts) && Stamped(r.value, command, old(now), now, durable)
      ensures r != Err(CommitRefused)
    {
      LaterSelf(run);
      hide WaitsConsistent, Later, Screened, ClockPast, Delivered, Welcome, Stamped;
      var screened := Screen(command, permitted);
      if screened.Err? {
        return Err(screened.error);
      }
      r := DeliverSignal(screened.value, actor);
      if r.Ok? {
        SameHolds(run, screened.value, command, actor, r.value);
        SameWelcome(run, screened.value, command, accepts, r.value, old(now), now, durable);
      }
    }
  }

  lemma SameHolds(run: RunSnapshot, a: SignalCommand, b: SignalCommand, actor: string, receipt: SignalReceipt)
    requires SameCommand(a, b) && Holds(run, a, actor, receipt)
    ensures Holds(run, b, actor, receipt)
  {
  }

  lemma SameWelcome(run: RunSnapshot, a: SignalCommand, b: SignalCommand, accepts: (Value, Value) -> bool, receipt: SignalReceipt,
                    since: nat, now: nat, durable: bool)
    requires SameCommand(a, b)
    ensures Welcome(run, a, accepts) ==> Welcome(run, b, accepts)
    ensures Stamped(receipt, a, since, now, durable) ==> Stamped(receipt, b, since, now, durable)
  {
  }
}
