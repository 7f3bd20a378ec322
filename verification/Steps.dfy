/**
 What one step of the interpreter means for the agreement around it: a node ran, a leaf was
 written, a control was activated, a turn or a child ran, a control was closed.
 */
module Steps {
  import opened Wrappers
  import opened Text
  import opened Json
  import opened Protocol
  import opened Programs
  import C = ControlLaws
  import opened Resumption
  import opened Interpreter
  import D = Dispatch
  import L = DispatchLoop
  import Groups
  import WaitStart

  predicate Confirmed(store: Store, key: Path) {
    key in store && store[key].state == InvocationState.Succeeded
  }

  predicate AllConfirmed(body: Body, path: Path, store: Store) {
    forall i :: 0 <= i < |body.nodes| ==> Confirmed(store, KeyOf(path, body.nodes[i].id))
  }

  predicate Final(store: Store, key: Path) {
    key in store && (store[key].state == InvocationState.Succeeded || Settled(store[key]))
  }

  /** The evaluator fails at this node with this error. */
  ghost predicate NodeFails(env: Env, n: Node, input: Value, outputs: map<string, Value>, path: Path, log: Log, e: ForgeError) {
    var key := KeyOf(path, n.id);
    if key in log && log[key].Fault? then log[key].error == e
    else
      match env.evaluate(n.input, input, outputs)
      case Err(error) => error == e
      case Ok(given) => EvalNode(env, n, given, key, log) == Err(e)
  }

  ghost predicate CleanBelow(s: Sight, key: Path) {
    forall k :: k in s.store && key < k ==> !Loose(s.store[k], s.guarded)
  }

  ghost predicate HarmlessBelow(s: Sight, key: Path, e: ForgeError) {
    CleanBelow(s, key) || !Catchable(e) || s.expired
  }

  function CancelError(): ForgeError { Plain("operation.cancelled") }

  function LimitError(): ForgeError { Plain("resource.limit") }

  function UnknownError(): ForgeError { Plain("effect.unknown") }

  /** The boundaries no handler may cross. */
  lemma NeverCaught()
    ensures !Catchable(CancelError()) && !Catchable(LimitError()) && !Catchable(UnknownError())
  {
    assert CancelError().diagnostics[0].code == "operation.cancelled";
    assert LimitError().diagnostics[0].code == "resource.limit";
    assert UnknownError().diagnostics[0].code == "effect.unknown";
  }

  // ---------------------------------------------------------------- lemmas about one step

  /** Changing only the observation at an unfinished node's key keeps the agreement. */
  lemma LogAtKey(env: Env, n: Node, input: Value, outputs: map<string, Value>, path: Path, s: Sight, t: Sight)
    requires NodesFit(env, [n], input, outputs, path, s) && !Final(s.store, KeyOf(path, n.id))
    requires t == s.(log := t.log) && SameLogBelow(s.log, t.log, KeyOf(path, n.id))
    requires var key := KeyOf(path, n.id);
      key in t.log && t.log[key].Fault? ==> !Catchable(t.log[key].error) || (t.log[key].error == TimeoutError() && t.expired)
    ensures NodesFit(env, [n], input, outputs, path, t)
  {
    hide InstrFits, EvalNode, Catchable;
    var key := KeyOf(path, n.id);
    if key in s.store {
      assert SameBelow(s, t, key);
      InstrFitsFrame(env, n.instr, s.store[key], env.evaluate(n.input, input, outputs).value, key, s, t);
    }
  }

  lemma WithinKept(s: Sight, t: Sight, key: Path, child: Path)
    requires Within(s, key, child) && OutsideSame(s, t, child)
    ensures Within(t, key, child)
  {
    assert forall k :: k in t.store && !Under(child, k) ==> k in s.store;
  }

  lemma WithinClean(s: Sight, key: Path, child: Path)
    requires Within(s, key, child) && Clean(s, child)
    ensures CleanBelow(s, key)
  {
  }

  /** What one node's run means for the body around it. */
  lemma BodyStep(env: Env, body: Body, i: nat, input: Value, outs: seq<map<string, Value>>, path: Path, s: Sight, t: Sight)
    requires i < |body.nodes| && DistinctNodes(body.nodes) && Passed(env, body.nodes, i, input, outs, path, s)
    requires NodesFit(env, body.nodes[i..], input, outs[i], path, s) && BodyFits(env, body, input, path, s)
    requires OutsideSame(s, t, KeyOf(path, body.nodes[i].id)) && NodesFit(env, [body.nodes[i]], input, outs[i], path, t)
    requires Confirmed(s.store, KeyOf(path, body.nodes[i].id)) ==>
      KeyOf(path, body.nodes[i].id) in t.store && t.store[KeyOf(path, body.nodes[i].id)] == s.store[KeyOf(path, body.nodes[i].id)]
    ensures Passed(env, body.nodes, i, input, outs, path, t) && NodesFit(env, body.nodes[i..], input, outs[i], path, t)
    ensures BodyFits(env, body, input, path, t) && OutsideSame(s, t, path)
    ensures !Confirmed(s.store, KeyOf(path, body.nodes[i].id)) ==> NoneOf(body.nodes[i + 1..], path, t)
  {
    var key := KeyOf(path, body.nodes[i].id);
    var suffix := body.nodes[i..];
    assert suffix[0] == body.nodes[i] && suffix[1..] == body.nodes[i + 1..];
    PassedKept(env, body.nodes, i, input, outs, path, s, t);
    SuffixKept(env, suffix, input, outs[i], path, s, t);
    PassedMeans(env, body, i, 0, input, outs, path, t);
    assert body.nodes[0..] == body.nodes;
    OutsideOnly(s, t, path, ["nodes", body.nodes[i].id]);
    assert path + ["nodes", body.nodes[i].id] == key;
    hide NodesFit, Passed, NodePassed, NoneOf;
    forall k | k in t.store && path <= k
      ensures InBody(body.nodes, path, k)
    {
      if !Under(key, k) {
        assert k in s.store;
      }
    }
  }

  /** Confirmed nodes, a clean current one and nothing after it: the body is clean. */
  lemma BodyClean(env: Env, body: Body, i: nat, input: Value, outs: seq<map<string, Value>>, path: Path, s: Sight)
    requires i <= |body.nodes| && Passed(env, body.nodes, i, input, outs, path, s)
    requires forall k :: k in s.store && path <= k ==> InBody(body.nodes, path, k)
    requires i < |body.nodes| ==> Clean(s, KeyOf(path, body.nodes[i].id)) && NoneOf(body.nodes[i + 1..], path, s)
    ensures Clean(s, path)
  {
    forall j | 0 <= j < |body.nodes|
      ensures Clean(s, KeyOf(path, body.nodes[j].id))
    {
      if j < i {
        assert NodePassed(env, body.nodes[j], input, outs[j], outs[j + 1], path, s);
      } else if j > i {
        assert body.nodes[i + 1..][j - i - 1] == body.nodes[j];
        assert Empty(s, KeyOf(path, body.nodes[j].id));
      }
    }
    forall k | k in s.store && path <= k
      ensures !Loose(s.store[k], s.guarded)
    {
      var j :| 0 <= j < |body.nodes| && KeyOf(path, body.nodes[j].id) <= k;
      assert Clean(s, KeyOf(path, body.nodes[j].id));
    }
  }

  lemma BodyNames(body: Body, guarded: bool)
    requires Named(body, guarded)
    ensures DistinctNodes(body.nodes) && forall i :: 0 <= i < |body.nodes| ==> NamedInstr(body.nodes[i].instr, guarded)
  {
  }

  /** The loop of a body after some confirmed nodes: what it relies on, and what it has left alone. */
  ghost predicate Walking(env: Env, body: Body, i: nat, input: Value, outs: seq<map<string, Value>>, path: Path, start: Sight, s: Sight) {
    && i <= |body.nodes| && |outs| == i + 1 && OutsideSame(start, s, path) && BodyFits(env, body, input, path, s)
    && Passed(env, body.nodes, i, input, outs, path, s) && NodesFit(env, body.nodes[i..], input, outs[i], path, s)
  }

  lemma BodyStart(env: Env, body: Body, input: Value, outs: seq<map<string, Value>>, path: Path, s: Sight)
    requires BodyFits(env, body, input, path, s) && outs == [map[]]
    ensures Walking(env, body, 0, input, outs, path, s, s)
  {
    hide NodesFit, OutsideSame;
    OutsideSelf(s, path);
    assert body.nodes[0..] == body.nodes;
  }

  lemma NextNode(env: Env, body: Body, i: nat, input: Value, outs: seq<map<string, Value>>, path: Path, start: Sight, s: Sight)
    requires Walking(env, body, i, input, outs, path, start, s) && i < |body.nodes| && Named(body, s.guarded)
    ensures NodesFit(env, [body.nodes[i]], input, outs[i], path, s) && NamedInstr(body.nodes[i].instr, s.guarded)
  {
    hide NodesFit, OutsideSame, Passed, BodyFits, NamedInstr, Named;
    BodyNames(body, s.guarded);
    FirstOf(env, body.nodes[i..], input, outs[i], path, s);
  }

  lemma OneConfirmed(body: Body, i: nat, path: Path, start: Sight, s: Sight)
    requires i < |body.nodes|
    ensures AllConfirmed(body, path, start.store) && Unmoved(start, s) ==> Confirmed(s.store, KeyOf(path, body.nodes[i].id))
  {
    hide Confirmed;
  }

  /** Nothing was recorded and nothing observed in between. */
  ghost predicate Unmoved(s: Sight, t: Sight) {
    t.store == s.store && t.log == s.log && t.thrown == s.thrown
  }

  /** Only time passed. */
  ghost predicate Drifted(s: Sight, t: Sight) {
    t == s.(expired := t.expired) && (s.expired ==> t.expired)
  }

  lemma UnmovedTrans(s: Sight, t: Sight, u: Sight)
    requires Unmoved(s, t)
    ensures Unmoved(t, u) ==> Unmoved(s, u)
  {
  }

  lemma UnmovedSelf(s: Sight)
    ensures Unmoved(s, s)
  {
  }

  /** The current node ran: everything before it still stands, and nothing after it began. */
  lemma WalkOn(env: Env, body: Body, i: nat, input: Value, outs: seq<map<string, Value>>, path: Path, start: Sight, s: Sight, t: Sight)
    requires Walking(env, body, i, input, outs, path, start, s) && i < |body.nodes| && Named(body, s.guarded)
    requires OutsideSame(s, t, KeyOf(path, body.nodes[i].id)) && NodesFit(env, [body.nodes[i]], input, outs[i], path, t)
    requires Confirmed(s.store, KeyOf(path, body.nodes[i].id)) ==> Unmoved(s, t)
    ensures Walking(env, body, i, input, outs, path, start, t)
    ensures Passed(env, body.nodes, i, input, outs, path, t) && BodyFits(env, body, input, path, t) && OutsideSame(start, t, path)
    ensures !Confirmed(s.store, KeyOf(path, body.nodes[i].id)) ==> NoneOf(body.nodes[i + 1..], path, t)
  {
    hide NodesFit, OutsideSame, Passed, BodyFits, Named, NoneOf, NamedInstr;
    BodyNames(body, s.guarded);
    BodyStep(env, body, i, input, outs, path, s, t);
    OutsideTrans(start, s, t, path);
  }

  lemma WalkPast(env: Env, body: Body, i: nat, input: Value, outs: seq<map<string, Value>>, next: map<string, Value>, path: Path,
                 start: Sight, s: Sight)
    requires Walking(env, body, i, input, outs, path, start, s) && i < |body.nodes|
    requires NodePassed(env, body.nodes[i], input, outs[i], next, path, s)
    ensures Walking(env, body, i + 1, input, outs + [next], path, start, s)
  {
    hide NodesFit, OutsideSame, Passed, BodyFits, NodePassed;
    PassedNext(env, body.nodes, i, input, outs, next, path, s);
  }

  lemma WalkEnds(env: Env, body: Body, i: nat, input: Value, outs: seq<map<string, Value>>, path: Path, start: Sight, s: Sight)
    requires Walking(env, body, i, input, outs, path, start, s) && i == |body.nodes|
    ensures Passed(env, body.nodes, |body.nodes|, input, outs, path, s) && BodyFits(env, body, input, path, s) && OutsideSame(start, s, path)
  {
    hide NodesFit, OutsideSame, Passed, BodyFits;
  }

  lemma FirstOf(env: Env, nodes: seq<Node>, input: Value, outputs: map<string, Value>, path: Path, s: Sight)
    requires nodes != [] && NodesFit(env, nodes, input, outputs, path, s)
    ensures NodesFit(env, [nodes[0]], input, outputs, path, s)
  {
    assert [nodes[0]][0] == nodes[0] && [nodes[0]][1..] == [];
  }

  lemma PassedNext(env: Env, nodes: seq<Node>, i: nat, input: Value, outs: seq<map<string, Value>>, next: map<string, Value>, path: Path, s: Sight)
    requires i < |nodes| && Passed(env, nodes, i, input, outs, path, s)
    requires NodePassed(env, nodes[i], input, outs[i], next, path, s)
    requires NodesFit(env, nodes[i..], input, outs[i], path, s)
    ensures Passed(env, nodes, i + 1, input, outs + [next], path, s)
    ensures NodesFit(env, nodes[i + 1..], input, next, path, s)
  {
    assert nodes[i..][0] == nodes[i] && nodes[i..][1..] == nodes[i + 1..];
    var longer := outs + [next];
    forall j | 0 <= j < i + 1
      ensures NodePassed(env, nodes[j], input, longer[j], longer[j + 1], path, s)
    {
      if j < i {
        assert longer[j] == outs[j] && longer[j + 1] == outs[j + 1];
      }
    }
  }

  lemma DriftKeeps(env: Env, n: Node, input: Value, outputs: map<string, Value>, path: Path, s: Sight, t: Sight)
    requires NodesFit(env, [n], input, outputs, path, s) && Drifted(s, t)
    ensures NodesFit(env, [n], input, outputs, path, t) && OutsideSame(s, t, KeyOf(path, n.id))
  {
    NodesFitFrame(env, [n], input, outputs, path, s, t);
  }

  lemma ConfirmedPasses(env: Env, n: Node, input: Value, outputs: map<string, Value>, path: Path, s: Sight)
    requires NodesFit(env, [n], input, outputs, path, s) && Confirmed(s.store, KeyOf(path, n.id))
    ensures s.store[KeyOf(path, n.id)].output.Some?
    ensures NodePassed(env, n, input, outputs, outputs[n.id := s.store[KeyOf(path, n.id)].output.value], path, s)
  {
  }

  lemma SettledFails(env: Env, n: Node, input: Value, outputs: map<string, Value>, path: Path, s: Sight)
    requires NodesFit(env, [n], input, outputs, path, s)
    requires KeyOf(path, n.id) in s.store && Settled(s.store[KeyOf(path, n.id)])
    ensures NodeFails(env, n, input, outputs, path, s.log, RecordedError(s.store[KeyOf(path, n.id)]))
    ensures Harmless(s, KeyOf(path, n.id), RecordedError(s.store[KeyOf(path, n.id)]))
  {
  }

  lemma UnreachedIsClean(env: Env, n: Node, input: Value, outputs: map<string, Value>, path: Path, s: Sight)
    requires NodesFit(env, [n], input, outputs, path, s) && KeyOf(path, n.id) !in s.store
    ensures Clean(s, KeyOf(path, n.id)) && Empty(s, KeyOf(path, n.id))
  {
  }

  lemma InputFails(env: Env, n: Node, input: Value, outputs: map<string, Value>, path: Path, s: Sight)
    requires NodesFit(env, [n], input, outputs, path, s) && KeyOf(path, n.id) !in s.store && KeyOf(path, n.id) !in s.log
    requires env.evaluate(n.input, input, outputs).Err?
    ensures var e := env.evaluate(n.input, input, outputs).error;
      NodeFails(env, n, input, outputs, path, s.log, e) && Harmless(s, KeyOf(path, n.id), e)
  {
    UnreachedIsClean(env, n, input, outputs, path, s);
  }

  lemma GivenInput(env: Env, n: Node, input: Value, outputs: map<string, Value>, path: Path, s: Sight)
    requires NodesFit(env, [n], input, outputs, path, s) && !Final(s.store, KeyOf(path, n.id))
    ensures KeyOf(path, n.id) in s.store ==>
      && env.evaluate(n.input, input, outputs) == Ok(s.store[KeyOf(path, n.id)].input)
      && InstrFits(env, n.instr, s.store[KeyOf(path, n.id)], s.store[KeyOf(path, n.id)].input, KeyOf(path, n.id), s)
  {
  }

  function FaultState(e: ForgeError): InvocationState {
    if IsUnknown(e) then InvocationState.Pending
    else if e.Code() == "operation.cancelled" then InvocationState.Cancelled
    else InvocationState.Failed
  }

  /** The boundaries no handler may cross, and how a control that ends in an error is recorded. */
  lemma BoundaryCodes(e: ForgeError)
    ensures CancelError().Code() == "operation.cancelled" && LimitError().Code() == "resource.limit"
    ensures UnknownError().Code() == "effect.unknown" && TimeoutError().Code() == "operation.timeout"
    ensures FaultState(e) == InvocationState.Pending <==> e.Code() == "effect.unknown"
    ensures FaultState(e) == InvocationState.Cancelled <==> e.Code() == "operation.cancelled"
    ensures FaultState(e) == InvocationState.Failed <==> e.Code() != "effect.unknown" && e.Code() != "operation.cancelled"
  {
  }

  /** A node about to run: its input is known, nothing is settled, nothing is observed yet. */
  ghost predicate Unfinished(env: Env, n: Node, input: Value, outputs: map<string, Value>, path: Path, given: Value, s: Sight) {
    var key := KeyOf(path, n.id);
    && NamedInstr(n.instr, s.guarded) && NodesFit(env, [n], input, outputs, path, s) && !Final(s.store, key)
    && env.evaluate(n.input, input, outputs) == Ok(given) && key !in s.log
    && (key in s.store ==> s.store[key].input == given)
  }

  /** A node that ran: the agreement holds again and the outcome is the evaluator's. */
  ghost predicate NodeDone(env: Env, n: Node, input: Value, outputs: map<string, Value>, path: Path, s: Sight, t: Sight, r: Step) {
    && OutsideSame(s, t, KeyOf(path, n.id)) && NodesFit(env, [n], input, outputs, path, t) && !r.Aborted?
    && (r.Returned? ==> NodePassed(env, n, input, outputs, outputs[n.id := r.value], path, t))
    && (r.Thrown? ==> NodeFails(env, n, input, outputs, path, t.log, r.error) && Harmless(t, KeyOf(path, n.id), r.error))
  }

  lemma DriftReady(env: Env, n: Node, input: Value, outputs: map<string, Value>, path: Path, given: Value, s: Sight, t: Sight)
    requires Unfinished(env, n, input, outputs, path, given, s) && Drifted(s, t)
    ensures Unfinished(env, n, input, outputs, path, given, t) && OutsideSame(s, t, KeyOf(path, n.id))
  {
    DriftKeeps(env, n, input, outputs, path, s, t);
  }

  // ---------------------------------------------------------------- leaves

  /** The start of a wait, if it was dispatched, hides nothing. */
  predicate StartSettled(instr: Instr, key: Path, s: Sight) {
    instr.Pause? && StartKey(key) in s.store ==> !Loose(s.store[StartKey(key)], s.guarded)
  }

  /** Which record and observation a leaf may leave together. */
  ghost predicate LeafAllowed(instr: Instr, key: Path, given: Value, rec: Rec, seen: Option<Observation>, s: Sight)
    requires instr.Operation? || instr.Pause?
  {
    && (instr.Operation? ==> Kept(OpAt(instr.op, key), false, rec))
    && (instr.Pause? ==> rec.effect.None?)
    && (rec.state == InvocationState.Succeeded ==>
          && rec.output.Some? && seen == Some(Output(rec.output.value)) && !rec.Unresolved() && StartSettled(instr, key, s))
    && (Settled(rec) ==>
          && seen == Some(Fault(RecordedError(rec))) && !rec.Unresolved()
          && (StartSettled(instr, key, s) || !Catchable(RecordedError(rec)) || s.expired))
    && (rec.state != InvocationState.Succeeded && !Settled(rec) ==> rec.input == given)
  }

  predicate Sees(seen: Option<Observation>, log: Log, key: Path) {
    seen.Some? ==> key in log && log[key] == seen.value
  }

  /** Nothing but its own record and its start lies below a leaf. */
  lemma LeafAlone(env: Env, n: Node, input: Value, outputs: map<string, Value>, path: Path, given: Value, s: Sight)
    requires (n.instr.Operation? || n.instr.Pause?) && Unfinished(env, n, input, outputs, path, given, s)
    ensures n.instr.Operation? ==> forall k :: k in s.store && KeyOf(path, n.id) <= k ==> k == KeyOf(path, n.id)
    ensures n.instr.Pause? ==> StartFits(n.instr.start, KeyOf(path, n.id), s)
    ensures n.instr.Operation? && KeyOf(path, n.id) in s.store ==>
      Kept(OpAt(n.instr.op, KeyOf(path, n.id)), false, s.store[KeyOf(path, n.id)])
    ensures n.instr.Pause? && KeyOf(path, n.id) in s.store ==> s.store[KeyOf(path, n.id)].effect.None?
    ensures KeyOf(path, n.id) !in s.store ==> Empty(s, KeyOf(path, n.id))
  {
    hide EvalNode, Kept, Catchable;
    var key := KeyOf(path, n.id);
    if key in s.store {
      assert InstrFits(env, n.instr, s.store[key], given, key, s);
    } else {
      assert Empty(s, key);
      assert key <= StartKey(key);
    }
  }

  /** A leaf's record and observation change together, at its own key only. */
  lemma LeafKeeps(env: Env, n: Node, input: Value, outputs: map<string, Value>, path: Path, given: Value, s: Sight, t: Sight, seen: Option<Observation>)
    requires (n.instr.Operation? || n.instr.Pause?) && Unfinished(env, n, input, outputs, path, given, s)
    requires OnlyAt(s, t, KeyOf(path, n.id)) && KeyOf(path, n.id) in t.store && Sees(seen, t.log, KeyOf(path, n.id))
    requires LeafAllowed(n.instr, KeyOf(path, n.id), given, t.store[KeyOf(path, n.id)], seen, s)
    ensures NodesFit(env, [n], input, outputs, path, t)
    ensures Confirmed(t.store, KeyOf(path, n.id)) ==>
      NodePassed(env, n, input, outputs, outputs[n.id := t.store[KeyOf(path, n.id)].output.value], path, t)
    ensures !t.store[KeyOf(path, n.id)].Unresolved() && StartSettled(n.instr, KeyOf(path, n.id), s) ==> Clean(t, KeyOf(path, n.id))
  {
    hide Kept, Catchable, Loose, NamedInstr;
    var key, rec := KeyOf(path, n.id), t.store[KeyOf(path, n.id)];
    LeafAlone(env, n, input, outputs, path, given, s);
    assert key < StartKey(key);
    assert forall k :: k in t.store && key <= k ==> k == key || (n.instr.Pause? && k == StartKey(key));
    assert t.store[key].Unresolved() || !Loose(t.store[key], t.guarded) by { ResolvedNotLoose(t.store[key], t.guarded); }
    if StartSettled(n.instr, key, s) && !rec.Unresolved() {
      assert Clean(t, key);
    }
  }

  lemma ResolvedNotLoose(r: Rec, guarded: bool)
    ensures !r.Unresolved() ==> !Loose(r, guarded)
  {
  }

  /** A leaf that was refused before anything was recorded. */
  lemma LeafRefused(env: Env, n: Node, input: Value, outputs: map<string, Value>, path: Path, given: Value, s: Sight, t: Sight, e: ForgeError)
    requires (n.instr.Operation? || n.instr.Pause?) && Unfinished(env, n, input, outputs, path, given, s)
    requires KeyOf(path, n.id) !in s.store && t == s.(log := s.log[KeyOf(path, n.id) := Fault(e)])
    ensures NodesFit(env, [n], input, outputs, path, t) && OutsideSame(s, t, KeyOf(path, n.id))
    ensures NodeFails(env, n, input, outputs, path, t.log, e) && Clean(t, KeyOf(path, n.id))
  {
    hide Loose, Catchable, Kept, EvalNode, InstrFits, NamedInstr, FaultExplained;
    assert Under(KeyOf(path, n.id), KeyOf(path, n.id));
    assert Empty(s, KeyOf(path, n.id)) && Empty(t, KeyOf(path, n.id));
  }

  /** The record of a wait's start was written: the wait itself stands where it stood. */
  lemma StartWritten(env: Env, n: Node, input: Value, outputs: map<string, Value>, path: Path, given: Value, s: Sight, t: Sight)
    requires n.instr.Pause? && n.instr.start.Some? && Unfinished(env, n, input, outputs, path, given, s) && KeyOf(path, n.id) in s.store
    requires var skey := StartKey(KeyOf(path, n.id));
      && skey in t.store && t == s.(store := s.store[skey := t.store[skey]])
      && Kept(OpAt(n.instr.start.value.op, skey), true, t.store[skey])
    ensures Unfinished(env, n, input, outputs, path, given, t) && OutsideSame(s, t, KeyOf(path, n.id))
  {
    hide Kept, EvalNode, Loose, Catchable;
    var key := KeyOf(path, n.id);
    LeafAlone(env, n, input, outputs, path, given, s);
    assert key < StartKey(key) && Under(key, StartKey(key));
    assert StartFits(n.instr.start, key, t);
    assert InstrFits(env, n.instr, s.store[key], given, key, t);
  }

  // ---------------------------------------------------------------- dispatched operations

  /** What the interpreter observes of a dispatch: a settled record speaks for itself, even when the process died. */
  function Seen(rec: Rec, outcome: L.Outcome): Option<Observation> {
    if rec.state == InvocationState.Succeeded then (if rec.output.Some? then Some(Output(rec.output.value)) else None)
    else if Settled(rec) then Some(Fault(RecordedError(rec)))
    else if outcome.Refused? then Some(Fault(outcome.error))
    else None
  }

  /** A record that a history of the protocol shows is sound. */
  lemma ShownMeans(op: D.OpPlan, opens: bool, last: D.Snap)
    requires Reached(op, last) && last.cell.task == None && last.cell.record.Some?
    ensures var rec := Shown(op, opens, last);
      && Kept(op, opens, rec) && (rec.Unresolved() <==> last.cell.record.value.IsUnresolved())
      && (rec.state == InvocationState.Succeeded ==> rec.output.Some? && !rec.Unresolved())
      && (Settled(rec) ==> !rec.Unresolved())
  {
    var h :| h != [] && D.History(op, h) && h[|h| - 1] == last;
    D.HistorySound(op, h, |h| - 1);
    hide D.History, D.CallsFit, D.TaskFits, D.UnsafeFits;
  }

  /** The loop's answer, read against the record it leaves. */
  lemma AnswerMeans(op: D.OpPlan, opens: bool, last: D.Snap, outcome: L.Outcome)
    requires L.Agrees(op, last, outcome)
    ensures last.cell.record.None? ==> outcome.Refused?
    ensures last.cell.record.Some? ==>
      var rec := Shown(op, opens, last);
      && (outcome.Returned? ==> rec.state == InvocationState.Succeeded && rec.output == Some(outcome.value))
      && (outcome.Refused? ==> rec.state != InvocationState.Succeeded && Seen(rec, outcome) == Some(Fault(outcome.error)))
      && (rec.Unresolved() ==> outcome.Refused? && (!Catchable(outcome.error) || last.clock.now >= last.clock.deadlineAt))
  {
    hide Catchable;
  }

  lemma KeptRecord(op: D.OpPlan, opens: bool, r: Rec)
    requires Kept(op, opens, r)
    ensures r.effect.Some? && r.effect.value.last.cell.record.Some?
  {
  }

  /** The input of an unconfirmed record is that of every record before it. */
  lemma InputCarried(op: D.OpPlan, h: seq<D.Snap>, i: nat, given: Value)
    requires D.History(op, h) && i < |h| && h[i].cell.record.Some?
    ensures L.KeepsInput(h[i].cell.record, given, h[|h| - 1].cell.record)
  {
    D.HistoryCarries(op, h, i, |h| - 1);
    hide D.History;
  }

  lemma NothingRecorded(op: D.OpPlan, was: Option<Rec>, given: Value, last: D.Snap)
    requires was.Some? ==> Kept(op, false, was.value)
    requires L.KeepsInput(if was.Some? then was.value.effect.value.last.cell.record else None, given, last.cell.record)
    requires last.cell.record.None?
    ensures was.None?
  {
  }

  lemma OperationKept(env: Env, n: Node, input: Value, outputs: map<string, Value>, path: Path, given: Value, s: Sight)
    requires n.instr.Operation? && Unfinished(env, n, input, outputs, path, given, s)
    ensures n.instr.op.retry.maxAttempts >= 1
    ensures KeyOf(path, n.id) in s.store ==> Kept(OpAt(n.instr.op, KeyOf(path, n.id)), false, s.store[KeyOf(path, n.id)])
  {
    hide NodesFit, Kept;
    LeafAlone(env, n, input, outputs, path, given, s);
  }

  /** What a dispatch leaves is a record and an observation a leaf may leave. */
  lemma OperationAllowed(env: Env, n: Node, input: Value, outputs: map<string, Value>, path: Path, given: Value, s: Sight,
                         was: Option<Rec>, last: D.Snap, outcome: L.Outcome)
    requires n.instr.Operation? && Unfinished(env, n, input, outputs, path, given, s)
    requires Reached(OpAt(n.instr.op, KeyOf(path, n.id)), last) && last.cell.task == None && last.cell.record.Some?
    requires was == if KeyOf(path, n.id) in s.store then Some(s.store[KeyOf(path, n.id)]) else None
    requires was.Some? ==> Kept(OpAt(n.instr.op, KeyOf(path, n.id)), false, was.value)
    requires L.KeepsInput(if was.Some? then was.value.effect.value.last.cell.record else None, given, last.cell.record)
    ensures var op := OpAt(n.instr.op, KeyOf(path, n.id));
      LeafAllowed(n.instr, KeyOf(path, n.id), given, Shown(op, false, last), Seen(Shown(op, false, last), outcome), s)
  {
    hide NodesFit, Reached, NamedInstr, Catchable;
    ShownMeans(OpAt(n.instr.op, KeyOf(path, n.id)), false, last);
  }

  /** The answer of a dispatch is the outcome of its node. */
  lemma OperationDone(env: Env, n: Node, input: Value, outputs: map<string, Value>, path: Path, before: Sight, s: Sight, t: Sight,
                      last: D.Snap, outcome: L.Outcome, r: Step)
    requires n.instr.Operation? && last.cell.record.Some?
    requires r == match outcome case Returned(value) => Returned(value) case Refused(error) => Thrown(error) case Lost => Down
    requires OutsideSame(before, t, KeyOf(path, n.id)) && NodesFit(env, [n], input, outputs, path, t)
    requires var rec := Shown(OpAt(n.instr.op, KeyOf(path, n.id)), false, last);
      && (t.log == if Seen(rec, outcome).Some? then s.log[KeyOf(path, n.id) := Seen(rec, outcome).value] else s.log)
      && (rec.state == InvocationState.Succeeded ==>
            rec.output.Some? && NodePassed(env, n, input, outputs, outputs[n.id := rec.output.value], path, t))
      && (!rec.Unresolved() ==> Clean(t, KeyOf(path, n.id)))
      && (outcome.Returned? ==> rec.state == InvocationState.Succeeded && rec.output == Some(outcome.value))
      && (outcome.Refused? ==> Seen(rec, outcome) == Some(Fault(outcome.error)))
      && (outcome.Refused? && rec.Unresolved() ==> !Catchable(outcome.error) || t.expired)
    ensures NodeDone(env, n, input, outputs, path, before, t, r)
  {
    hide NodesFit, NodePassed, OutsideSame, Clean, Catchable;
  }

  /** A leaf that stops where it stands is done for this lifetime. */
  lemma StoppedLeaf(env: Env, n: Node, input: Value, outputs: map<string, Value>, path: Path, given: Value, before: Sight, t: Sight)
    requires Unfinished(env, n, input, outputs, path, given, t) && OutsideSame(before, t, KeyOf(path, n.id))
    ensures NodeDone(env, n, input, outputs, path, before, t, Down) && NodeDone(env, n, input, outputs, path, before, t, Parked)
  {
    hide NodesFit, OutsideSame, NamedInstr;
  }

  // ---------------------------------------------------------------- waits

  /** What one lifetime of a start's dispatch leaves, from the record it began with. */
  ghost predicate Dispatched(op: D.OpPlan, was: Option<Rec>, asked: Value, last: D.Snap, outcome: L.Outcome, expired: bool) {
    && (was.Some? ==> Kept(op, true, was.value))
    && Reached(op, last) && last.cell.task == None
    && L.KeepsInput(if was.Some? then was.value.effect.value.last.cell.record else None, asked, last.cell.record)
    && (!outcome.Lost? ==> L.Agrees(op, last, outcome) && (last.clock.now >= last.clock.deadlineAt ==> expired))
  }

  /** What a consumed signal wait returns reports the confirmed result of its start. */
  ghost predicate Reports(value: Value, started: Rec) {
    && started.output.Some? && value.Object? && |value.fields| == 2
    && value.fields[0].key == "signal" && value.fields[1] == Field("start", started.output.value)
  }

  lemma Reserved(env: Env, n: Node, input: Value, outputs: map<string, Value>, path: Path, given: Value, s: Sight, t: Sight)
    requires Unfinished(env, n, input, outputs, path, given, s) && NodesFit(env, [n], input, outputs, path, t)
    requires KeyOf(path, n.id) in t.store && t.store[KeyOf(path, n.id)].input == given && t.log == s.log && t.guarded == s.guarded
    requires t.store[KeyOf(path, n.id)].state == InvocationState.Pending
    ensures Unfinished(env, n, input, outputs, path, given, t)
  {
    hide NodesFit, NamedInstr;
  }

  lemma ReservedRecord(env: Env, n: Node, input: Value, outputs: map<string, Value>, path: Path, given: Value, s: Sight)
    requires n.instr.Pause? && Unfinished(env, n, input, outputs, path, given, s) && KeyOf(path, n.id) in s.store
    ensures s.store[KeyOf(path, n.id)].effect.None? && s.store[KeyOf(path, n.id)].input == given
  {
    hide NodesFit, NamedInstr;
    LeafAlone(env, n, input, outputs, path, given, s);
  }

  lemma StartKept(env: Env, n: Node, input: Value, outputs: map<string, Value>, path: Path, given: Value, s: Sight)
    requires n.instr.Pause? && n.instr.start.Some? && Unfinished(env, n, input, outputs, path, given, s)
    ensures n.instr.start.value.op.retry.maxAttempts >= 1 && (s.guarded ==> !n.instr.start.value.op.MayHide())
    ensures var skey := StartKey(KeyOf(path, n.id));
      skey in s.store ==> Kept(OpAt(n.instr.start.value.op, skey), true, s.store[skey])
  {
    hide NodesFit, Kept;
    LeafAlone(env, n, input, outputs, path, given, s);
  }

  /** A start that was never dispatched hides nothing. */
  lemma NoStart(instr: Instr, key: Path, s: Sight)
    requires StartKey(key) !in s.store
    ensures StartSettled(instr, key, s)
  {
  }

  /** With its start confirmed, or without one, a wait has nothing unresolved below it. */
  lemma StartConfirmed(env: Env, n: Node, input: Value, outputs: map<string, Value>, path: Path, given: Value, s: Sight)
    requires n.instr.Pause? && Unfinished(env, n, input, outputs, path, given, s)
    requires n.instr.start.Some? ==> Confirmed(s.store, StartKey(KeyOf(path, n.id)))
    ensures StartSettled(n.instr, KeyOf(path, n.id), s)
    ensures n.instr.start.Some? ==> s.store[StartKey(KeyOf(path, n.id))].output.Some?
  {
    hide NodesFit, NamedInstr, Reached;
    var skey := StartKey(KeyOf(path, n.id));
    LeafAlone(env, n, input, outputs, path, given, s);
    if n.instr.start.Some? {
      ShownMeans(OpAt(n.instr.start.value.op, skey), true, s.store[skey].effect.value.last);
    } else {
      assert KeyOf(path, n.id) < skey;
    }
  }

  /**
   What the answer of a start means for its wait: if a handler may catch it before the deadline, the
   start is settled or, in an unguarded run, one that may hide.
   */
  lemma StartAnswered(instr: Instr, key: Path, s: Sight, was: Option<Rec>, asked: Value, last: D.Snap, outcome: L.Outcome, timedOut: bool)
    requires instr.Pause? && instr.start.Some? && (s.guarded ==> !instr.start.value.op.MayHide())
    requires L.Agrees(OpAt(instr.start.value.op, StartKey(key)), last, outcome) && (last.clock.now >= last.clock.deadlineAt ==> s.expired)
    requires was.Some? ==> Kept(OpAt(instr.start.value.op, StartKey(key)), true, was.value)
    requires L.KeepsInput(if was.Some? then was.value.effect.value.last.cell.record else None, asked, last.cell.record)
    requires if last.cell.record.Some? then StartKey(key) in s.store && s.store[StartKey(key)] == Shown(OpAt(instr.start.value.op, StartKey(key)), true, last)
             else was.None? ==> StartKey(key) !in s.store
    ensures var answer := WaitStart.StartOutcome(timedOut, outcome);
      && (answer.Ok? ==> Confirmed(s.store, StartKey(key)))
      && (answer.Err? ==> StartSettled(instr, key, s) || !Catchable(answer.error) || s.expired)
  {
    hide L.Agrees, Reached, Catchable;
    WaitStart.StartAnswer(OpAt(instr.start.value.op, StartKey(key)), last, outcome, timedOut);
  }

  // ---------------------------------------------------------------- controls

  function InitialFrame(env: Env, instr: Instr, input: Value): Result<ControlFrame, ForgeError>
    requires !instr.Operation? && !instr.Pause?
  {
    match instr
    case Choose(cases, fallback) => (
      match Select(env, cases, fallback, input) case Err(e) => Err(e) case Ok(id) => Ok(ControlFrame.Decision(id)))
    case Attempt(_, _, _) => Ok(ControlFrame.Try(None, None))
    case Repeat(_, _, _, _) => Ok(ControlFrame.Loop(0, input))
    case Fork(branches, _) => Ok(ControlFrame.Parallel(seq(|branches|, i requires 0 <= i < |branches| => branches[i].id), 0, false, None))
    case Each(items, _, _) => (
      match ItemsOf(env, items, input) case Err(e) => Err(e) case Ok(values) => Ok(ControlFrame.Foreach(|values|, 0, false, None)))
    case Call(id, revision, _) => Ok(ControlFrame.Subworkflow(id, revision))
  }

  /** A control starts from exactly the frame it should, or for exactly one reason not at all. */
  lemma InitialMeans(env: Env, instr: Instr, input: Value, frame: ControlFrame, e: ForgeError)
    requires !instr.Operation? && !instr.Pause?
    ensures InitialFrame(env, instr, input) == Ok(frame) <==> C.Begins(env, instr, input, frame)
    ensures InitialFrame(env, instr, input) == Err(e) <==> C.NeverBegins(env, instr, input, e)
  {
    hide C.Chosen, C.Undecided, Select;
    match instr {
      case Choose(cases, fallback) =>
        C.SelectMeans(env, cases, fallback, input, if frame.Decision? then frame.selected else "", e);
      case Each(items, _, _) =>
        var given := env.evaluate(items, input, map[]);
        if given.Ok? && given.value.Array? {
          assert given == Ok(Array(given.value.items));
        }
      case Fork(branches, _) =>
        var ids := seq(|branches|, i requires 0 <= i < |branches| => branches[i].id);
        if C.Begins(env, instr, input, frame) {
          assert frame.branches == ids;
        }
      case _ =>
    }
  }

  /** Both at once, for every frame and every error. */
  lemma InitialDecides(env: Env, instr: Instr, input: Value)
    requires !instr.Operation? && !instr.Pause?
    ensures InitialFrame(env, instr, input).Ok? ==> C.Begins(env, instr, input, InitialFrame(env, instr, input).value)
    ensures InitialFrame(env, instr, input).Err? ==> C.NeverBegins(env, instr, input, InitialFrame(env, instr, input).error)
    ensures forall e :: C.NeverBegins(env, instr, input, e) ==> InitialFrame(env, instr, input) == Err(e)
  {
    hide InitialFrame, C.Begins, C.NeverBegins;
    var frame := InitialFrame(env, instr, input);
    InitialMeans(env, instr, input, if frame.Ok? then frame.value else ControlFrame.Try(None, None),
                 if frame.Err? then frame.error else Plain(""));
    forall e | C.NeverBegins(env, instr, input, e)
      ensures frame == Err(e)
    {
      InitialMeans(env, instr, input, ControlFrame.Try(None, None), e);
    }
  }

  lemma InitialFault(env: Env, instr: Instr, input: Value, key: Path, log: Log)
    requires !instr.Operation? && !instr.Pause? && InitialFrame(env, instr, input).Err?
    ensures EvalControl(env, instr, input, key, log) == Err(InitialFrame(env, instr, input).error)
  {
  }

  /** A fresh frame agrees with anything: nothing below it has run. */
  lemma InitialFits(env: Env, instr: Instr, input: Value, key: Path, s: Sight, t: Sight)
    requires !instr.Operation? && !instr.Pause? && InitialFrame(env, instr, input).Ok? && Empty(s, key)
    requires key in t.store && t.store == s.store[key := t.store[key]] && t.Throws(key) == {}
    requires t.store[key].effect.None? && t.store[key].control == Some(InitialFrame(env, instr, input).value)
    ensures InstrFits(env, instr, t.store[key], input, key, t)
  {
    hide Kept, Catchable, Loose, ThrownBy, NodesFit;
    assert forall k :: k in t.store && key <= k ==> k == key;
    match instr
    case Choose(cases, fallback) =>
      var id := Select(env, cases, fallback, input).value;
      ChildEmpty(key, ["cases", id], t);
      var i := FindCase(cases, id);
      if i < |cases| {
        EmptyBodyFits(env, cases[i].body, input, CasePath(key, id), t);
      } else if fallback.Some? {
        EmptyBodyFits(env, fallback.value.body, input, CasePath(key, id), t);
      }
      hide BodyFits;
    case Attempt(body, _, _) =>
      ChildEmpty(key, ["try"], t);
      EmptyBodyFits(env, body, input, TryPath(key), t);
      hide BodyFits;
    case Repeat(_, _, _, _) => InitialLoopFits(env, instr, input, key, t);
    case Fork(_, _) => InitialGroupFits(env, instr, input, key, t);
    case Each(_, _, _) => InitialGroupFits(env, instr, input, key, t);
    case Call(id, revision, body) =>
      ChildEmpty(key, ["workflows", id, "revisions", revision], t);
      EmptyBodyFits(env, body, input, CallPath(key, id, revision), t);
      hide BodyFits;
  }

  lemma InitialLoopFits(env: Env, instr: Instr, input: Value, key: Path, t: Sight)
    requires instr.Repeat? && forall k :: k in t.store && key <= k ==> k == key
    requires key in t.store && t.store[key].effect.None? && t.store[key].control == Some(ControlFrame.Loop(0, input))
    ensures InstrFits(env, instr, t.store[key], input, key, t)
  {
    forall m: nat
      ensures Empty(t, TurnPath(key, m)) && Clean(t, TurnPath(key, m))
    {
      ChildEmpty(key, ["iterations", Decimal(m)], t);
    }
    EmptyBodyFits(env, instr.body, TurnInput(input, 0), TurnPath(key, 0), t);
    hide BodyFits;
    assert Reaches(env, instr, input, 0, input, 0, key, t.log);
  }

  lemma InitialGroupFits(env: Env, instr: Instr, input: Value, key: Path, t: Sight)
    requires (instr.Fork? || instr.Each?) && forall k :: k in t.store && key <= k ==> k == key
    requires InitialFrame(env, instr, input).Ok? && t.Throws(key) == {}
    requires key in t.store && t.store[key].effect.None? && t.store[key].control == Some(InitialFrame(env, instr, input).value)
    ensures InstrFits(env, instr, t.store[key], input, key, t)
  {
    hide Kept, Catchable, Loose, ThrownBy, NodesFit;
    if instr.Fork? {
      forall i | 0 <= i < |instr.branches|
        ensures BodyFits(env, instr.branches[i].body, input, BranchPath(key, instr.branches[i].id), t)
      {
        ChildEmpty(key, ["branches", instr.branches[i].id], t);
        EmptyBodyFits(env, instr.branches[i].body, input, BranchPath(key, instr.branches[i].id), t);
      }
    } else {
      var values := ItemsOf(env, instr.items, input).value;
      forall i | 0 <= i < |values|
        ensures BodyFits(env, instr.body, ItemInput(input, values[i], i), ItemPath(key, i), t)
      {
        ChildEmpty(key, ["items", Decimal(i)], t);
        EmptyBodyFits(env, instr.body, ItemInput(input, values[i], i), ItemPath(key, i), t);
      }
    }
    hide BodyFits;
  }

  lemma ChildEmpty(key: Path, q: Path, t: Sight)
    requires q != [] && forall k :: k in t.store && key <= k ==> k == key
    ensures Empty(t, key + q)
  {
    LongerPrefix(key, q);
    assert !Under(key + q, key);
    assert forall k :: k in t.store && Under(key, k) ==> k == key;
    assert forall k :: k in t.store ==> !Under(key + q, k);
  }

  /** A control in progress: its record is open and its frame agrees. */
  ghost predicate ControlReady(env: Env, instr: Instr, given: Value, key: Path, s: Sight) {
    && NamedInstr(instr, s.guarded) && !instr.Operation? && !instr.Pause?
    && key in s.store && !Final(s.store, key) && key !in s.log && s.store[key].effect.None? && s.store[key].input == given
    && InstrFits(env, instr, s.store[key], given, key, s)
  }

  /** What a control's end means; an abort is explained by a boundary, the deadline or an admitted child of a group. */
  ghost predicate ControlMeans(env: Env, instr: Instr, given: Value, key: Path, t: Sight, r: Step)
    requires !instr.Operation? && !instr.Pause?
  {
    && (r.Returned? ==> EvalControl(env, instr, given, key, t.log) == Ok(r.value) && CleanBelow(t, key))
    && (r.Thrown? ==> EvalControl(env, instr, given, key, t.log) == Err(r.error) && HarmlessBelow(t, key, r.error))
    && (r.Aborted? ==>
          HarmlessBelow(t, key, r.error) && key in t.store && Explained(env, instr, t.store[key].control, given, key, t, r.error))
  }

  ghost predicate ControlDone(env: Env, instr: Instr, given: Value, key: Path, s: Sight, t: Sight, r: Step) {
    && OutsideSame(s, t, key) && ControlReady(env, instr, given, key, t) && ControlMeans(env, instr, given, key, t, r)
  }

  /** A boundary no handler may cross, or the deadline, explains itself. */
  lemma BoundaryExplained(env: Env, instr: Instr, control: Option<ControlFrame>, given: Value, key: Path, s: Sight, e: ForgeError)
    requires !Catchable(e) || (e == TimeoutError() && s.expired)
    ensures Explained(env, instr, control, given, key, s, e)
  {
    hide Catchable;
  }

  ghost function FaultLog(log: Log, key: Path, fault: Option<ForgeError>): Log {
    if fault.Some? then log[key := Fault(fault.value)] else log
  }

  /** Which record and fault may close a control that stands where `s` says. */
  ghost predicate Closable(env: Env, n: Node, given: Value, key: Path, s: Sight, rec: Rec, fault: Option<ForgeError>) {
    var log := FaultLog(s.log, key, fault);
    && key in s.store && rec.control == s.store[key].control && rec.effect.None?
    && (fault.Some? ==> Explained(env, n.instr, rec.control, given, key, s, fault.value))
    && if rec.state == InvocationState.Succeeded then
         fault.None? && rec.output.Some? && EvalNode(env, n, given, key, log) == Ok(rec.output.value) && CleanBelow(s, key)
       else if Settled(rec) then
         EvalNode(env, n, given, key, log) == Err(RecordedError(rec)) && HarmlessBelow(s, key, RecordedError(rec))
       else rec.input == given
  }

  /** Nothing changed at or below the key but the record and the observation at the key. */
  ghost predicate Closes(s: Sight, t: Sight, key: Path, rec: Rec, fault: Option<ForgeError>) {
    t == s.(store := s.store[key := rec], log := FaultLog(s.log, key, fault))
  }

  lemma ClosesOnlyAt(s: Sight, t: Sight, key: Path, rec: Rec, fault: Option<ForgeError>)
    requires Closes(s, t, key, rec, fault)
    ensures OnlyAt(s, t, key) && SameBelow(s, t, key) && key in t.store && t.store[key] == rec && t.log == FaultLog(s.log, key, fault)
  {
  }

  /** Settling or leaving a control touches its own record and observation only. */
  lemma ControlFits(env: Env, n: Node, input: Value, outputs: map<string, Value>, path: Path, given: Value, s: Sight, t: Sight,
                    rec: Rec, fault: Option<ForgeError>)
    requires ControlReady(env, n.instr, given, KeyOf(path, n.id), s) && env.evaluate(n.input, input, outputs) == Ok(given)
    requires Closes(s, t, KeyOf(path, n.id), rec, fault) && Closable(env, n, given, KeyOf(path, n.id), s, rec, fault)
    ensures NodesFit(env, [n], input, outputs, path, t)
    ensures CleanBelow(s, KeyOf(path, n.id)) ==> Clean(t, KeyOf(path, n.id))
  {
    hide EvalNode, InstrFits, NamedInstr, Catchable, Loose, Explained, FaultLog, Closes;
    var key := KeyOf(path, n.id);
    ClosesOnlyAt(s, t, key, rec, fault);
    assert forall k :: k in t.store && key < k ==> k in s.store && t.store[k] == s.store[k];
    ResolvedNotLoose(rec, t.guarded);
    if CleanBelow(s, key) {
      assert forall k :: k in t.store && key <= k ==> k == key || key < k;
      assert Clean(t, key);
    }
    ClosedExplained(env, n, given, key, s, t, rec, fault);
    if rec.state != InvocationState.Succeeded && !Settled(rec) {
      FrameFits(env, n.instr, given, key, s, t);
    }
  }

  lemma ClosedExplained(env: Env, n: Node, given: Value, key: Path, s: Sight, t: Sight, rec: Rec, fault: Option<ForgeError>)
    requires key !in s.log && Closes(s, t, key, rec, fault)
    requires fault.Some? ==> Explained(env, n.instr, rec.control, given, key, s, fault.value)
    ensures FaultExplained(env, n.instr, rec.control, given, key, t)
  {
    hide ThrownBy, Catchable;
  }

  /** A frame agrees whatever else the record holds. */
  lemma FrameFits(env: Env, instr: Instr, given: Value, key: Path, s: Sight, t: Sight)
    requires ControlReady(env, instr, given, key, s) && SameBelow(s, t, key)
    requires key in t.store && t.store[key].control == s.store[key].control && t.store[key].effect.None?
    ensures InstrFits(env, instr, t.store[key], given, key, t)
  {
    hide BodyFits, Kept, GroupStands, Reaches, Clean, Empty, Within, EvalBody, Catchable, ItemsOf, Select, Truth, NamedInstr, SameLogBelow,
      SameThrown, Handler, FindCatch, FindCase, InTurn;
    InstrFitsFrame(env, instr, s.store[key], given, key, s, t);
  }

  /** A child scope's run touches nothing of the control's own record. */
  lemma ChildRan(s: Sight, t: Sight, key: Path, q: Path)
    requires OutsideSame(s, t, key + q) && q != []
    ensures OutsideSame(s, t, key)
    ensures (key in s.store <==> key in t.store) && (key in s.store ==> t.store[key] == s.store[key])
    ensures key in s.log <==> key in t.log
    ensures t.Throws(key) == s.Throws(key) && t.guarded == s.guarded
  {
    OutsideOnly(s, t, key, q);
    assert !Under(key + q, key);
  }

  lemma ControlClosed(env: Env, n: Node, input: Value, outputs: map<string, Value>, path: Path, given: Value, before: Sight, s: Sight,
                      t: Sight, rec: Rec, fault: Option<ForgeError>)
    requires ControlReady(env, n.instr, given, KeyOf(path, n.id), s) && OutsideSame(before, s, KeyOf(path, n.id))
    requires env.evaluate(n.input, input, outputs) == Ok(given)
    requires Closes(s, t, KeyOf(path, n.id), rec, fault) && Closable(env, n, given, KeyOf(path, n.id), s, rec, fault)
    ensures OutsideSame(before, t, KeyOf(path, n.id)) && NodesFit(env, [n], input, outputs, path, t)
    ensures rec.state == InvocationState.Succeeded ==>
      NodePassed(env, n, input, outputs, outputs[n.id := rec.output.value], path, t)
    ensures CleanBelow(s, KeyOf(path, n.id)) ==> Clean(t, KeyOf(path, n.id))
  {
    hide InstrFits, EvalNode, NamedInstr, OutsideSame, CleanBelow, Clean, Harmless, HarmlessBelow, RecordedError, Closes, Explained, OnlyAt;
    var key := KeyOf(path, n.id);
    ControlFits(env, n, input, outputs, path, given, s, t, rec, fault);
    ClosesOnlyAt(s, t, key, rec, fault);
    OwnKeyOnly(s, t, key);
    OutsideTrans(before, s, t, key);
  }

  lemma OwnKeyOnly(s: Sight, t: Sight, key: Path)
    requires OnlyAt(s, t, key)
    ensures OutsideSame(s, t, key)
  {
    assert Under(key, key);
  }

  // ---------------------------------------------------------------- choices

  lemma EvalChoice(env: Env, instr: Instr, given: Value, key: Path, id: string, body: Body, log: Log)
    requires instr.Choose? && Select(env, instr.cases, instr.fallback, given) == Ok(id)
    requires var i := FindCase(instr.cases, id);
      if i < |instr.cases| then body == instr.cases[i].body
      else instr.fallback.Some? && instr.fallback.value.id == id && body == instr.fallback.value.body
    ensures var inner := EvalBody(env, body, given, CasePath(key, id), log);
      EvalControl(env, instr, given, key, log) == if inner.Ok? then Ok(Selected(id, inner.value)) else Err(inner.error)
  {
    hide Select, EvalNodes;
  }

  /** What the selected body's end means for a choice. */
  lemma ChoiceMeans(env: Env, instr: Instr, given: Value, key: Path, id: string, body: Body, t: Sight, r: Step)
    requires instr.Choose? && Select(env, instr.cases, instr.fallback, given) == Ok(id) && !r.Aborted?
    requires var i := FindCase(instr.cases, id);
      if i < |instr.cases| then body == instr.cases[i].body
      else instr.fallback.Some? && instr.fallback.value.id == id && body == instr.fallback.value.body
    requires Within(t, key, CasePath(key, id))
    requires r.Returned? ==> EvalBody(env, body, given, CasePath(key, id), t.log) == Ok(r.value) && Clean(t, CasePath(key, id))
    requires r.Thrown? ==> EvalBody(env, body, given, CasePath(key, id), t.log) == Err(r.error) && Harmless(t, CasePath(key, id), r.error)
    ensures ControlMeans(env, instr, given, key, t, if r.Returned? then Returned(Selected(id, r.value)) else r)
  {
    hide EvalBody, EvalControl, Select, Clean, CleanBelow, Within, Catchable;
    EvalChoice(env, instr, given, key, id, body, t.log);
    if Clean(t, CasePath(key, id)) {
      WithinClean(t, key, CasePath(key, id));
    }
  }

  // ---------------------------------------------------------------- try

  lemma TryRan(env: Env, instr: Instr, given: Value, key: Path, s: Sight, t: Sight)
    requires instr.Attempt? && ControlReady(env, instr, given, key, s) && s.store[key].control == Some(ControlFrame.Try(None, None))
    requires OutsideSame(s, t, TryPath(key)) && BodyFits(env, instr.body, given, TryPath(key), t)
    ensures ControlReady(env, instr, given, key, t) && OutsideSame(s, t, key) && t.store[key] == s.store[key]
    ensures Clean(t, TryPath(key)) ==> CleanBelow(t, key)
  {
    ChildRan(s, t, key, ["try"]);
    WithinKept(s, t, key, TryPath(key));
    if Clean(t, TryPath(key)) {
      WithinClean(t, key, TryPath(key));
    }
    hide BodyFits;
  }

  /** Nothing kept by the try itself or its body lies under a handler. */
  lemma CatchFree(key: Path, id: string, k: Path)
    ensures !Under(key, k) || k == key || Under(TryPath(key), k) ==> !Under(CatchPath(key, id), k)
  {
    TryCatchApart(key, id);
    LongerPrefix(key, ["catch", id]);
    if Under(TryPath(key), k) && Under(CatchPath(key, id), k) {
      NotBoth(TryPath(key), CatchPath(key, id), k);
    }
  }

  /** Changing the record of a try leaves its body's scope alone. */
  lemma TryUntouched(s: Sight, t: Sight, key: Path)
    requires t.store.Keys == s.store.Keys && t == s.(store := t.store) && key in s.store
    requires forall k :: k in s.store && k != key ==> t.store[k] == s.store[k]
    ensures OnlyAt(s, t, key)
    ensures Clean(s, TryPath(key)) ==> Clean(t, TryPath(key))
  {
    hide Loose;
    assert !(TryPath(key) <= key);
  }

  lemma HandlerChosen(env: Env, instr: Instr, given: Value, key: Path, id: string, error: ForgeError, s: Sight, t: Sight)
    requires instr.Attempt? && ControlReady(env, instr, given, key, s) && s.store[key].control == Some(ControlFrame.Try(None, None))
    requires EvalBody(env, instr.body, given, TryPath(key), s.log) == Err(error) && Catchable(error) && Clean(s, TryPath(key))
    requires id == Handler(instr.catches, instr.otherwise, CaughtCode(error))
    requires t == s.(store := s.store[key := s.store[key].(control := Some(ControlFrame.Try(Some(id), Some(error))))])
    ensures ControlReady(env, instr, given, key, t) && OutsideSame(s, t, key) && Clean(t, TryPath(key))
  {
    hide BodyFits, EvalBody, NamedInstr, Kept, Catchable, Loose, GroupStands, Reaches, OutsideSame, Handled, SameUnder, OnlyAt;
    TryUntouched(s, t, key);
    OwnKeyOnly(s, t, key);
    OnlyAtUnder(s, t, key, TryPath(key));
    BodyFitsFrame(env, instr.body, given, TryPath(key), s, t);
    forall k | k in t.store
      ensures !Under(CatchPath(key, id), k)
    {
      CatchFree(key, id, k);
    }
    var i := FindCatch(instr.catches, id);
    EmptyBodyFits(env, if i < |instr.catches| then instr.catches[i].body else instr.otherwise.body, Handled(env, given, error), CatchPath(key, id), t);
  }

  lemma NotBoth(p: Path, q: Path, k: Path)
    requires Apart(p, q)
    ensures !(p <= k && q <= k)
  {
    var i :| 0 <= i < |p| && i < |q| && p[i] != q[i];
    assert p <= k ==> k[i] == p[i];
  }

  lemma HandlerRan(env: Env, instr: Instr, given: Value, key: Path, id: string, error: ForgeError, s: Sight, t: Sight)
    requires instr.Attempt? && ControlReady(env, instr, given, key, s)
    requires s.store[key].control == Some(ControlFrame.Try(Some(id), Some(error)))
    requires OutsideSame(s, t, CatchPath(key, id))
    requires var i := FindCatch(instr.catches, id);
      if i < |instr.catches| then BodyFits(env, instr.catches[i].body, Handled(env, given, error), CatchPath(key, id), t)
      else instr.otherwise.id == id && BodyFits(env, instr.otherwise.body, Handled(env, given, error), CatchPath(key, id), t)
    ensures ControlReady(env, instr, given, key, t) && OutsideSame(s, t, key)
    ensures EvalBody(env, instr.body, given, TryPath(key), t.log) == Err(error)
    ensures EvalControl(env, instr, given, key, t.log) == EvalHandler(env, instr, id, given, error, key, t.log)
    ensures Clean(t, CatchPath(key, id)) ==> CleanBelow(t, key)
  {
    hide BodyFits, EvalBody, EvalHandler, Kept, Catchable, Loose, NamedInstr, Empty, FindCatch, Handler, GroupStands, Reaches;
    TryCatchApart(key, id);
    ApartSymmetric(TryPath(key), CatchPath(key, id));
    ChildRan(s, t, key, ["catch", id]);
    OutsideUnder(s, t, CatchPath(key, id), TryPath(key));
    SameEmptyClean(s, t, TryPath(key));
    EvalBodyFrame(env, instr.body, given, TryPath(key), s.log, t.log);
    BodyFitsFrame(env, instr.body, given, TryPath(key), s, t);
    assert forall k :: k in t.store && !Under(CatchPath(key, id), k) ==> k in s.store;
  }

  lemma ApartSymmetric(p: Path, q: Path)
    requires Apart(p, q)
    ensures Apart(q, p)
  {
    var i :| 0 <= i < |p| && i < |q| && p[i] != q[i];
    assert q[i] != p[i];
  }

  // ---------------------------------------------------------------- loops

  lemma TurnRan(env: Env, instr: Instr, given: Value, key: Path, n: nat, state: Value, s: Sight, t: Sight)
    requires instr.Repeat? && ControlReady(env, instr, given, key, s) && s.store[key].control == Some(ControlFrame.Loop(n, state))
    requires n < instr.limit && Truth(env, instr.condition, TurnInput(state, n)) == Ok(true)
    requires OutsideSame(s, t, TurnPath(key, n)) && BodyFits(env, instr.body, TurnInput(state, n), TurnPath(key, n), t)
    ensures ControlReady(env, instr, given, key, t) && OutsideSame(s, t, key) && t.store[key] == s.store[key]
    ensures Clean(t, TurnPath(key, n)) ==> CleanBelow(t, key)
  {
    hide BodyFits, Reaches, EvalBody, Empty, Clean, CleanBelow, NamedInstr, Truth, OutsideSame, SameUnder, Kept, Catchable, Loose, GroupStands;
    ChildRan(s, t, key, ["iterations", Decimal(n)]);
    forall m: nat | m != n
      ensures SameLog(s.log, t.log, TurnPath(key, m))
      ensures Empty(s, TurnPath(key, m)) ==> Empty(t, TurnPath(key, m))
      ensures Clean(s, TurnPath(key, m)) ==> Clean(t, TurnPath(key, m))
    {
      TurnsApart(key, n, m);
      OutsideUnder(s, t, TurnPath(key, n), TurnPath(key, m));
      UnderBelow(s, t, TurnPath(key, m));
      SameEmptyClean(s, t, TurnPath(key, m));
    }
    ReachesFrame(env, instr, given, 0, state, n, key, s.log, t.log);
    forall k | k in t.store && key <= k
      ensures k == key || InTurn(key, n, k)
    {
      if Under(TurnPath(key, n), k) {
        assert TurnPath(key, n) <= k;
      } else {
        KeptOutside(s, t, TurnPath(key, n), k);
      }
    }
    if Clean(t, TurnPath(key, n)) {
      AllTurnsClean(key, n, t);
    }
  }

  lemma KeptOutside(s: Sight, t: Sight, p: Path, k: Path)
    requires OutsideSame(s, t, p) && !Under(p, k)
    ensures k in s.store <==> k in t.store
  {
  }

  lemma OutsideSelf(s: Sight, p: Path)
    ensures OutsideSame(s, s, p)
  {
  }

  lemma LoopFrame(env: Env, instr: Instr, given: Value, key: Path, s: Sight)
    requires instr.Repeat? && ControlReady(env, instr, given, key, s)
    ensures s.store[key].control.Some? && s.store[key].control.value.Loop? && s.store[key].control.value.iteration <= instr.limit
  {
  }

  lemma LoopBody(env: Env, instr: Instr, given: Value, key: Path, s: Sight)
    requires instr.Repeat? && ControlReady(env, instr, given, key, s)
    ensures var frame := s.store[key].control.value;
      Named(instr.body, s.guarded) && BodyFits(env, instr.body, TurnInput(frame.state, frame.iteration), TurnPath(key, frame.iteration), s)
  {
    LoopFrame(env, instr, given, key, s);
    hide BodyFits, Reaches;
  }

  /** A loop in progress means what its saved turn means. */
  lemma LoopMeans(env: Env, instr: Instr, given: Value, key: Path, s: Sight)
    requires instr.Repeat? && ControlReady(env, instr, given, key, s)
    ensures var frame := s.store[key].control.value;
      EvalControl(env, instr, given, key, s.log) == EvalTurns(env, instr, frame.state, frame.iteration, key, s.log)
  {
    LoopFrame(env, instr, given, key, s);
    hide BodyFits;
    SavedTurnMeansTheSame(env, instr, given, 0, s.store[key].control.value.state, s.store[key].control.value.iteration, key, s.log);
  }

  /** What the evaluator does at a turn it does not take. */
  lemma TurnEnds(env: Env, instr: Instr, state: Value, n: nat, key: Path, log: Log)
    requires instr.Repeat?
    ensures var go := Truth(env, instr.condition, TurnInput(state, n));
      && (go.Err? ==> EvalTurns(env, instr, state, n, key, log) == Err(go.error))
      && (go == Ok(false) ==> EvalTurns(env, instr, state, n, key, log) == Ok(state))
      && (go == Ok(true) && n >= instr.limit ==>
            EvalTurns(env, instr, state, n, key, log) == if instr.returnLast then Ok(state) else Err(Plain("control.iteration_limit")))
  {
  }

  lemma ReadyDrifts(env: Env, instr: Instr, given: Value, key: Path, s: Sight, t: Sight)
    requires ControlReady(env, instr, given, key, s) && Drifted(s, t)
    ensures ControlReady(env, instr, given, key, t) && OutsideSame(s, t, key)
    ensures CleanBelow(s, key) ==> CleanBelow(t, key)
  {
    hide InstrFits, NamedInstr, Loose;
    InstrFitsFrame(env, instr, s.store[key], given, key, s, t);
  }

  lemma TurnFails(env: Env, instr: Instr, state: Value, n: nat, key: Path, log: Log)
    requires instr.Repeat? && n < instr.limit && Truth(env, instr.condition, TurnInput(state, n)) == Ok(true)
    ensures var turn := EvalBody(env, instr.body, TurnInput(state, n), TurnPath(key, n), log);
      turn.Err? ==> EvalTurns(env, instr, state, n, key, log) == Err(turn.error)
  {
  }

  lemma AllTurnsClean(key: Path, n: nat, t: Sight)
    requires forall k :: k in t.store && key <= k ==> k == key || InTurn(key, n, k)
    requires forall m :: 0 <= m <= n ==> Clean(t, TurnPath(key, m))
    ensures CleanBelow(t, key)
  {
    forall k | k in t.store && key < k
      ensures !Loose(t.store[k], t.guarded)
    {
      assert InTurn(key, n, k);
      var m :| 0 <= m <= n && TurnPath(key, m) <= k;
      assert Clean(t, TurnPath(key, m));
    }
  }

  /** A turn that never started leaves everything below the loop clean. */
  lemma TurnsClean(env: Env, instr: Instr, given: Value, key: Path, s: Sight)
    requires instr.Repeat? && ControlReady(env, instr, given, key, s)
    requires var frame := s.store[key].control.value;
      Truth(env, instr.condition, TurnInput(frame.state, frame.iteration)) != Ok(true) || frame.iteration >= instr.limit
    ensures CleanBelow(s, key)
  {
    var n := s.store[key].control.value.iteration;
    hide BodyFits, Reaches;
    assert Empty(s, TurnPath(key, n));
    AllTurnsClean(key, n, s);
  }

  /** The next turn's frame agrees as soon as the turn is confirmed. */
  lemma TurnSaved(env: Env, instr: Instr, given: Value, key: Path, n: nat, state: Value, next: Value, s: Sight, t: Sight)
    requires instr.Repeat? && ControlReady(env, instr, given, key, s) && s.store[key].control == Some(ControlFrame.Loop(n, state))
    requires n < instr.limit && Truth(env, instr.condition, TurnInput(state, n)) == Ok(true)
    requires EvalBody(env, instr.body, TurnInput(state, n), TurnPath(key, n), s.log) == Ok(next) && Clean(s, TurnPath(key, n))
    requires t == s.(store := s.store[key := s.store[key].(control := Some(ControlFrame.Loop(n + 1, next)))])
    ensures ControlReady(env, instr, given, key, t) && OutsideSame(s, t, key)
  {
    hide BodyFits, Reaches, EvalBody, Empty, Clean, InTurn, NamedInstr, Truth, OutsideSame, Kept, Catchable, Loose, GroupStands;
    OneMoreTurn(env, instr, given, 0, state, n, key, s.log, next);
    OwnKeyOnly(s, t, key);
    forall m: nat
      ensures Empty(s, TurnPath(key, m)) ==> Empty(t, TurnPath(key, m))
      ensures Clean(s, TurnPath(key, m)) ==> Clean(t, TurnPath(key, m))
    {
      TurnUntouched(s, t, key, m);
    }
    assert Empty(s, TurnPath(key, n + 1));
    EmptyBodyFits(env, instr.body, TurnInput(next, n + 1), TurnPath(key, n + 1), t);
    forall k | k in t.store && key <= k
      ensures k == key || InTurn(key, n + 1, k)
    {
      if k != key {
        TurnWidens(key, n, k);
      }
    }
  }

  /** A control's own record lies in none of its turns. */
  lemma TurnUntouched(s: Sight, t: Sight, key: Path, m: nat)
    requires OnlyAt(s, t, key)
    ensures Empty(s, TurnPath(key, m)) ==> Empty(t, TurnPath(key, m))
    ensures Clean(s, TurnPath(key, m)) ==> Clean(t, TurnPath(key, m))
  {
    assert !(TurnPath(key, m) <= key);
  }

  lemma TurnWidens(key: Path, n: nat, k: Path)
    requires InTurn(key, n, k)
    ensures InTurn(key, n + 1, k)
  {
    var m :| 0 <= m <= n && TurnPath(key, m) <= k;
    assert 0 <= m <= n + 1;
  }

  /** A node that fails ends its body with the same error. */
  lemma BodyFailed(env: Env, body: Body, i: nat, input: Value, outs: seq<map<string, Value>>, path: Path, s: Sight, e: ForgeError)
    requires i < |body.nodes| && Passed(env, body.nodes, i, input, outs, path, s) && BodyFits(env, body, input, path, s)
    requires NodeFails(env, body.nodes[i], input, outs[i], path, s.log, e) && Harmless(s, KeyOf(path, body.nodes[i].id), e)
    requires NoneOf(body.nodes[i + 1..], path, s)
    ensures EvalBody(env, body, input, path, s.log) == Err(e) && Harmless(s, path, e)
  {
    PassedMeans(env, body, i, 0, input, outs, path, s);
    assert body.nodes[0..] == body.nodes && body.nodes[i..][0] == body.nodes[i];
    if Clean(s, KeyOf(path, body.nodes[i].id)) {
      BodyClean(env, body, i, input, outs, path, s);
    }
    hide NodesFit, Passed;
  }

  /** Every node confirmed: the body means its output over their values. */
  lemma BodyDone(env: Env, body: Body, input: Value, outs: seq<map<string, Value>>, path: Path, s: Sight)
    requires Passed(env, body.nodes, |body.nodes|, input, outs, path, s) && BodyFits(env, body, input, path, s)
    ensures EvalBody(env, body, input, path, s.log) == env.evaluate(body.output, input, outs[|body.nodes|]) && Clean(s, path)
    ensures AllConfirmed(body, path, s.store)
  {
    forall i | 0 <= i < |body.nodes|
      ensures Confirmed(s.store, KeyOf(path, body.nodes[i].id))
    {
      assert NodePassed(env, body.nodes[i], input, outs[i], outs[i + 1], path, s);
    }
    PassedMeans(env, body, |body.nodes|, 0, input, outs, path, s);
    assert body.nodes[0..] == body.nodes && body.nodes[|body.nodes|..] == [];
    BodyClean(env, body, |body.nodes|, input, outs, path, s);
    hide NodesFit, Passed;
  }

  // ---------------------------------------------------------------- groups

  /** A child outcome that a group may complete with. */
  predicate Collected(r: Result1, failFast: bool) {
    r.Err? ==> !failFast && !IsUnknown(r.error)
  }

  lemma {:induction false} JoinedOk(results: seq<Result1>, failFast: bool)
    requires forall j :: 0 <= j < |results| ==> Collected(results[j], failFast)
    ensures Joined(results, failFast).Ok?
  {
    if results != [] {
      JoinedOk(results[1..], failFast);
    }
  }

  function Values(results: seq<Option<Result1>>): seq<Result1>
    requires forall j :: 0 <= j < |results| ==> results[j].Some?
  {
    seq(|results|, j requires 0 <= j < |results| => results[j].value)
  }

  /** What the scheduler knows so far agrees with the evaluator, child by child. */
  ghost predicate GroupResults(env: Env, instr: Instr, given: Value, key: Path, log: Log, results: seq<Option<Result1>>)
    requires IsGroup(instr)
  {
    && |results| <= ChildCount(env, instr, given)
    && forall j :: 0 <= j < |results| && results[j].Some? ==>
         results[j].value == EvalChild(env, instr, given, key, j, log) && Collected(results[j].value, instr.failFast)
  }

  lemma {:induction false} EvalBranchesAt(env: Env, branches: seq<Branch>, input: Value, key: Path, log: Log, j: nat)
    requires j < |branches|
    ensures EvalBranches(env, branches, input, key, log)[j] == EvalBody(env, branches[j].body, input, BranchPath(key, branches[j].id), log)
    decreases j
  {
    if j > 0 {
      EvalBranchesAt(env, branches[1..], input, key, log, j - 1);
    }
  }

  lemma ForkMeans(env: Env, instr: Instr, given: Value, key: Path, log: Log, results: seq<Option<Result1>>)
    requires instr.Fork? && GroupResults(env, instr, given, key, log, results) && |results| == |instr.branches|
    requires forall j :: 0 <= j < |results| ==> results[j].Some?
    ensures EvalControl(env, instr, given, key, log) == Ok(Object(BranchFields(env, instr.branches, Values(results))))
  {
    var evaluated := EvalBranches(env, instr.branches, given, key, log);
    forall j | 0 <= j < |results|
      ensures evaluated[j] == Values(results)[j]
    {
      EvalBranchesAt(env, instr.branches, given, key, log, j);
    }
    hide EvalBody, EvalBranches;
    assert evaluated == Values(results);
    JoinedOk(evaluated, instr.failFast);
  }

  lemma {:induction false} EvalItemsAt(env: Env, body: Body, values: seq<Value>, n: nat, context: Value, key: Path, log: Log, j: nat)
    requires j < |values|
    ensures EvalItems(env, body, values, n, context, key, log)[j] == EvalBody(env, body, ItemInput(context, values[j], n + j), ItemPath(key, n + j), log)
    decreases j
  {
    if j > 0 {
      EvalItemsAt(env, body, values[1..], n + 1, context, key, log, j - 1);
    }
  }

  lemma EachMeans(env: Env, instr: Instr, values: seq<Value>, given: Value, key: Path, log: Log, results: seq<Option<Result1>>)
    requires instr.Each? && ItemsOf(env, instr.items, given) == Ok(values)
    requires GroupResults(env, instr, given, key, log, results) && |results| == |values|
    requires forall j :: 0 <= j < |results| ==> results[j].Some?
    ensures EvalControl(env, instr, given, key, log) == Ok(Array(ItemEntries(env, Values(results))))
  {
    var evaluated := EvalItems(env, instr.body, values, 0, given, key, log);
    forall j | 0 <= j < |results|
      ensures evaluated[j] == Values(results)[j]
    {
      EvalItemsAt(env, instr.body, values, 0, given, key, log, j);
    }
    hide EvalBody, EvalItems;
    assert evaluated == Values(results);
    JoinedOk(evaluated, instr.failFast);
  }

  /** The value of a group that completes with these results. */
  function GroupValue(env: Env, instr: Instr, results: seq<Result1>): Value
    requires IsGroup(instr) && (instr.Fork? ==> |results| == |instr.branches|)
  {
    if instr.Fork? then Object(BranchFields(env, instr.branches, results)) else Array(ItemEntries(env, results))
  }

  lemma GroupMeans(env: Env, instr: Instr, given: Value, key: Path, log: Log, results: seq<Option<Result1>>)
    requires IsGroup(instr) && (instr.Each? ==> ItemsOf(env, instr.items, given).Ok?)
    requires GroupResults(env, instr, given, key, log, results) && |results| == ChildCount(env, instr, given)
    requires forall j :: 0 <= j < |results| ==> results[j].Some?
    ensures EvalControl(env, instr, given, key, log) == Ok(GroupValue(env, instr, Values(results)))
  {
    if instr.Fork? {
      ForkMeans(env, instr, given, key, log, results);
    } else {
      EachMeans(env, instr, ItemsOf(env, instr.items, given).value, given, key, log, results);
    }
    hide EvalControl, GroupResults, ItemsOf;
  }

  /** This child's last commit lay before `ended`, and its result is what it meant then. */
  ghost predicate EndedAt(env: Env, instr: Instr, given: Value, key: Path, trace: seq<Sight>, who: seq<Mover>, j: nat, ended: nat, r: Option<Result1>)
    requires IsGroup(instr) && j < ChildCount(env, instr, given) && |trace| == |who| + 1
  {
    && ended <= |who| && Child(j) !in who[ended..]
    && r == Some(EvalChild(env, instr, given, key, j, trace[ended].log)) && Collected(r.value, instr.failFast)
  }

  /**
   A group whose children ran at once. Each child ended at its own moment of any interleaving; the
   results collected at those moments are what the plain evaluator computes when the last has ended.
   */
  lemma ConcurrentJoin(env: Env, instr: Instr, given: Value, key: Path, trace: seq<Sight>, who: seq<Mover>, ended: seq<nat>,
                       results: seq<Option<Result1>>)
    requires IsGroup(instr) && (instr.Fork? ==> DistinctBranches(instr.branches)) && (instr.Each? ==> ItemsOf(env, instr.items, given).Ok?)
    requires |trace| == |who| + 1 && ChildrenFit(env, instr, given, key, trace[0])
    requires forall i :: 0 <= i < |who| ==> Moved(env, instr, given, key, who[i], trace[i], trace[i + 1])
    requires |results| == |ended| == ChildCount(env, instr, given)
    requires forall j :: 0 <= j < |results| ==> EndedAt(env, instr, given, key, trace, who, j, ended[j], results[j])
    ensures forall j :: 0 <= j < |results| ==> results[j].Some?
    ensures EvalControl(env, instr, given, key, trace[|who|].log) == Ok(GroupValue(env, instr, Values(results)))
  {
    hide Moved, ChildrenFit, EvalChild, EvalControl, ItemsOf, DistinctBranches, Collected;
    forall j | 0 <= j < |results|
      ensures results[j] == Some(EvalChild(env, instr, given, key, j, trace[|who|].log)) && Collected(results[j].value, instr.failFast)
    {
      assert EndedAt(env, instr, given, key, trace, who, j, ended[j], results[j]);
      Interleaved(env, instr, given, key, trace, who, 0, ended[j]);
      Interleaved(env, instr, given, key, trace, who, ended[j], |who|);
      assert who[ended[j]..|who|] == who[ended[j]..];
    }
    assert GroupResults(env, instr, given, key, trace[|who|].log, results);
    GroupMeans(env, instr, given, key, trace[|who|].log, results);
  }

  /** A group's frame, its account and the agreement of each of its children. */
  lemma GroupParts(env: Env, instr: Instr, given: Value, key: Path, s: Sight)
    requires IsGroup(instr) && ControlReady(env, instr, given, key, s)
    ensures s.store[key].control.Some? && Groups.IsGroup(s.store[key].control.value)
    ensures instr.Fork? ==> s.store[key].control.value.Parallel? && DistinctBranches(instr.branches)
    ensures instr.Each? ==> s.store[key].control.value.Foreach? && ItemsOf(env, instr.items, given).Ok?
    ensures GroupStands(env, instr, s.store[key].control.value, given, key, s.Throws(key)) && ChildrenFit(env, instr, given, key, s)
  {
    hide BodyFits, GroupStands, ItemsOf, Named;
  }

  lemma GroupWhole(env: Env, instr: Instr, given: Value, key: Path, s: Sight)
    requires IsGroup(instr) && NamedInstr(instr, s.guarded) && key in s.store && !Final(s.store, key) && key !in s.log
    requires s.store[key].effect.None? && s.store[key].input == given && s.store[key].control.Some?
    requires if instr.Fork? then s.store[key].control.value.Parallel?
             else s.store[key].control.value.Foreach? && ItemsOf(env, instr.items, given).Ok?
    requires GroupStands(env, instr, s.store[key].control.value, given, key, s.Throws(key)) && ChildrenFit(env, instr, given, key, s)
    ensures ControlReady(env, instr, given, key, s)
  {
    hide BodyFits, GroupStands, ItemsOf, NamedInstr;
    if instr.Fork? {
      forall i | 0 <= i < |instr.branches|
        ensures BodyFits(env, instr.branches[i].body, given, BranchPath(key, instr.branches[i].id), s)
      {
        assert ChildFits(env, instr, given, key, i, s);
      }
    } else {
      var values := ItemsOf(env, instr.items, given).value;
      forall i | 0 <= i < |values|
        ensures BodyFits(env, instr.body, ItemInput(given, values[i], i), ItemPath(key, i), s)
      {
        assert ChildFits(env, instr, given, key, i, s);
      }
    }
  }

  lemma ChildNamed(env: Env, instr: Instr, given: Value, i: nat, guarded: bool)
    requires IsGroup(instr) && NamedInstr(instr, guarded) && i < ChildCount(env, instr, given)
    ensures Named(ChildBody(instr, i), guarded)
  {
  }

  /** Where the scope of a child lies. */
  lemma ChildBelow(instr: Instr, key: Path, i: nat) returns (q: Path)
    requires IsGroup(instr) && (instr.Fork? ==> i < |instr.branches|)
    ensures ChildPath(instr, key, i) == key + q && q != []
  {
    q := if instr.Fork? then ["branches", instr.branches[i].id] else ["items", Decimal(i)];
  }

  /** A throw of a child before index `i` that the evaluator still confirms, or the reason an earlier lifetime stopped for. */
  ghost predicate ThrowStands(env: Env, instr: Instr, given: Value, key: Path, first: Option<ForgeError>, i: nat, log: Log, e: ForgeError, t: Throw)
    requires IsGroup(instr)
  {
    && t.error == e
    && (first == Some(e) || (t.child < i && t.child < ChildCount(env, instr, given) && EvalChild(env, instr, given, key, t.child, log) == Err(e)))
  }

  /**
   The failure a group leaves with, after its first `i` children. One that may be caught was thrown
   by a child; if an earlier lifetime stopped the group, its reason is outranked only by boundaries
   and stays in the frame.
   */
  ghost predicate FailureStands(env: Env, instr: Instr, given: Value, key: Path, first: Option<ForgeError>, i: nat, s: Sight, failed: Option<ForgeError>)
    requires IsGroup(instr)
  {
    && (failed.Some? && Catchable(failed.value) ==>
          exists t :: t in s.Throws(key) && ThrowStands(env, instr, given, key, first, i, s.log, failed.value, t))
    && (first.Some? ==>
          && (failed == first || failed == Some(UnknownError()) || failed == Some(LimitError()))
          && FrameError(s, key) == first)
  }

  function FrameError(s: Sight, key: Path): Option<ForgeError> {
    if key in s.store && s.store[key].control.Some? && Groups.IsGroup(s.store[key].control.value) then s.store[key].control.value.error
    else None
  }

  /** How a group may leave: a failure that may be caught is a child's, and a persisted reason is reported again. */
  ghost predicate GroupLeaves(env: Env, instr: Instr, given: Value, key: Path, first: Option<ForgeError>, t: Sight, r: Step)
    requires IsGroup(instr)
  {
    && (r.Aborted? && Catchable(r.error) ==>
          exists w :: w in t.Throws(key) && ThrowStands(env, instr, given, key, first, ChildCount(env, instr, given), t.log, r.error, w))
    && (first.Some? ==>
          && (r.Down? || r == Aborted(first.value) || r == Aborted(UnknownError()) || r == Aborted(LimitError()))
          && FrameError(t, key) == first)
  }

  /** A child ran in its own scope: the group and the other children stand where they stood. */
  lemma GroupChildRan(env: Env, instr: Instr, given: Value, key: Path, i: nat, results: seq<Option<Result1>>, s: Sight, t: Sight)
    requires IsGroup(instr) && ControlReady(env, instr, given, key, s) && i < ChildCount(env, instr, given) && |results| <= i
    requires OutsideSame(s, t, ChildPath(instr, key, i)) && ChildFits(env, instr, given, key, i, t)
    ensures ControlReady(env, instr, given, key, t) && OutsideSame(s, t, key)
    ensures t.store[key] == s.store[key] && t.Throws(key) == s.Throws(key) && key !in t.log
    ensures GroupResults(env, instr, given, key, s.log, results) ==> GroupResults(env, instr, given, key, t.log, results)
    ensures forall first, failed :: FailureStands(env, instr, given, key, first, i, s, failed) ==>
      FailureStands(env, instr, given, key, first, i, t, failed)
  {
    hide InstrFits, BodyFits, EvalBody, OutsideSame, ChildFits, EvalChild, GroupStands, ItemsOf, NamedInstr, ChildPath, FailureStands;
    var q := ChildBelow(instr, key, i);
    ChildRan(s, t, key, q);
    GroupParts(env, instr, given, key, s);
    forall j | 0 <= j < ChildCount(env, instr, given)
      ensures ChildFits(env, instr, given, key, j, t)
      ensures j != i ==> EvalChild(env, instr, given, key, j, s.log) == EvalChild(env, instr, given, key, j, t.log)
    {
      if j != i {
        assert ChildFits(env, instr, given, key, j, s);
        assert Moved(env, instr, given, key, Child(i), s, t);
        OthersUnmoved(env, instr, given, key, Child(i), s, t, j);
      }
    }
    GroupWhole(env, instr, given, key, t);
    forall first, failed | FailureStands(env, instr, given, key, first, i, s, failed)
      ensures FailureStands(env, instr, given, key, first, i, t, failed)
    {
      FailureKept(env, instr, given, key, first, i, i, s, t, failed);
    }
  }

  /** A failure stands while the meaning of the children before it, their throws and the frame do. */
  lemma FailureKept(env: Env, instr: Instr, given: Value, key: Path, first: Option<ForgeError>, i: nat, j: nat, s: Sight, t: Sight, failed: Option<ForgeError>)
    requires IsGroup(instr) && i <= j && FailureStands(env, instr, given, key, first, i, s, failed)
    requires forall k :: 0 <= k < i && k < ChildCount(env, instr, given) ==>
      EvalChild(env, instr, given, key, k, s.log) == EvalChild(env, instr, given, key, k, t.log)
    requires s.Throws(key) <= t.Throws(key) && (FrameError(s, key).Some? ==> FrameError(t, key) == FrameError(s, key))
    ensures FailureStands(env, instr, given, key, first, j, t, failed)
  {
    hide EvalChild, FrameError, Catchable, ItemsOf;
    if failed.Some? && Catchable(failed.value) {
      var w :| w in s.Throws(key) && ThrowStands(env, instr, given, key, first, i, s.log, failed.value, w);
      assert w in t.Throws(key) && ThrowStands(env, instr, given, key, first, j, t.log, failed.value, w);
    }
  }

  /** The failure of a group is explained. */
  lemma FailureExplained(env: Env, instr: Instr, given: Value, key: Path, first: Option<ForgeError>, i: nat, s: Sight, e: ForgeError)
    requires IsGroup(instr) && ControlReady(env, instr, given, key, s) && FailureStands(env, instr, given, key, first, i, s, Some(e))
    ensures Explained(env, instr, s.store[key].control, given, key, s, e)
  {
    hide InstrFits, ThrownBy, NamedInstr, Catchable, ThrowStands, FrameError;
    GroupParts(env, instr, given, key, s);
    if Catchable(e) {
      var t :| t in s.Throws(key) && ThrowStands(env, instr, given, key, first, i, s.log, e, t);
      assert t.error == e by { ThrowError(env, instr, given, key, first, i, s.log, e, t); }
    }
  }

  lemma ThrowError(env: Env, instr: Instr, given: Value, key: Path, first: Option<ForgeError>, i: nat, log: Log, e: ForgeError, t: Throw)
    requires IsGroup(instr) && ThrowStands(env, instr, given, key, first, i, log, e, t)
    ensures t.error == e
  {
  }

  /** Changing a group's own frame and account keeps its children where they are. */
  lemma GroupSaved(env: Env, instr: Instr, given: Value, key: Path, s: Sight, t: Sight)
    requires IsGroup(instr) && ControlReady(env, instr, given, key, s) && OnlyAt(s, t, key) && t.log == s.log && key in t.store
    requires t.store[key] == s.store[key].(control := t.store[key].control) && t.store[key].control.Some?
    requires if instr.Fork? then t.store[key].control.value.Parallel? else t.store[key].control.value.Foreach?
    requires GroupStands(env, instr, t.store[key].control.value, given, key, t.Throws(key))
    ensures ControlReady(env, instr, given, key, t) && OutsideSame(s, t, key)
  {
    hide InstrFits, BodyFits, EvalBody, OutsideSame, ChildFits, EvalChild, GroupStands, ItemsOf, NamedInstr, OnlyAt;
    OwnKeyOnly(s, t, key);
    GroupParts(env, instr, given, key, s);
    forall j | 0 <= j < ChildCount(env, instr, given)
      ensures ChildFits(env, instr, given, key, j, t)
    {
      assert ChildFits(env, instr, given, key, j, s);
      OthersUnmoved(env, instr, given, key, Scheduler, s, t, j);
    }
    OnlyAtFlags(s, t, key);
    GroupWhole(env, instr, given, key, t);
  }

  lemma OnlyAtFlags(s: Sight, t: Sight, key: Path)
    requires OnlyAt(s, t, key)
    ensures s.guarded == t.guarded
  {
  }

  /** A reason to stop that may be persisted. */
  ghost predicate Stoppable(throws: set<Throw>, stop: Option<ForgeError>) {
    stop.Some? && Catchable(stop.value) ==> exists t :: t in throws && t.error == stop.value
  }

  /** Progress keeps the account: cursors only grow and the first reason stays. */
  lemma ProgressStands(env: Env, instr: Instr, frame: ControlFrame, given: Value, key: Path, throws: set<Throw>, next: nat, stop: Option<ForgeError>)
    requires Groups.IsGroup(frame) && GroupStands(env, instr, frame, given, key, throws) && Stoppable(throws, stop)
    ensures GroupStands(env, instr, Groups.Progress(frame, next, stop), given, key, throws)
  {
    hide ThrownBy, Catchable;
  }

  lemma ThrowNoted(env: Env, instr: Instr, frame: ControlFrame, given: Value, key: Path, throws: set<Throw>, thrown: Throw)
    requires Groups.IsGroup(frame) && GroupStands(env, instr, frame, given, key, throws)
    requires Admitted(frame, thrown.child) && ThrownBy(env, instr, given, key, thrown)
    ensures GroupStands(env, instr, frame, given, key, throws + {thrown})
  {
    hide ThrownBy, Catchable;
  }

  /** What one child's end adds to what the scheduler knows. */
  datatype ChildOutcome = ChildOutcome(result: Option<Result1>, failed: Option<ForgeError>, suspended: bool, lost: bool,
                                       stopped: Option<ForgeError> := None)

  /** What judging a child may conclude from its end and the failure so far. */
  ghost predicate Judged(r: Step, failFast: bool, failed: Option<ForgeError>, o: ChildOutcome) {
    && (o.failed.None? && o.result.Some? ==>
          && (r.Returned? || r.Thrown?) && o.result.value == (if r.Returned? then Ok(r.value) else Err(r.error))
          && Collected(o.result.value, failFast))
    && (o.stopped.Some? ==> o.stopped == Some(LimitError()) || (r.Thrown? && o.stopped == Some(r.error)))
    && (|| o.failed == failed || o.failed == Some(UnknownError())
        || (failed.None? && (o.failed == Some(LimitError()) || (r.Thrown? && o.failed == Some(r.error)))))
  }

  predicate AdmittedAt(s: Sight, key: Path, i: nat) {
    key in s.store && s.store[key].control.Some? && Admitted(s.store[key].control.value, i)
  }

  lemma ReadyKey(env: Env, instr: Instr, given: Value, key: Path, s: Sight)
    requires ControlReady(env, instr, given, key, s)
    ensures key in s.store
  {
  }

  lemma ResolvedBelow(s: Sight, key: Path)
    requires forall k :: k in s.store && key < k ==> !s.store[k].Unresolved()
    ensures CleanBelow(s, key)
  {
  }

  lemma ChildReady(env: Env, instr: Instr, given: Value, key: Path, i: nat, s: Sight)
    requires IsGroup(instr) && ChildrenFit(env, instr, given, key, s) && i < ChildCount(env, instr, given)
    ensures BodyFits(env, ChildBody(instr, i), ChildInput(env, instr, given, i), ChildPath(instr, key, i), s)
  {
    assert ChildFits(env, instr, given, key, i, s);
    hide BodyFits;
  }

  /** A child's answer is what the evaluator says of it. */
  lemma ChildEnded(env: Env, instr: Instr, given: Value, key: Path, i: nat, s: Sight, r: Step)
    requires IsGroup(instr) && i < ChildCount(env, instr, given)
    requires var path := ChildPath(instr, key, i);
      && BodyFits(env, ChildBody(instr, i), ChildInput(env, instr, given, i), path, s)
      && (r.Returned? ==> EvalBody(env, ChildBody(instr, i), ChildInput(env, instr, given, i), path, s.log) == Ok(r.value))
      && (r.Thrown? ==> EvalBody(env, ChildBody(instr, i), ChildInput(env, instr, given, i), path, s.log) == Err(r.error))
    ensures ChildFits(env, instr, given, key, i, s)
    ensures r.Returned? ==> EvalChild(env, instr, given, key, i, s.log) == Ok(r.value)
    ensures r.Thrown? ==> EvalChild(env, instr, given, key, i, s.log) == Err(r.error)
  {
    hide BodyFits, EvalBody;
  }

  lemma NotedFrame(s: Sight, t: Sight, key: Path)
    requires t.store == s.store
    ensures FrameError(t, key) == FrameError(s, key)
  {
  }

  lemma ResultAdded(env: Env, instr: Instr, given: Value, key: Path, log: Log, results: seq<Option<Result1>>, r: Result1)
    requires IsGroup(instr) && GroupResults(env, instr, given, key, log, results) && |results| < ChildCount(env, instr, given)
    requires r == EvalChild(env, instr, given, key, |results|, log) && Collected(r, instr.failFast)
    ensures GroupResults(env, instr, given, key, log, results + [Some(r)])
  {
    hide EvalChild, Collected, ItemsOf;
  }

  lemma ResultMissing(env: Env, instr: Instr, given: Value, key: Path, log: Log, results: seq<Option<Result1>>)
    requires IsGroup(instr) && GroupResults(env, instr, given, key, log, results) && |results| < ChildCount(env, instr, given)
    ensures GroupResults(env, instr, given, key, log, results + [None])
  {
    hide EvalChild, Collected, ItemsOf;
  }

  // ---------------------------------------------------------------- the failure of a group

  /** A group starts with the reason its frame kept, which the account explains. */
  lemma GroupStarts(env: Env, instr: Instr, given: Value, key: Path, s: Sight)
    requires IsGroup(instr) && ControlReady(env, instr, given, key, s)
    ensures FrameError(s, key).Some? <==> AdmittedFrame(s, key).stopped
    ensures FrameError(s, key) == AdmittedFrame(s, key).error
    ensures FailureStands(env, instr, given, key, FrameError(s, key), 0, s, FrameError(s, key))
    ensures GroupResults(env, instr, given, key, s.log, [])
  {
    hide InstrFits, NamedInstr, Catchable, ThrownBy, EvalChild;
    GroupParts(env, instr, given, key, s);
    if FrameError(s, key).Some? && Catchable(FrameError(s, key).value) {
      var t :| t in s.Throws(key) && t.error == FrameError(s, key).value;
      assert ThrowStands(env, instr, given, key, FrameError(s, key), 0, s.log, FrameError(s, key).value, t);
    }
  }

  function AdmittedFrame(s: Sight, key: Path): ControlFrame {
    if key in s.store && s.store[key].control.Some? && Groups.IsGroup(s.store[key].control.value) then s.store[key].control.value
    else ControlFrame.Parallel([], 0, false, None)
  }

  /** A boundary may take the place of any failure. */
  lemma FailureOutranked(env: Env, instr: Instr, given: Value, key: Path, first: Option<ForgeError>, i: nat, s: Sight, failed: Option<ForgeError>,
                         e: ForgeError)
    requires IsGroup(instr) && FailureStands(env, instr, given, key, first, i, s, failed) && (e == UnknownError() || e == LimitError())
    ensures FailureStands(env, instr, given, key, first, i, s, Some(e))
  {
    NeverCaught();
    hide Catchable, ThrowStands;
  }

  lemma JudgedFailure(env: Env, instr: Instr, given: Value, key: Path, first: Option<ForgeError>, i: nat, s: Sight, r: Step,
                      failed: Option<ForgeError>, o: ChildOutcome)
    requires IsGroup(instr) && i < ChildCount(env, instr, given) && Judged(r, instr.failFast, failed, o)
    requires FailureStands(env, instr, given, key, first, i + 1, s, failed)
    requires r.Thrown? ==> Throw(i, r.error, s.log) in s.Throws(key) && EvalChild(env, instr, given, key, i, s.log) == Err(r.error)
    ensures FailureStands(env, instr, given, key, first, i + 1, s, o.failed)
    ensures o.failed.None? ==> failed.None?
    ensures Stoppable(s.Throws(key), o.stopped)
  {
    hide Catchable, EvalChild, Collected, FrameError, ItemsOf;
    NeverCaught();
    if r.Thrown? && o.failed == Some(r.error) && failed.None? {
      assert ThrowStands(env, instr, given, key, first, i + 1, s.log, r.error, Throw(i, r.error, s.log));
    }
  }

  lemma FailureDrifts(env: Env, instr: Instr, given: Value, key: Path, first: Option<ForgeError>, i: nat, s: Sight, t: Sight, failed: Option<ForgeError>)
    requires IsGroup(instr) && FailureStands(env, instr, given, key, first, i, s, failed) && Drifted(s, t)
    ensures FailureStands(env, instr, given, key, first, i, t, failed)
  {
    NotedFrame(s, t, key);
    FailureKept(env, instr, given, key, first, i, i, s, t, failed);
  }

  lemma GroupLost(env: Env, instr: Instr, given: Value, key: Path, first: Option<ForgeError>, i: nat, t: Sight, failed: Option<ForgeError>)
    requires IsGroup(instr) && FailureStands(env, instr, given, key, first, i, t, failed)
    ensures GroupLeaves(env, instr, given, key, first, t, Down)
  {
    hide FrameError, ThrowStands;
  }

  lemma GroupBounded(env: Env, instr: Instr, given: Value, key: Path, first: Option<ForgeError>, i: nat, t: Sight, failed: Option<ForgeError>,
                     e: ForgeError)
    requires IsGroup(instr) && FailureStands(env, instr, given, key, first, i, t, failed) && e == UnknownError()
    ensures GroupLeaves(env, instr, given, key, first, t, Aborted(e))
  {
    NeverCaught();
    hide FrameError, ThrowStands, Catchable;
  }

  lemma GroupFails(env: Env, instr: Instr, given: Value, key: Path, first: Option<ForgeError>, i: nat, t: Sight, e: ForgeError)
    requires IsGroup(instr) && FailureStands(env, instr, given, key, first, i, t, Some(e)) && i <= ChildCount(env, instr, given)
    ensures GroupLeaves(env, instr, given, key, first, t, Aborted(e))
  {
    hide FrameError, Catchable, EvalChild, ItemsOf;
    if Catchable(e) {
      var w :| w in t.Throws(key) && ThrowStands(env, instr, given, key, first, i, t.log, e, w);
      assert ThrowStands(env, instr, given, key, first, ChildCount(env, instr, given), t.log, e, w);
    }
  }

  /** A group that has not failed was not stopped before: cancellation, waiting and completion are open to it. */
  lemma GroupUnstopped(env: Env, instr: Instr, given: Value, key: Path, first: Option<ForgeError>, i: nat, t: Sight)
    requires IsGroup(instr) && FailureStands(env, instr, given, key, first, i, t, None)
    ensures first.None?
    ensures GroupLeaves(env, instr, given, key, first, t, Aborted(CancelError())) && GroupLeaves(env, instr, given, key, first, t, Parked)
    ensures GroupLeaves(env, instr, given, key, first, t, Down)
  {
    NeverCaught();
    hide FrameError, ThrowStands, Catchable;
  }

  lemma GroupCompletes(env: Env, instr: Instr, given: Value, key: Path, t: Sight, r: Step)
    requires IsGroup(instr) && !r.Aborted?
    ensures GroupLeaves(env, instr, given, key, None, t, r)
  {
    hide FrameError, ThrowStands, Catchable;
  }

  /** Stopping in the middle promises nothing about a control's outcome. */
  lemma DownMeans(env: Env, instr: Instr, given: Value, key: Path, t: Sight)
    requires !instr.Operation? && !instr.Pause?
    ensures ControlMeans(env, instr, given, key, t, Down)
  {
  }

  /** A boundary or the deadline aborts a control that leaves nothing a handler could miss. */
  lemma BoundaryMeans(env: Env, instr: Instr, given: Value, key: Path, t: Sight, e: ForgeError)
    requires ControlReady(env, instr, given, key, t) && (!Catchable(e) || (e == TimeoutError() && t.expired))
    ensures ControlMeans(env, instr, given, key, t, Aborted(e))
  {
    hide Catchable, InstrFits, NamedInstr, CleanBelow;
    BoundaryExplained(env, instr, t.store[key].control, given, key, t, e);
  }

  lemma NothingStored(s: Sight)
    requires s.store == map[]
    ensures Empty(s, [])
  {
  }

  /** The activation commit touches the control's own key only. */
  lemma Activated(s: Sight, t: Sight, key: Path)
    requires key in t.store && t == s.(store := s.store[key := t.store[key]], thrown := s.thrown[key := {}])
    ensures OutsideSame(s, t, key)
  {
    assert Under(key, key);
  }

  /**
   In a checkpoint that agrees, an error observed at a control which a handler may catch, and which
   is not the passing of the deadline, was thrown by an admitted child of a group.
   */
  lemma ObservedFaultWasThrown(env: Env, n: Node, input: Value, outputs: map<string, Value>, path: Path, given: Value, s: Sight)
    requires NodesFit(env, [n], input, outputs, path, s) && env.evaluate(n.input, input, outputs) == Ok(given)
    requires !n.instr.Operation? && !n.instr.Pause? && KeyOf(path, n.id) in s.store
    requires KeyOf(path, n.id) in s.log && s.log[KeyOf(path, n.id)].Fault?
    requires Catchable(s.log[KeyOf(path, n.id)].error) && s.log[KeyOf(path, n.id)].error != TimeoutError()
    ensures var key, e := KeyOf(path, n.id), s.log[KeyOf(path, n.id)].error;
      IsGroup(n.instr) && exists t :: t in s.Throws(key) && t.error == e && AdmittedAt(s, key, t.child) && ThrownBy(env, n.instr, given, key, t)
  {
    hide EvalNode, InstrFits, EvalChild, Catchable;
    var key := KeyOf(path, n.id);
    assert FaultExplained(env, n.instr, s.store[key].control, given, key, s);
  }
}
