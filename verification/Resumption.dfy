/**
 When a checkpoint agrees with the plain meaning of a body: every confirmed or failed node
 has the outcome the evaluator computes, and every saved frame says where the evaluator is.
 Both the meaning and the agreement depend only on what lies under the body's own path.
 */
module Resumption {
  import opened Wrappers
  import opened Json
  import opened Protocol
  import opened Programs
  import D = Dispatch
  import G = Groups

  /** An operation where its last lifetime left it; `opens` marks the start of a wait. */
  datatype Effect = Effect(op: D.OpPlan, opens: bool, last: D.Snap)

  /** A stored record: of a control, of a wait, or what an operation's protocol shows. */
  datatype Rec = Rec(state: InvocationState, input: Value, output: Option<Value>, error: Option<ForgeError>,
                     control: Option<ControlFrame>, effect: Option<Effect>)
  {
    predicate Unresolved() {
      effect.Some? && effect.value.last.cell.record.Some? && effect.value.last.cell.record.value.IsUnresolved()
    }
  }

  type Store = map<Path, Rec>

  /** A child of a group that threw: which one, its error, and what was observed at that moment. */
  datatype Throw = Throw(child: nat, error: ForgeError, log: Log)

  /**
   The store, the last observations, an account of what children of groups threw, and whether the
   run is past its deadline. In a guarded run no wait is opened by a start that may hide its effect.
   */
  datatype Sight = Sight(store: Store, log: Log, thrown: map<Path, set<Throw>>, expired: bool, guarded: bool)
  {
    function Throws(key: Path): set<Throw> { if key in thrown then thrown[key] else {} }
  }

  /** What an operation's protocol shows of it. */
  function Shown(op: D.OpPlan, opens: bool, last: D.Snap): Rec
    requires last.cell.record.Some?
  {
    var r := last.cell.record.value;
    Rec(r.state, r.input, r.output, r.error, None, Some(Effect(op, opens, last)))
  }

  ghost predicate Reached(op: D.OpPlan, last: D.Snap) {
    exists h :: h != [] && D.History(op, h) && h[|h| - 1] == last
  }

  /** A record that is what some history of its operation's protocol shows. */
  ghost predicate Kept(op: D.OpPlan, opens: bool, r: Rec) {
    && r.effect.Some? && r.effect.value.last.cell.record.Some? && r.effect.value.last.cell.task == None
    && r == Shown(op, opens, r.effect.value.last) && Reached(op, r.effect.value.last)
  }

  /** An effect without a confirmed result; only in an unguarded run, a start that may hide is not counted. */
  predicate Loose(r: Rec, guarded: bool) {
    r.Unresolved() && (guarded || !r.effect.value.opens || !r.effect.value.op.MayHide())
  }

  ghost predicate Empty(s: Sight, p: Path) {
    forall k :: k in s.store ==> !(p <= k)
  }

  /** Nothing under a path may still be an effect without a confirmed result. */
  ghost predicate Clean(s: Sight, p: Path) {
    forall k :: k in s.store && p <= k ==> !Loose(s.store[k], s.guarded)
  }

  /** An error that may be handled leaves nothing loose behind, unless the deadline outranks the handler. */
  ghost predicate Harmless(s: Sight, p: Path, e: ForgeError) {
    Clean(s, p) || !Catchable(e) || s.expired
  }

  function RecordedError(r: Rec): ForgeError {
    if r.error.Some? then r.error.value else Plain("operation.failed")
  }

  predicate Settled(r: Rec) {
    r.state == InvocationState.Failed || r.state == InvocationState.Cancelled
  }

  // ---------------------------------------------------------------- distinct identifiers

  predicate DistinctNodes(nodes: seq<Node>) {
    forall i, j :: 0 <= i < j < |nodes| ==> nodes[i].id != nodes[j].id
  }

  predicate DistinctBranches(branches: seq<Branch>) {
    forall i, j :: 0 <= i < j < |branches| ==> branches[i].id != branches[j].id
  }

  /** What preparation has checked: identifiers are distinct, retry policies allow an attempt, and the guard is kept. */
  predicate Named(body: Body, guarded: bool)
    decreases body
  {
    DistinctNodes(body.nodes) && forall i :: 0 <= i < |body.nodes| ==> NamedInstr(body.nodes[i].instr, guarded)
  }

  predicate NamedInstr(instr: Instr, guarded: bool)
    decreases instr
  {
    match instr
    case Operation(op) => op.retry.maxAttempts >= 1
    case Pause(start) =>
      start.Some? ==> start.value.op.retry.maxAttempts >= 1 && (guarded ==> !start.value.op.MayHide())
    case Choose(cases, fallback) =>
      (forall i :: 0 <= i < |cases| ==> Named(cases[i].body, guarded)) && (fallback.Some? ==> Named(fallback.value.body, guarded))
    case Attempt(body, catches, otherwise) =>
      Named(body, guarded) && (forall i :: 0 <= i < |catches| ==> Named(catches[i].body, guarded)) && Named(otherwise.body, guarded)
    case Repeat(_, body, _, _) => Named(body, guarded)
    case Fork(branches, _) => DistinctBranches(branches) && forall i :: 0 <= i < |branches| ==> Named(branches[i].body, guarded)
    case Each(_, body, _) => Named(body, guarded)
    case Call(_, _, body) => Named(body, guarded)
  }

  // ---------------------------------------------------------------- children of groups

  predicate IsGroup(instr: Instr) { instr.Fork? || instr.Each? }

  function ChildCount(env: Env, instr: Instr, input: Value): nat
    requires IsGroup(instr)
  {
    if instr.Fork? then |instr.branches|
    else if ItemsOf(env, instr.items, input).Ok? then |ItemsOf(env, instr.items, input).value| else 0
  }

  function ChildBody(instr: Instr, i: nat): Body
    requires IsGroup(instr) && (instr.Fork? ==> i < |instr.branches|)
  {
    if instr.Fork? then instr.branches[i].body else instr.body
  }

  function ChildInput(env: Env, instr: Instr, input: Value, i: nat): Value
    requires IsGroup(instr) && i < ChildCount(env, instr, input)
  {
    if instr.Fork? then input else ItemInput(input, ItemsOf(env, instr.items, input).value[i], i)
  }

  function ChildPath(instr: Instr, key: Path, i: nat): Path
    requires IsGroup(instr) && (instr.Fork? ==> i < |instr.branches|)
  {
    if instr.Fork? then BranchPath(key, instr.branches[i].id) else ItemPath(key, i)
  }

  /** What the evaluator says of one child. */
  function EvalChild(env: Env, instr: Instr, input: Value, key: Path, i: nat, log: Log): Result1
    requires IsGroup(instr) && i < ChildCount(env, instr, input)
  {
    EvalBody(env, ChildBody(instr, i), ChildInput(env, instr, input, i), ChildPath(instr, key, i), log)
  }

  ghost predicate ThrownBy(env: Env, instr: Instr, input: Value, key: Path, t: Throw) {
    IsGroup(instr) && t.child < ChildCount(env, instr, input) && EvalChild(env, instr, input, key, t.child, t.log) == Err(t.error)
  }

  predicate Admitted(frame: ControlFrame, i: nat) {
    G.IsGroup(frame) && i < frame.nextIndex
  }

  /**
   A group's frame and account: every throw came from an admitted child, and the persisted reason
   for stopping is a boundary no handler may cross or one of these throws.
   */
  ghost predicate GroupStands(env: Env, instr: Instr, frame: ControlFrame, input: Value, key: Path, throws: set<Throw>)
    requires G.IsGroup(frame)
  {
    && (forall t :: t in throws ==> Admitted(frame, t.child) && ThrownBy(env, instr, input, key, t))
    && (frame.stopped <==> frame.error.Some?)
    && (frame.error.Some? ==> Catchable(frame.error.value) ==> exists t :: t in throws && t.error == frame.error.value)
  }

  function TimeoutError(): ForgeError { Plain("operation.timeout") }

  /**
   Where an error at a control comes from when nothing below it threw it: a boundary no handler may
   cross, the deadline, or an admitted child of this group.
   */
  ghost predicate Explained(env: Env, instr: Instr, control: Option<ControlFrame>, input: Value, key: Path, s: Sight, e: ForgeError) {
    || !Catchable(e)
    || (e == TimeoutError() && s.expired)
    || exists t :: t in s.Throws(key) && t.error == e && control.Some? && Admitted(control.value, t.child) && ThrownBy(env, instr, input, key, t)
  }

  // ---------------------------------------------------------------- agreement

  ghost predicate NoneOf(nodes: seq<Node>, path: Path, s: Sight) {
    forall i :: 0 <= i < |nodes| ==> Empty(s, KeyOf(path, nodes[i].id))
  }

  /** Everything stored below a control lies under the given child scope. */
  ghost predicate Within(s: Sight, key: Path, child: Path) {
    forall k :: k in s.store && key <= k ==> k == key || child <= k
  }

  predicate InBody(nodes: seq<Node>, path: Path, k: Path) {
    exists i :: 0 <= i < |nodes| && KeyOf(path, nodes[i].id) <= k
  }

  ghost predicate BodyFits(env: Env, body: Body, input: Value, path: Path, s: Sight)
    decreases body, 0
  {
    && (forall k :: k in s.store && path <= k ==> InBody(body.nodes, path, k))
    && NodesFit(env, body.nodes, input, map[], path, s)
  }

  ghost predicate NodesFit(env: Env, nodes: seq<Node>, input: Value, outputs: map<string, Value>, path: Path, s: Sight)
    decreases nodes
  {
    if nodes == [] then true
    else
      var n := nodes[0];
      var key := KeyOf(path, n.id);
      if key !in s.store then Empty(s, key) && NoneOf(nodes[1..], path, s)
      else
        match env.evaluate(n.input, input, outputs)
        case Err(_) => false
        case Ok(given) =>
          var r := s.store[key];
          (n.instr.Operation? || n.instr.Pause? || FaultExplained(env, n.instr, r.control, given, key, s))
          &&
          if r.state == InvocationState.Succeeded then
            && r.output.Some? && EvalNode(env, n, given, key, s.log) == Ok(r.output.value) && Clean(s, key)
            && NodesFit(env, nodes[1..], input, outputs[n.id := r.output.value], path, s)
          else
            && NoneOf(nodes[1..], path, s)
            && (if Settled(r) then
                  EvalNode(env, n, given, key, s.log) == Err(RecordedError(r)) && Harmless(s, key, RecordedError(r))
                else
                  r.input == given && InstrFits(env, n.instr, r, given, key, s))
  }

  /** A fault observed at a control, and not below it, is an explained one. */
  ghost predicate FaultExplained(env: Env, instr: Instr, control: Option<ControlFrame>, input: Value, key: Path, s: Sight) {
    key in s.log && s.log[key].Fault? ==> Explained(env, instr, control, input, key, s, s.log[key].error)
  }

  /** Below a wait there is at most its start. */
  ghost predicate StartFits(start: Option<Start>, key: Path, s: Sight) {
    && (forall k :: k in s.store && key <= k ==> k == key || (start.Some? && k == StartKey(key)))
    && (start.Some? && StartKey(key) in s.store ==> Kept(OpAt(start.value.op, StartKey(key)), true, s.store[StartKey(key)]))
  }

  /** A saved frame says where in the meaning of its control the run stands. */
  ghost predicate InstrFits(env: Env, instr: Instr, rec: Rec, input: Value, key: Path, s: Sight)
    decreases instr
  {
    match instr
    case Operation(op) => Kept(OpAt(op, key), false, rec) && forall k :: k in s.store && key <= k ==> k == key
    case Pause(start) => rec.effect.None? && StartFits(start, key, s)
    case Choose(cases, fallback) =>
      && rec.effect.None? && rec.control.Some? && rec.control.value.Decision?
      && var id := rec.control.value.selected;
         && Select(env, cases, fallback, input) == Ok(id) && Within(s, key, CasePath(key, id))
         && var i := FindCase(cases, id);
            (if i < |cases| then BodyFits(env, cases[i].body, input, CasePath(key, id), s)
             else fallback.Some? && fallback.value.id == id ==> BodyFits(env, fallback.value.body, input, CasePath(key, id), s))
    case Attempt(body, catches, otherwise) =>
      && rec.effect.None? && rec.control.Some? && rec.control.value.Try?
      && BodyFits(env, body, input, TryPath(key), s)
      && (if rec.control.value.handler.None? then rec.control.value.error.None? && Within(s, key, TryPath(key))
          else
            && rec.control.value.error.Some?
            && var id, error := rec.control.value.handler.value, rec.control.value.error.value;
               && EvalBody(env, body, input, TryPath(key), s.log) == Err(error) && Catchable(error)
               && id == Handler(catches, otherwise, CaughtCode(error))
               && Clean(s, TryPath(key))
               && (forall k :: k in s.store && key <= k ==> k == key || TryPath(key) <= k || CatchPath(key, id) <= k)
               && var i := FindCatch(catches, id);
                  (if i < |catches| then BodyFits(env, catches[i].body, Handled(env, input, error), CatchPath(key, id), s)
                   else otherwise.id == id ==> BodyFits(env, otherwise.body, Handled(env, input, error), CatchPath(key, id), s)))
    case Repeat(condition, body, limit, _) =>
      && rec.effect.None? && rec.control.Some? && rec.control.value.Loop?
      && var n, state := rec.control.value.iteration, rec.control.value.state;
         && n <= limit && Reaches(env, instr, input, 0, state, n, key, s.log)
         && BodyFits(env, body, TurnInput(state, n), TurnPath(key, n), s)
         && (forall m :: m > n ==> Empty(s, TurnPath(key, m)))
         && ((n < limit && Truth(env, condition, TurnInput(state, n)) == Ok(true)) || Empty(s, TurnPath(key, n)))
         && (forall k :: k in s.store && key <= k ==> k == key || InTurn(key, n, k))
         && (forall m :: 0 <= m < n ==> Clean(s, TurnPath(key, m)))
    case Fork(branches, _) =>
      && rec.effect.None? && rec.control.Some? && rec.control.value.Parallel?
      && GroupStands(env, instr, rec.control.value, input, key, s.Throws(key))
      && (forall i :: 0 <= i < |branches| ==> BodyFits(env, branches[i].body, input, BranchPath(key, branches[i].id), s))
    case Each(items, body, _) =>
      && rec.effect.None? && rec.control.Some? && rec.control.value.Foreach? && ItemsOf(env, items, input).Ok?
      && GroupStands(env, instr, rec.control.value, input, key, s.Throws(key))
      && var values := ItemsOf(env, items, input).value;
         forall i :: 0 <= i < |values| ==> BodyFits(env, body, ItemInput(input, values[i], i), ItemPath(key, i), s)
    case Call(id, revision, body) =>
      && rec.effect.None? && rec.control.Some? && rec.control.value.Subworkflow?
      && BodyFits(env, body, input, CallPath(key, id, revision), s) && Within(s, key, CallPath(key, id, revision))
      && (env.accepts(id, revision, input).None? || Empty(s, CallPath(key, id, revision)))
  }

  predicate InTurn(key: Path, n: nat, k: Path) {
    exists m :: 0 <= m <= n && TurnPath(key, m) <= k
  }

  /** From turn `m` at `from` the evaluator arrives at turn `n` with `state`, every turn in between confirmed. */
  ghost predicate Reaches(env: Env, instr: Instr, from: Value, m: nat, state: Value, n: nat, key: Path, log: Log)
    requires instr.Repeat?
    decreases if m <= n then n - m else 0
  {
    if m >= n then m == n && from == state
    else
      && m < instr.limit && Truth(env, instr.condition, TurnInput(from, m)) == Ok(true)
      && EvalBody(env, instr.body, TurnInput(from, m), TurnPath(key, m), log).Ok?
      && Reaches(env, instr, EvalBody(env, instr.body, TurnInput(from, m), TurnPath(key, m), log).value, m + 1, state, n, key, log)
  }

  /** Continuing from a saved turn means the same as starting over. */
  lemma {:induction false} SavedTurnMeansTheSame(env: Env, instr: Instr, from: Value, m: nat, state: Value, n: nat, key: Path, log: Log)
    requires instr.Repeat? && Reaches(env, instr, from, m, state, n, key, log)
    ensures EvalTurns(env, instr, from, m, key, log) == EvalTurns(env, instr, state, n, key, log)
    decreases if m <= n then n - m else 0
  {
    if m < n {
      SavedTurnMeansTheSame(env, instr, EvalBody(env, instr.body, TurnInput(from, m), TurnPath(key, m), log).value, m + 1, state, n, key, log);
    }
  }

  lemma {:induction false} OneMoreTurn(env: Env, instr: Instr, from: Value, m: nat, state: Value, n: nat, key: Path, log: Log, next: Value)
    requires instr.Repeat? && m <= n < instr.limit && Reaches(env, instr, from, m, state, n, key, log)
    requires Truth(env, instr.condition, TurnInput(state, n)) == Ok(true)
    requires EvalBody(env, instr.body, TurnInput(state, n), TurnPath(key, n), log) == Ok(next)
    ensures Reaches(env, instr, from, m, next, n + 1, key, log)
    decreases n - m
  {
    if m < n {
      OneMoreTurn(env, instr, EvalBody(env, instr.body, TurnInput(from, m), TurnPath(key, m), log).value, m + 1, state, n, key, log, next);
    } else {
      assert Reaches(env, instr, next, n + 1, next, n + 1, key, log);
    }
  }

  // ---------------------------------------------------------------- what the meaning depends on

  ghost predicate SameLog(a: Log, b: Log, p: Path) {
    forall k :: p <= k ==> (k in a <==> k in b) && (k in a ==> a[k] == b[k])
  }

  ghost predicate SameStore(a: Store, b: Store, p: Path) {
    forall k :: p <= k ==> (k in a <==> k in b) && (k in a ==> a[k] == b[k])
  }

  /** The same strictly below a key; the record and observation at the key itself may differ. */
  ghost predicate SameLogBelow(a: Log, b: Log, p: Path) {
    forall k :: p < k ==> (k in a <==> k in b) && (k in a ==> a[k] == b[k])
  }

  ghost predicate SameThrown(s: Sight, t: Sight, p: Path) {
    forall k :: p <= k ==> s.Throws(k) == t.Throws(k)
  }

  ghost predicate SameBelow(s: Sight, t: Sight, p: Path) {
    && (forall k :: p < k ==> (k in s.store <==> k in t.store) && (k in s.store ==> s.store[k] == t.store[k]))
    && SameLogBelow(s.log, t.log, p) && SameThrown(s, t, p) && (s.expired ==> t.expired) && s.guarded == t.guarded
  }

  ghost predicate SameUnder(s: Sight, t: Sight, p: Path) {
    && SameStore(s.store, t.store, p) && SameLog(s.log, t.log, p) && SameThrown(s, t, p)
    && (s.expired ==> t.expired) && s.guarded == t.guarded
  }

  lemma Deeper(a: Log, b: Log, p: Path, q: Path)
    requires (SameLog(a, b, p) && p <= q) || (SameLogBelow(a, b, p) && p < q)
    ensures SameLog(a, b, q)
  {
  }

  lemma {:induction false} EvalBodyFrame(env: Env, body: Body, input: Value, path: Path, a: Log, b: Log)
    requires SameLog(a, b, path)
    ensures EvalBody(env, body, input, path, a) == EvalBody(env, body, input, path, b)
    decreases body, 0
  {
    EvalNodesFrame(env, body.nodes, body.output, input, map[], path, a, b);
  }

  lemma {:induction false} EvalNodesFrame(env: Env, nodes: seq<Node>, output: Binding, input: Value, outputs: map<string, Value>,
                                          path: Path, a: Log, b: Log)
    requires SameLog(a, b, path)
    ensures EvalNodes(env, nodes, output, input, outputs, path, a) == EvalNodes(env, nodes, output, input, outputs, path, b)
    decreases nodes
  {
    if nodes != [] {
      assert path <= KeyOf(path, nodes[0].id);
      var given := env.evaluate(nodes[0].input, input, outputs);
      if given.Ok? {
        Deeper(a, b, path, KeyOf(path, nodes[0].id));
        EvalNodeFrame(env, nodes[0], given.value, KeyOf(path, nodes[0].id), a, b);
        var v := EvalNode(env, nodes[0], given.value, KeyOf(path, nodes[0].id), a);
        if v.Ok? {
          EvalNodesFrame(env, nodes[1..], output, input, outputs[nodes[0].id := v.value], path, a, b);
        }
      }
    }
  }

  lemma {:induction false} EvalNodeFrame(env: Env, n: Node, input: Value, key: Path, a: Log, b: Log)
    requires SameLog(a, b, key)
    ensures EvalNode(env, n, input, key, a) == EvalNode(env, n, input, key, b)
    decreases n
  {
    assert key <= key;
    if !n.instr.Operation? && !n.instr.Pause? {
      EvalControlFrame(env, n.instr, input, key, a, b);
    }
  }

  lemma {:induction false} EvalControlFrame(env: Env, instr: Instr, input: Value, key: Path, a: Log, b: Log)
    requires !instr.Operation? && !instr.Pause? && SameLogBelow(a, b, key)
    ensures EvalControl(env, instr, input, key, a) == EvalControl(env, instr, input, key, b)
    decreases instr
  {
    hide SameLogBelow, SameLog, Select, Truth, ItemsOf, Catchable, EvalNodes, Joined, BranchFields, ItemEntries, Handler;
    match instr
    case Choose(cases, fallback) =>
      var selected := Select(env, cases, fallback, input);
      if selected.Ok? {
        var i := FindCase(cases, selected.value);
        Deeper(a, b, key, CasePath(key, selected.value));
        if i < |cases| {
          EvalBodyFrame(env, cases[i].body, input, CasePath(key, selected.value), a, b);
        } else if fallback.Some? {
          EvalBodyFrame(env, fallback.value.body, input, CasePath(key, selected.value), a, b);
        }
      }
    case Attempt(body, catches, otherwise) =>
      Deeper(a, b, key, TryPath(key));
      EvalBodyFrame(env, body, input, TryPath(key), a, b);
      var outcome := EvalBody(env, body, input, TryPath(key), a);
      if outcome.Err? {
        EvalHandlerFrame(env, instr, Handler(catches, otherwise, CaughtCode(outcome.error)), input, outcome.error, key, a, b);
      }
    case Repeat(_, _, _, _) => EvalTurnsFrame(env, instr, input, 0, key, a, b);
    case Fork(branches, _) => EvalBranchesFrame(env, branches, input, key, a, b);
    case Each(items, body, _) =>
      var values := ItemsOf(env, items, input);
      if values.Ok? {
        EvalItemsFrame(env, body, values.value, 0, input, key, a, b);
      }
    case Call(id, revision, body) =>
      Deeper(a, b, key, CallPath(key, id, revision));
      EvalBodyFrame(env, body, input, CallPath(key, id, revision), a, b);
  }

  lemma {:induction false} EvalHandlerFrame(env: Env, instr: Instr, id: string, input: Value, error: ForgeError, key: Path, a: Log, b: Log)
    requires instr.Attempt? && SameLogBelow(a, b, key)
    ensures EvalHandler(env, instr, id, input, error, key, a) == EvalHandler(env, instr, id, input, error, key, b)
    decreases instr, 0
  {
    Deeper(a, b, key, CatchPath(key, id));
    var i := FindCatch(instr.catches, id);
    if i < |instr.catches| {
      EvalBodyFrame(env, instr.catches[i].body, Handled(env, input, error), CatchPath(key, id), a, b);
    } else {
      EvalBodyFrame(env, instr.otherwise.body, Handled(env, input, error), CatchPath(key, id), a, b);
    }
  }

  lemma {:induction false} EvalTurnsFrame(env: Env, instr: Instr, state: Value, n: nat, key: Path, a: Log, b: Log)
    requires instr.Repeat? && SameLogBelow(a, b, key)
    ensures EvalTurns(env, instr, state, n, key, a) == EvalTurns(env, instr, state, n, key, b)
    decreases instr, 0, if n <= instr.limit then instr.limit - n else 0
  {
    if n < instr.limit {
      Deeper(a, b, key, TurnPath(key, n));
      EvalBodyFrame(env, instr.body, TurnInput(state, n), TurnPath(key, n), a, b);
      var next := EvalBody(env, instr.body, TurnInput(state, n), TurnPath(key, n), a);
      if next.Ok? {
        EvalTurnsFrame(env, instr, next.value, n + 1, key, a, b);
      }
    }
  }

  lemma {:induction false} EvalBranchesFrame(env: Env, branches: seq<Branch>, input: Value, key: Path, a: Log, b: Log)
    requires SameLogBelow(a, b, key)
    ensures EvalBranches(env, branches, input, key, a) == EvalBranches(env, branches, input, key, b)
    decreases branches
  {
    if branches != [] {
      Deeper(a, b, key, BranchPath(key, branches[0].id));
      EvalBodyFrame(env, branches[0].body, input, BranchPath(key, branches[0].id), a, b);
      EvalBranchesFrame(env, branches[1..], input, key, a, b);
    }
  }

  lemma {:induction false} EvalItemsFrame(env: Env, body: Body, values: seq<Value>, n: nat, context: Value, key: Path, a: Log, b: Log)
    requires SameLogBelow(a, b, key)
    ensures EvalItems(env, body, values, n, context, key, a) == EvalItems(env, body, values, n, context, key, b)
    decreases body, |values|
  {
    if values != [] {
      Deeper(a, b, key, ItemPath(key, n));
      EvalBodyFrame(env, body, ItemInput(context, values[0], n), ItemPath(key, n), a, b);
      EvalItemsFrame(env, body, values[1..], n + 1, context, key, a, b);
    }
  }

  // ---------------------------------------------------------------- what agreement depends on

  lemma DeeperSight(s: Sight, t: Sight, p: Path, q: Path)
    requires (SameUnder(s, t, p) && p <= q) || (SameBelow(s, t, p) && p < q)
    ensures SameUnder(s, t, q)
  {
  }

  lemma UnderBelow(s: Sight, t: Sight, p: Path)
    requires SameUnder(s, t, p)
    ensures SameBelow(s, t, p) && SameLog(s.log, t.log, p)
  {
  }

  lemma SameEmptyClean(s: Sight, t: Sight, p: Path)
    requires SameUnder(s, t, p)
    ensures Empty(s, p) ==> Empty(t, p)
    ensures Clean(s, p) ==> Clean(t, p)
  {
  }

  lemma FaultExplainedFrame(env: Env, instr: Instr, control: Option<ControlFrame>, input: Value, key: Path, s: Sight, t: Sight)
    requires SameUnder(s, t, key) && FaultExplained(env, instr, control, input, key, s)
    ensures FaultExplained(env, instr, control, input, key, t)
  {
    hide ThrownBy, Admitted, Catchable;
    assert key <= key && s.Throws(key) == t.Throws(key);
  }

  lemma {:induction false} BodyFitsFrame(env: Env, body: Body, input: Value, path: Path, s: Sight, t: Sight)
    requires SameUnder(s, t, path) && BodyFits(env, body, input, path, s)
    ensures BodyFits(env, body, input, path, t)
    decreases body, 0
  {
    NodesFitFrame(env, body.nodes, input, map[], path, s, t);
  }

  lemma {:induction false} NodesFitFrame(env: Env, nodes: seq<Node>, input: Value, outputs: map<string, Value>, path: Path, s: Sight, t: Sight)
    requires SameUnder(s, t, path) && NodesFit(env, nodes, input, outputs, path, s)
    ensures NodesFit(env, nodes, input, outputs, path, t)
    decreases nodes
  {
    hide FaultExplained, InstrFits, EvalNode, Clean, Empty, Catchable, SameLog, SameThrown;
    if nodes != [] {
      var n, key := nodes[0], KeyOf(path, nodes[0].id);
      DeeperSight(s, t, path, key);
      UnderBelow(s, t, key);
      SameEmptyClean(s, t, key);
      assert key <= key && (key in s.store <==> key in t.store);
      forall i | 0 <= i < |nodes[1..]| && Empty(s, KeyOf(path, nodes[1..][i].id))
        ensures Empty(t, KeyOf(path, nodes[1..][i].id))
      {
        DeeperSight(s, t, path, KeyOf(path, nodes[1..][i].id));
        SameEmptyClean(s, t, KeyOf(path, nodes[1..][i].id));
      }
      if key in s.store {
        var given := env.evaluate(n.input, input, outputs).value;
        var r := s.store[key];
        EvalNodeFrame(env, n, given, key, s.log, t.log);
        if !n.instr.Operation? && !n.instr.Pause? {
          FaultExplainedFrame(env, n.instr, r.control, given, key, s, t);
        }
        if r.state == InvocationState.Succeeded {
          NodesFitFrame(env, nodes[1..], input, outputs[n.id := r.output.value], path, s, t);
        } else if !Settled(r) {
          InstrFitsFrame(env, n.instr, r, given, key, s, t);
        }
      }
    }
  }

  lemma {:induction false} InstrFitsFrame(env: Env, instr: Instr, rec: Rec, input: Value, key: Path, s: Sight, t: Sight)
    requires SameBelow(s, t, key) && InstrFits(env, instr, rec, input, key, s)
    ensures InstrFits(env, instr, rec, input, key, t)
    decreases instr
  {
    hide Kept, Clean, Empty, Catchable, GroupStands, SameLogBelow, SameThrown, Reaches, Select, NodesFit, EvalBody,
      BodyFits, Truth, ItemsOf;
    match instr
    case Operation(_) =>
    case Pause(_) => assert key < StartKey(key);
    case Choose(cases, fallback) =>
      var id := rec.control.value.selected;
      DeeperSight(s, t, key, CasePath(key, id));
      var i := FindCase(cases, id);
      if i < |cases| {
        BodyFitsFrame(env, cases[i].body, input, CasePath(key, id), s, t);
      } else if fallback.Some? && fallback.value.id == id {
        BodyFitsFrame(env, fallback.value.body, input, CasePath(key, id), s, t);
      }
    case Attempt(body, catches, otherwise) =>
      DeeperSight(s, t, key, TryPath(key));
      BodyFitsFrame(env, body, input, TryPath(key), s, t);
      if rec.control.value.handler.Some? {
        HandlerFitsFrame(env, instr, rec, input, key, s, t);
      }
    case Repeat(_, _, _, _) => RepeatFitsFrame(env, instr, rec, input, key, s, t);
    case Fork(_, _) => GroupFitsFrame(env, instr, rec, input, key, s, t);
    case Each(_, _, _) => GroupFitsFrame(env, instr, rec, input, key, s, t);
    case Call(id, revision, body) =>
      DeeperSight(s, t, key, CallPath(key, id, revision));
      SameEmptyClean(s, t, CallPath(key, id, revision));
      BodyFitsFrame(env, body, input, CallPath(key, id, revision), s, t);
  }

  lemma {:induction false} RepeatFitsFrame(env: Env, instr: Instr, rec: Rec, input: Value, key: Path, s: Sight, t: Sight)
    requires instr.Repeat? && SameBelow(s, t, key) && InstrFits(env, instr, rec, input, key, s)
    ensures InstrFits(env, instr, rec, input, key, t)
    decreases instr, 0
  {
    hide NodesFit, Clean, Empty, Catchable, SameLogBelow, SameThrown, EvalBody, SameLog, BodyFits;
    var body := instr.body;
    var n, state := rec.control.value.iteration, rec.control.value.state;
    DeeperSight(s, t, key, TurnPath(key, n));
    BodyFitsFrame(env, body, TurnInput(state, n), TurnPath(key, n), s, t);
    forall m: nat
      ensures SameLog(s.log, t.log, TurnPath(key, m))
      ensures Empty(s, TurnPath(key, m)) ==> Empty(t, TurnPath(key, m))
      ensures Clean(s, TurnPath(key, m)) ==> Clean(t, TurnPath(key, m))
    {
      DeeperSight(s, t, key, TurnPath(key, m));
      SameEmptyClean(s, t, TurnPath(key, m));
    }
    ReachesFrame(env, instr, input, 0, state, n, key, s.log, t.log);
  }

  lemma {:induction false} GroupFitsFrame(env: Env, instr: Instr, rec: Rec, input: Value, key: Path, s: Sight, t: Sight)
    requires (instr.Fork? || instr.Each?) && SameBelow(s, t, key) && InstrFits(env, instr, rec, input, key, s)
    ensures InstrFits(env, instr, rec, input, key, t)
    decreases instr, 0
  {
    hide NodesFit, Clean, Empty, Catchable, SameLogBelow, GroupStands, EvalBody, SameLog, BodyFits;
    assert key <= key && s.Throws(key) == t.Throws(key);
    if instr.Fork? {
      var branches := instr.branches;
      forall i | 0 <= i < |branches|
        ensures BodyFits(env, branches[i].body, input, BranchPath(key, branches[i].id), t)
      {
        DeeperSight(s, t, key, BranchPath(key, branches[i].id));
        BodyFitsFrame(env, branches[i].body, input, BranchPath(key, branches[i].id), s, t);
      }
    } else {
      var body := instr.body;
      var values := ItemsOf(env, instr.items, input).value;
      forall i | 0 <= i < |values|
        ensures BodyFits(env, body, ItemInput(input, values[i], i), ItemPath(key, i), t)
      {
        DeeperSight(s, t, key, ItemPath(key, i));
        BodyFitsFrame(env, body, ItemInput(input, values[i], i), ItemPath(key, i), s, t);
      }
    }
  }

  lemma {:induction false} HandlerFitsFrame(env: Env, instr: Instr, rec: Rec, input: Value, key: Path, s: Sight, t: Sight)
    requires instr.Attempt? && SameBelow(s, t, key) && InstrFits(env, instr, rec, input, key, s)
    requires rec.control.Some? && rec.control.value.Try? && rec.control.value.handler.Some?
    ensures InstrFits(env, instr, rec, input, key, t)
    decreases instr, 0
  {
    hide NodesFit, Clean, Empty, Catchable, SameLogBelow, SameThrown, EvalBody, BodyFits;
    var id, error := rec.control.value.handler.value, rec.control.value.error.value;
    DeeperSight(s, t, key, TryPath(key));
    BodyFitsFrame(env, instr.body, input, TryPath(key), s, t);
    DeeperSight(s, t, key, CatchPath(key, id));
    SameEmptyClean(s, t, TryPath(key));
    EvalBodyFrame(env, instr.body, input, TryPath(key), s.log, t.log);
    var i := FindCatch(instr.catches, id);
    if i < |instr.catches| {
      BodyFitsFrame(env, instr.catches[i].body, Handled(env, input, error), CatchPath(key, id), s, t);
    } else if instr.otherwise.id == id {
      BodyFitsFrame(env, instr.otherwise.body, Handled(env, input, error), CatchPath(key, id), s, t);
    }
  }

  lemma {:induction false} ReachesFrame(env: Env, instr: Instr, from: Value, m: nat, state: Value, n: nat, key: Path, a: Log, b: Log)
    requires instr.Repeat? && Reaches(env, instr, from, m, state, n, key, a)
    requires forall j :: m <= j < n ==> SameLog(a, b, TurnPath(key, j))
    ensures Reaches(env, instr, from, m, state, n, key, b)
    decreases if m <= n then n - m else 0
  {
    if m < n {
      assert SameLog(a, b, TurnPath(key, m));
      EvalBodyFrame(env, instr.body, TurnInput(from, m), TurnPath(key, m), a, b);
      ReachesFrame(env, instr, EvalBody(env, instr.body, TurnInput(from, m), TurnPath(key, m), a).value, m + 1, state, n, key, a, b);
    }
  }
}
