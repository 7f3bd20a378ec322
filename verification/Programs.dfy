/**
 Prepared workflow bodies, their plain recursive meaning, and what a checkpoint must say to
 agree with that meaning. Keys are scope paths: lists of segments, written to storage by an
 injective encoding.
 */
module Programs {
  import opened Wrappers
  import opened Text
  import opened Json
  import opened Protocol
  import DataBinding
  import D = Dispatch
  import P = Pointer

  type Binding = DataBinding.Binding

  datatype Body = Body(nodes: seq<Node>, output: Binding)

  datatype Node = Node(id: string, input: Binding, instr: Instr)

  datatype Branch = Branch(id: string, body: Body)

  datatype Case = Case(id: string, condition: Binding, body: Body)

  datatype Catch = Catch(id: string, code: string, body: Body)

  /** The operation that opens a signal wait, and the binding of its input. */
  datatype Start = Start(input: Binding, op: D.OpPlan)

  /** A pause is a timer or a signal wait. */
  datatype Instr =
    | Operation(op: D.OpPlan)
    | Pause(start: Option<Start>)
    | Choose(cases: seq<Case>, fallback: Option<Branch>)
    | Attempt(body: Body, catches: seq<Catch>, otherwise: Branch)
    | Repeat(condition: Binding, body: Body, limit: nat, returnLast: bool)
    | Fork(branches: seq<Branch>, failFast: bool)
    | Each(items: Binding, body: Body, failFast: bool)
    | Call(id: string, revision: string, body: Body)

  type Path = seq<string>

  /** Bindings, value limits and contracts: any deterministic functions. */
  datatype Env = Env(
    evaluate: (Binding, Value, map<string, Value>) -> Result<Value, ForgeError>,
    check: Value -> Option<ForgeError>,
    accepts: (string, string, Value) -> Option<ForgeError>,
    releases: (string, string, Value) -> Option<ForgeError>,
    render: ForgeError -> Value)

  /** The last observed outcome at a key: of an operation or a wait, or what aborted a control. */
  datatype Observation = Output(value: Value) | Fault(error: ForgeError)

  type Log = map<Path, Observation>

  // ---------------------------------------------------------------- scope paths

  function KeyOf(path: Path, id: string): Path { path + ["nodes", id] }

  function TryPath(key: Path): Path { key + ["try"] }

  function CatchPath(key: Path, id: string): Path { key + ["catch", id] }

  function CasePath(key: Path, id: string): Path { key + ["cases", id] }

  function TurnPath(key: Path, n: nat): Path { key + ["iterations", Decimal(n)] }

  function BranchPath(key: Path, id: string): Path { key + ["branches", id] }

  function ItemPath(key: Path, n: nat): Path { key + ["items", Decimal(n)] }

  function CallPath(key: Path, id: string, revision: string): Path { key + ["workflows", id, "revisions", revision] }

  function StartKey(key: Path): Path { key + ["start", "nodes", "invoke"] }

  /** An operation as one activation runs it: its logical identity comes from its key. */
  function OpAt(op: D.OpPlan, key: Path): D.OpPlan { op.(logical := P.Key(key)) }

  // ---------------------------------------------------------------- pure decisions

  function Truth(env: Env, condition: Binding, input: Value): Result<bool, ForgeError> {
    match env.evaluate(condition, input, map[])
    case Err(e) => Err(e)
    case Ok(v) => if v.Bool? then Ok(v.flag) else Err(Plain("data.invalid"))
  }

  /** The first alternative whose condition holds, else the fallback. */
  function Select(env: Env, cases: seq<Case>, fallback: Option<Branch>, input: Value): Result<string, ForgeError> {
    if cases == [] then
      (if fallback.Some? then Ok(fallback.value.id) else Err(Plain("control.no_match")))
    else
      match Truth(env, cases[0].condition, input)
      case Err(e) => Err(e)
      case Ok(yes) => if yes then Ok(cases[0].id) else Select(env, cases[1..], fallback, input)
  }

  /** Where an identifier is found among the alternatives; the fallback comes last. */
  function FindCase(cases: seq<Case>, id: string): (i: nat)
    ensures i <= |cases| && (i < |cases| ==> cases[i].id == id)
  {
    if cases == [] then 0 else if cases[0].id == id then 0 else 1 + FindCase(cases[1..], id)
  }

  function FindCatch(catches: seq<Catch>, id: string): (i: nat)
    ensures i <= |catches| && (i < |catches| ==> catches[i].id == id)
  {
    if catches == [] then 0 else if catches[0].id == id then 0 else 1 + FindCatch(catches[1..], id)
  }

  /** The handler for an error code. */
  function Handler(catches: seq<Catch>, otherwise: Branch, code: string): string {
    if catches == [] then otherwise.id
    else if catches[0].code == code then catches[0].id
    else Handler(catches[1..], otherwise, code)
  }

  function CaughtCode(error: ForgeError): string {
    if error.diagnostics != [] && error.diagnostics[0].operationError.Some? then error.diagnostics[0].operationError.value.code
    else error.Code()
  }

  /** Uncertain effects and host or resource boundaries cannot become workflow success. */
  predicate Catchable(error: ForgeError) {
    forall i :: 0 <= i < |error.diagnostics| ==> var d := error.diagnostics[i];
      && d.code != "effect.unknown" && d.code != "operation.cancelled" && d.code != "resource.limit" && d.code != "access.denied"
      && (d.operationError.Some? ==>
            && d.operationError.value.certainty == NotApplied && d.operationError.value.kind != CancelledClass
            && d.operationError.value.kind != Internal && d.operationError.value.kind != Resource)
  }

  function Handled(env: Env, input: Value, error: ForgeError): Value {
    Object([Field("error", env.render(error)), Field("input", input)])
  }

  /** What the start of a wait is given: the node's input and the reservation. */
  function StartInput(given: Value, wait: Value): Value {
    Object([Field("input", given), Field("wait", wait)])
  }

  /** What a consumed signal wait returns: the signal and the result of its start. */
  function Delivered(payload: Value, started: Value): Value {
    Object([Field("signal", payload), Field("start", started)])
  }

  function TurnInput(state: Value, n: nat): Value {
    Object([Field("iteration", Number(Decimal(n))), Field("state", state)])
  }

  function ItemInput(context: Value, item: Value, n: nat): Value {
    Object([Field("context", context), Field("index", Number(Decimal(n))), Field("item", item)])
  }

  function Tried(outcome: Value): Value {
    Object([Field("outcome", Str("success")), Field("output", outcome)])
  }

  function Recovered(handler: string, outcome: Value): Value {
    Object([Field("handler", Str(handler)), Field("outcome", Str("handled")), Field("output", outcome)])
  }

  function Selected(id: string, outcome: Value): Value {
    Object([Field("output", outcome), Field("selected", Str(id))])
  }

  // ---------------------------------------------------------------- groups

  type Result1 = Result<Value, ForgeError>

  predicate IsUnknown(e: ForgeError) { e.Code() == "effect.unknown" }

  /** A group that completes: every child in order, failures recorded only where they are collected. */
  function Joined(results: seq<Result1>, failFast: bool): Result<seq<Result1>, ForgeError> {
    if results == [] then Ok([])
    else if results[0].Err? && (failFast || IsUnknown(results[0].error)) then Err(results[0].error)
    else
      match Joined(results[1..], failFast)
      case Err(e) => Err(e)
      case Ok(rest) => Ok([results[0]] + rest)
  }

  function Entry(env: Env, r: Result1): Value {
    match r
    case Ok(v) => Object([Field("output", v), Field("status", Str("succeeded"))])
    case Err(e) => Object([Field("error", env.render(e)), Field("status", Str("failed"))])
  }

  function IndexedEntry(env: Env, r: Result1, n: nat): Value {
    match r
    case Ok(v) => Object([Field("index", Number(Decimal(n))), Field("output", v), Field("status", Str("succeeded"))])
    case Err(e) => Object([Field("error", env.render(e)), Field("index", Number(Decimal(n))), Field("status", Str("failed"))])
  }

  function BranchFields(env: Env, branches: seq<Branch>, results: seq<Result1>): seq<Field>
    requires |branches| == |results|
  {
    seq(|branches|, i requires 0 <= i < |branches| => Field(branches[i].id, Entry(env, results[i])))
  }

  function ItemEntries(env: Env, results: seq<Result1>): seq<Value> {
    seq(|results|, i requires 0 <= i < |results| => IndexedEntry(env, results[i], i))
  }

  function ItemsOf(env: Env, items: Binding, input: Value): Result<seq<Value>, ForgeError> {
    match env.evaluate(items, input, map[])
    case Err(e) => Err(e)
    case Ok(v) => if v.Array? then Ok(v.items) else Err(Plain("data.invalid"))
  }

  // ---------------------------------------------------------------- the plain evaluator

  /** The meaning of a body: its nodes in order, then its output. No checkpoint, no crash. */
  function EvalBody(env: Env, body: Body, input: Value, path: Path, log: Log): Result1
    decreases body, 0
  {
    EvalNodes(env, body.nodes, body.output, input, map[], path, log)
  }

  function EvalNodes(env: Env, nodes: seq<Node>, output: Binding, input: Value, outputs: map<string, Value>, path: Path, log: Log): Result1
    decreases nodes
  {
    if nodes == [] then env.evaluate(output, input, outputs)
    else if KeyOf(path, nodes[0].id) in log && log[KeyOf(path, nodes[0].id)].Fault? then
      Err(log[KeyOf(path, nodes[0].id)].error)
    else
      match env.evaluate(nodes[0].input, input, outputs)
      case Err(e) => Err(e)
      case Ok(given) =>
        match EvalNode(env, nodes[0], given, KeyOf(path, nodes[0].id), log)
        case Err(e) => Err(e)
        case Ok(v) => EvalNodes(env, nodes[1..], output, input, outputs[nodes[0].id := v], path, log)
  }

  /** An observed fault at a key is that node's outcome; otherwise leaves are observed and controls computed. */
  function EvalNode(env: Env, n: Node, input: Value, key: Path, log: Log): Result1
    decreases n
  {
    if key in log && log[key].Fault? then Err(log[key].error)
    else if n.instr.Operation? || n.instr.Pause? then
      (if key in log then Ok(log[key].value) else Err(Plain("store.failed")))
    else
      match EvalControl(env, n.instr, input, key, log)
      case Err(e) => Err(e)
      case Ok(v) => if env.check(v).Some? then Err(env.check(v).value) else Ok(v)
  }

  function EvalControl(env: Env, instr: Instr, input: Value, key: Path, log: Log): Result1
    requires !instr.Operation? && !instr.Pause?
    decreases instr
  {
    match instr
    case Choose(cases, fallback) => (
      match Select(env, cases, fallback, input)
      case Err(e) => Err(e)
      case Ok(id) =>
        var i := FindCase(cases, id);
        if i < |cases| then EvalSelected(env, cases[i].body, input, key, id, log)
        else if fallback.Some? && fallback.value.id == id then EvalSelected(env, fallback.value.body, input, key, id, log)
        else Err(Plain("state.conflict")))
    case Attempt(body, catches, otherwise) => (
      match EvalBody(env, body, input, TryPath(key), log)
      case Ok(v) => Ok(Tried(v))
      case Err(error) =>
        if !Catchable(error) then Err(error)
        else EvalHandler(env, instr, Handler(catches, otherwise, CaughtCode(error)), input, error, key, log))
    case Repeat(condition, body, limit, returnLast) => EvalTurns(env, instr, input, 0, key, log)
    case Fork(branches, failFast) => (
      match Joined(EvalBranches(env, branches, input, key, log), failFast)
      case Err(e) => Err(e)
      case Ok(results) => Ok(Object(BranchFields(env, branches, EvalBranches(env, branches, input, key, log)))))
    case Each(items, body, failFast) => (
      match ItemsOf(env, items, input)
      case Err(e) => Err(e)
      case Ok(values) =>
        match Joined(EvalItems(env, body, values, 0, input, key, log), failFast)
        case Err(e) => Err(e)
        case Ok(results) => Ok(Array(ItemEntries(env, EvalItems(env, body, values, 0, input, key, log)))))
    case Call(id, revision, body) =>
      if env.accepts(id, revision, input).Some? then Err(env.accepts(id, revision, input).value)
      else
        match EvalBody(env, body, input, CallPath(key, id, revision), log)
        case Err(e) => Err(e)
        case Ok(v) => if env.releases(id, revision, v).Some? then Err(env.releases(id, revision, v).value) else Ok(v)
  }

  function EvalSelected(env: Env, body: Body, input: Value, key: Path, id: string, log: Log): Result1
    decreases body, 1
  {
    match EvalBody(env, body, input, CasePath(key, id), log)
    case Err(e) => Err(e)
    case Ok(v) => Ok(Selected(id, v))
  }

  function EvalHandler(env: Env, instr: Instr, id: string, input: Value, error: ForgeError, key: Path, log: Log): Result1
    requires instr.Attempt?
    decreases instr, 0
  {
    var i := FindCatch(instr.catches, id);
    if i < |instr.catches| then EvalRecovered(env, instr.catches[i].body, id, input, error, key, log)
    else if instr.otherwise.id == id then EvalRecovered(env, instr.otherwise.body, id, input, error, key, log)
    else Err(Plain("state.conflict"))
  }

  function EvalRecovered(env: Env, body: Body, id: string, input: Value, error: ForgeError, key: Path, log: Log): Result1
    decreases body, 1
  {
    match EvalBody(env, body, Handled(env, input, error), CatchPath(key, id), log)
    case Err(e) => Err(e)
    case Ok(v) => Ok(Recovered(id, v))
  }

  /** The loop from one turn on. */
  function EvalTurns(env: Env, instr: Instr, state: Value, n: nat, key: Path, log: Log): Result1
    requires instr.Repeat?
    decreases instr, 0, if n <= instr.limit then instr.limit - n else 0
  {
    match Truth(env, instr.condition, TurnInput(state, n))
    case Err(e) => Err(e)
    case Ok(go) =>
      if !go then Ok(state)
      else if n >= instr.limit then (if instr.returnLast then Ok(state) else Err(Plain("control.iteration_limit")))
      else
        match EvalBody(env, instr.body, TurnInput(state, n), TurnPath(key, n), log)
        case Err(e) => Err(e)
        case Ok(next) => EvalTurns(env, instr, next, n + 1, key, log)
  }

  function EvalBranches(env: Env, branches: seq<Branch>, input: Value, key: Path, log: Log): (results: seq<Result1>)
    ensures |results| == |branches|
    decreases branches
  {
    if branches == [] then []
    else [EvalBody(env, branches[0].body, input, BranchPath(key, branches[0].id), log)]
         + EvalBranches(env, branches[1..], input, key, log)
  }

  function EvalItems(env: Env, body: Body, values: seq<Value>, n: nat, context: Value, key: Path, log: Log): (results: seq<Result1>)
    ensures |results| == |values|
    decreases body, |values|
  {
    if values == [] then []
    else [EvalBody(env, body, ItemInput(context, values[0], n), ItemPath(key, n), log)]
         + EvalItems(env, body, values[1..], n + 1, context, key, log)
  }
}
