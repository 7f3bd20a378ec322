/**
 What each control of a workflow means, stated on values: which case a decision takes, which handler an error reaches,
 how a loop unrolls, what a group collects. These laws say what the evaluator computes without naming its steps.
 */
module ControlLaws {
  import opened Wrappers
  import opened Text
  import opened Json
  import opened Protocol
  import DataBinding
  import opened Programs
  import D = Dispatch
  import P = Pointer

  // ---------------------------------------------------------------- conditions and decisions

  predicate IsTrue(env: Env, condition: Binding, input: Value) {
    env.evaluate(condition, input, map[]) == Ok(Bool(true))
  }

  predicate IsFalse(env: Env, condition: Binding, input: Value) {
    env.evaluate(condition, input, map[]) == Ok(Bool(false))
  }

  /** A condition that is neither: its own error, or a value that is no truth value. */
  predicate IsBroken(env: Env, condition: Binding, input: Value, e: ForgeError) {
    match env.evaluate(condition, input, map[])
    case Err(error) => e == error
    case Ok(v) => !v.Bool? && e == Plain("data.invalid")
  }

  lemma TruthMeans(env: Env, condition: Binding, input: Value)
    ensures Truth(env, condition, input) == Ok(true) <==> IsTrue(env, condition, input)
    ensures Truth(env, condition, input) == Ok(false) <==> IsFalse(env, condition, input)
    ensures forall e :: Truth(env, condition, input) == Err(e) <==> IsBroken(env, condition, input, e)
  {
  }

  predicate AllFalse(env: Env, cases: seq<Case>, input: Value) {
    forall j :: 0 <= j < |cases| ==> IsFalse(env, cases[j].condition, input)
  }

  /** The first case whose condition holds. */
  predicate FirstTrue(env: Env, cases: seq<Case>, input: Value, i: int) {
    0 <= i < |cases| && IsTrue(env, cases[i].condition, input) && AllFalse(env, cases[..i], input)
  }

  predicate FirstBroken(env: Env, cases: seq<Case>, input: Value, i: int, e: ForgeError) {
    0 <= i < |cases| && IsBroken(env, cases[i].condition, input, e) && AllFalse(env, cases[..i], input)
  }

  /** The alternative a decision takes: the first case that holds, or the fallback where none does. */
  ghost predicate Chosen(env: Env, cases: seq<Case>, fallback: Option<Branch>, input: Value, id: string) {
    || (exists i: int :: FirstTrue(env, cases, input, i) && cases[i].id == id)
    || (AllFalse(env, cases, input) && fallback.Some? && fallback.value.id == id)
  }

  /** Why a decision takes none: a broken condition before any that holds, or no case and no fallback. */
  ghost predicate Undecided(env: Env, cases: seq<Case>, fallback: Option<Branch>, input: Value, e: ForgeError) {
    || (exists i: int :: FirstBroken(env, cases, input, i, e))
    || (AllFalse(env, cases, input) && fallback.None? && e == Plain("control.no_match"))
  }

  /** Past a case whose condition is false, the rest decides. */
  lemma FalseStep(env: Env, cases: seq<Case>, input: Value, i: int, e: ForgeError)
    requires cases != [] && IsFalse(env, cases[0].condition, input)
    ensures AllFalse(env, cases, input) <==> AllFalse(env, cases[1..], input)
    ensures FirstTrue(env, cases, input, i) <==> FirstTrue(env, cases[1..], input, i - 1)
    ensures FirstBroken(env, cases, input, i, e) <==> FirstBroken(env, cases[1..], input, i - 1, e)
  {
    hide IsFalse, IsBroken;
    assert forall j :: 0 < j < |cases| ==> cases[j] == cases[1..][j - 1];
    assert forall j :: 0 <= j < |cases[1..]| ==> cases[1..][j] == cases[j + 1];
    TrueIsNotFalse(env, cases[0].condition, input, e);
    if 0 < i < |cases| {
      var front, rest := cases[..i], cases[1..][..i - 1];
      assert forall j :: 0 < j < |front| ==> front[j] == rest[j - 1];
      assert forall j :: 0 <= j < |rest| ==> rest[j] == front[j + 1];
      assert AllFalse(env, front, input) <==> AllFalse(env, rest, input);
    }
  }

  lemma TrueIsNotFalse(env: Env, condition: Binding, input: Value, e: ForgeError)
    ensures IsFalse(env, condition, input) ==> !IsTrue(env, condition, input) && !IsBroken(env, condition, input, e)
    ensures IsTrue(env, condition, input) ==> !IsBroken(env, condition, input, e)
  {
  }

  /** A case that holds decides at once, and so does a broken one. */
  lemma FirstStep(env: Env, cases: seq<Case>, input: Value, i: int, e: ForgeError)
    requires cases != [] && !IsFalse(env, cases[0].condition, input)
    ensures !AllFalse(env, cases, input)
    ensures FirstTrue(env, cases, input, i) <==> i == 0 && IsTrue(env, cases[0].condition, input)
    ensures FirstBroken(env, cases, input, i, e) <==> i == 0 && IsBroken(env, cases[0].condition, input, e)
  {
    hide IsTrue, IsFalse, IsBroken;
    if 0 < i < |cases| {
      assert cases[..i][0] == cases[0];
    }
  }

  lemma SelectStep(env: Env, cases: seq<Case>, fallback: Option<Branch>, input: Value, id: string, e: ForgeError)
    requires cases != []
    ensures IsFalse(env, cases[0].condition, input) ==>
      && (Chosen(env, cases, fallback, input, id) <==> Chosen(env, cases[1..], fallback, input, id))
      && (Undecided(env, cases, fallback, input, e) <==> Undecided(env, cases[1..], fallback, input, e))
    ensures !IsFalse(env, cases[0].condition, input) ==>
      && (Chosen(env, cases, fallback, input, id) <==> IsTrue(env, cases[0].condition, input) && cases[0].id == id)
      && (Undecided(env, cases, fallback, input, e) <==> IsBroken(env, cases[0].condition, input, e))
  {
    hide IsTrue, IsFalse, IsBroken, FirstTrue, FirstBroken, AllFalse;
    if IsFalse(env, cases[0].condition, input) {
      forall i: int
        ensures AllFalse(env, cases, input) <==> AllFalse(env, cases[1..], input)
        ensures FirstTrue(env, cases, input, i) <==> FirstTrue(env, cases[1..], input, i - 1)
        ensures FirstBroken(env, cases, input, i, e) <==> FirstBroken(env, cases[1..], input, i - 1, e)
      {
        FalseStep(env, cases, input, i, e);
      }
      FalseStep(env, cases, input, 0, e);
      assert forall i: int :: FirstTrue(env, cases[1..], input, i) ==> FirstTrue(env, cases, input, i + 1);
      assert forall i: int :: FirstBroken(env, cases[1..], input, i, e) ==> FirstBroken(env, cases, input, i + 1, e);
      ShiftedCases(env, cases, input);
    } else {
      forall i: int
        ensures FirstTrue(env, cases, input, i) <==> i == 0 && IsTrue(env, cases[0].condition, input)
        ensures FirstBroken(env, cases, input, i, e) <==> i == 0 && IsBroken(env, cases[0].condition, input, e)
      {
        FirstStep(env, cases, input, i, e);
      }
      FirstStep(env, cases, input, 0, e);
    }
  }

  lemma ShiftedCases(env: Env, cases: seq<Case>, input: Value)
    requires cases != []
    ensures forall i: int :: FirstTrue(env, cases, input, i) ==> 0 <= i < |cases|
    ensures forall i: int :: FirstTrue(env, cases[1..], input, i) ==> 0 <= i < |cases[1..]| && cases[1..][i] == cases[i + 1]
  {
    hide IsTrue, AllFalse;
  }

  /** A decision takes exactly the alternative it should, or fails for exactly one reason. */
  lemma {:induction false} SelectMeans(env: Env, cases: seq<Case>, fallback: Option<Branch>, input: Value, id: string, e: ForgeError)
    ensures Select(env, cases, fallback, input) == Ok(id) <==> Chosen(env, cases, fallback, input, id)
    ensures Select(env, cases, fallback, input) == Err(e) <==> Undecided(env, cases, fallback, input, e)
  {
    if cases != [] {
      TruthMeans(env, cases[0].condition, input);
      TrueIsNotFalse(env, cases[0].condition, input, e);
      SelectMeans(env, cases[1..], fallback, input, id, e);
      SelectStep(env, cases, fallback, input, id, e);
      hide IsTrue, IsFalse, IsBroken, Truth, Chosen, Undecided;
    }
  }

  predicate DistinctAlternatives(cases: seq<Case>, fallback: Option<Branch>) {
    && (forall i, j :: 0 <= i < j < |cases| ==> cases[i].id != cases[j].id)
    && (fallback.Some? ==> forall i :: 0 <= i < |cases| ==> cases[i].id != fallback.value.id)
  }

  function TookCase(id: string, r: Result1): Result1 {
    match r case Err(e) => Err(e) case Ok(v) => Ok(Object([Field("output", v), Field("selected", Str(id))]))
  }

  lemma {:induction false} FindCaseAt(cases: seq<Case>, i: nat)
    requires i < |cases| && forall j :: 0 <= j < i ==> cases[j].id != cases[i].id
    ensures FindCase(cases, cases[i].id) == i
  {
    if i > 0 {
      FindCaseAt(cases[1..], i - 1);
    }
  }

  lemma {:induction false} FindNoCase(cases: seq<Case>, id: string)
    requires forall j :: 0 <= j < |cases| ==> cases[j].id != id
    ensures FindCase(cases, id) == |cases|
  {
    if cases != [] {
      FindNoCase(cases[1..], id);
    }
  }

  /** A decision is its first case that holds, run on the decision's own input in that case's scope; else its fallback. */
  lemma ChoiceMeans(env: Env, cases: seq<Case>, fallback: Option<Branch>, input: Value, key: Path, log: Log, i: nat, e: ForgeError)
    requires DistinctAlternatives(cases, fallback)
    ensures var r := EvalControl(env, Choose(cases, fallback), input, key, log);
      && (FirstTrue(env, cases, input, i) ==>
            r == TookCase(cases[i].id, EvalBody(env, cases[i].body, input, key + ["cases", cases[i].id], log)))
      && (AllFalse(env, cases, input) && fallback.Some? ==>
            r == TookCase(fallback.value.id, EvalBody(env, fallback.value.body, input, key + ["cases", fallback.value.id], log)))
      && (Undecided(env, cases, fallback, input, e) ==> r == Err(e))
  {
    hide EvalBody, IsTrue, IsFalse, IsBroken, Select;
    if FirstTrue(env, cases, input, i) {
      SelectMeans(env, cases, fallback, input, cases[i].id, e);
      FindCaseAt(cases, i);
    }
    if AllFalse(env, cases, input) && fallback.Some? {
      SelectMeans(env, cases, fallback, input, fallback.value.id, e);
      FindNoCase(cases, fallback.value.id);
    }
    SelectMeans(env, cases, fallback, input, "", e);
  }

  // ---------------------------------------------------------------- tries

  /** The code a handler is looked up under: that of the first diagnostic's cause, or of the diagnostic itself. */
  predicate Bears(error: ForgeError, code: string) {
    if error.diagnostics == [] then code == "internal"
    else if error.diagnostics[0].operationError.Some? then code == error.diagnostics[0].operationError.value.code
    else code == error.diagnostics[0].code
  }

  predicate NoHandler(catches: seq<Catch>, code: string) {
    forall i :: 0 <= i < |catches| ==> catches[i].code != code
  }

  /** The handler for a code: the first that names it. */
  predicate Handles(catches: seq<Catch>, code: string, i: int) {
    0 <= i < |catches| && catches[i].code == code && NoHandler(catches[..i], code)
  }

  predicate DistinctHandlers(catches: seq<Catch>, otherwise: Branch) {
    && (forall i, j :: 0 <= i < j < |catches| ==> catches[i].id != catches[j].id)
    && (forall i :: 0 <= i < |catches| ==> catches[i].id != otherwise.id)
  }

  /** A diagnostic of an effect that may have happened, of cancellation, or of the host. */
  predicate MustPass(d: Diagnostic) {
    || d.code == "effect.unknown" || d.code == "operation.cancelled" || d.code == "resource.limit" || d.code == "access.denied"
    || (d.operationError.Some?
        && (d.operationError.value.certainty != NotApplied || d.operationError.value.kind == CancelledClass
            || d.operationError.value.kind == Internal || d.operationError.value.kind == ErrorClass.Resource))
  }

  predicate Unhandleable(error: ForgeError) {
    exists i :: 0 <= i < |error.diagnostics| && MustPass(error.diagnostics[i])
  }

  lemma CatchableMeans(error: ForgeError)
    ensures Catchable(error) <==> !Unhandleable(error)
  {
  }

  lemma {:induction false} HandlerMeans(catches: seq<Catch>, otherwise: Branch, code: string, i: int)
    ensures Handles(catches, code, i) ==> Handler(catches, otherwise, code) == catches[i].id
    ensures NoHandler(catches, code) ==> Handler(catches, otherwise, code) == otherwise.id
  {
    if catches != [] {
      HandlerMeans(catches[1..], otherwise, code, i - 1);
      if i > 0 && Handles(catches, code, i) {
        assert catches[..i][0] == catches[0];
        var front, rest := catches[..i], catches[1..][..i - 1];
        assert forall j :: 0 <= j < |rest| ==> rest[j] == front[j + 1];
      }
    }
  }

  lemma {:induction false} FindCatchAt(catches: seq<Catch>, i: nat)
    requires i < |catches| && forall j :: 0 <= j < i ==> catches[j].id != catches[i].id
    ensures FindCatch(catches, catches[i].id) == i
  {
    if i > 0 {
      FindCatchAt(catches[1..], i - 1);
    }
  }

  lemma {:induction false} FindNoCatch(catches: seq<Catch>, id: string)
    requires forall j :: 0 <= j < |catches| ==> catches[j].id != id
    ensures FindCatch(catches, id) == |catches|
  {
    if catches != [] {
      FindNoCatch(catches[1..], id);
    }
  }

  function TookHandler(id: string, r: Result1): Result1 {
    match r
    case Err(e) => Err(e)
    case Ok(v) => Ok(Object([Field("handler", Str(id)), Field("outcome", Str("handled")), Field("output", v)]))
  }

  /** What a handler is given: the rendered error beside the input of the try. */
  function GivenToHandler(env: Env, error: ForgeError, input: Value): Value {
    Object([Field("error", env.render(error)), Field("input", input)])
  }

  lemma RecoveredMeans(env: Env, body: Body, id: string, input: Value, error: ForgeError, key: Path, log: Log)
    ensures EvalRecovered(env, body, id, input, error, key, log) ==
      TookHandler(id, EvalBody(env, body, GivenToHandler(env, error, input), key + ["catch", id], log))
  {
    hide EvalBody;
    assert Handled(env, input, error) == GivenToHandler(env, error, input);
  }

  lemma HandlerRuns(env: Env, instr: Instr, input: Value, error: ForgeError, key: Path, log: Log, i: nat)
    requires instr.Attempt? && DistinctHandlers(instr.catches, instr.otherwise)
    ensures i < |instr.catches| ==>
      EvalHandler(env, instr, instr.catches[i].id, input, error, key, log) ==
      TookHandler(instr.catches[i].id,
                  EvalBody(env, instr.catches[i].body, GivenToHandler(env, error, input), key + ["catch", instr.catches[i].id], log))
    ensures EvalHandler(env, instr, instr.otherwise.id, input, error, key, log) ==
      TookHandler(instr.otherwise.id,
                  EvalBody(env, instr.otherwise.body, GivenToHandler(env, error, input), key + ["catch", instr.otherwise.id], log))
  {
    hide EvalBody, EvalRecovered, TookHandler;
    if i < |instr.catches| {
      FindCatchAt(instr.catches, i);
      RecoveredMeans(env, instr.catches[i].body, instr.catches[i].id, input, error, key, log);
    }
    FindNoCatch(instr.catches, instr.otherwise.id);
    RecoveredMeans(env, instr.otherwise.body, instr.otherwise.id, input, error, key, log);
  }

  /**
   A try is its body, or the handler its error reaches: the first that names the code the error bears, else the last
   resort. An error that must not be handled passes through unchanged.
   */
  lemma TryMeans(env: Env, body: Body, catches: seq<Catch>, otherwise: Branch, input: Value, key: Path, log: Log, code: string, i: nat)
    requires DistinctHandlers(catches, otherwise)
    ensures var r, tried := EvalControl(env, Attempt(body, catches, otherwise), input, key, log), EvalBody(env, body, input, key + ["try"], log);
      && (tried.Ok? ==> r == Ok(Object([Field("outcome", Str("success")), Field("output", tried.value)])))
      && (tried.Err? && Unhandleable(tried.error) ==> r == tried)
      && (tried.Err? && !Unhandleable(tried.error) && Bears(tried.error, code) ==>
            && (Handles(catches, code, i) ==>
                  r == TookHandler(catches[i].id, EvalBody(env, catches[i].body, GivenToHandler(env, tried.error, input),
                                                           key + ["catch", catches[i].id], log)))
            && (NoHandler(catches, code) ==>
                  r == TookHandler(otherwise.id, EvalBody(env, otherwise.body, GivenToHandler(env, tried.error, input),
                                                          key + ["catch", otherwise.id], log))))
  {
    hide EvalBody, EvalHandler, Handler, Catchable, Unhandleable, Handles, NoHandler, TookHandler, DistinctHandlers;
    var tried := EvalBody(env, body, input, key + ["try"], log);
    if tried.Err? {
      CatchableMeans(tried.error);
      assert Bears(tried.error, code) ==> CaughtCode(tried.error) == code;
      HandlerMeans(catches, otherwise, code, i);
      HandlerRuns(env, Attempt(body, catches, otherwise), input, tried.error, key, log, i);
      if Handles(catches, code, i) {
        HandlesInside(catches, code, i);
      }
    }
  }

  lemma HandlesInside(catches: seq<Catch>, code: string, i: nat)
    requires Handles(catches, code, i)
    ensures i < |catches|
  {
  }

  // ---------------------------------------------------------------- loops

  /** What a turn is given: its number and the state the turn before it left. */
  function GivenToTurn(state: Value, n: nat): Value {
    Object([Field("iteration", Number(Decimal(n))), Field("state", state)])
  }

  /** Turn `n` was due and took one state to the next. */
  ghost predicate Turns(env: Env, instr: Instr, before: Value, after: Value, n: nat, key: Path, log: Log)
    requires instr.Repeat?
  {
    && n < instr.limit && IsTrue(env, instr.condition, GivenToTurn(before, n))
    && EvalBody(env, instr.body, GivenToTurn(before, n), key + ["iterations", Decimal(n)], log) == Ok(after)
  }

  /** The loop as the sequence of states from turn `n` on. */
  ghost predicate Unrolls(env: Env, instr: Instr, states: seq<Value>, n: nat, key: Path, log: Log)
    requires instr.Repeat?
  {
    states != [] && forall i: nat :: i < |states| - 1 ==> Turns(env, instr, states[i], states[i + 1], n + i, key, log)
  }

  /** How a loop ends at its last state: the condition fails, breaks, or outlives the limit, or the turn itself fails. */
  ghost predicate LoopEnds(env: Env, instr: Instr, state: Value, n: nat, key: Path, log: Log, r: Result1)
    requires instr.Repeat?
  {
    || (IsFalse(env, instr.condition, GivenToTurn(state, n)) && r == Ok(state))
    || (r.Err? && IsBroken(env, instr.condition, GivenToTurn(state, n), r.error))
    || (IsTrue(env, instr.condition, GivenToTurn(state, n)) && n >= instr.limit
        && r == if instr.returnLast then Ok(state) else Err(Plain("control.iteration_limit")))
    || (IsTrue(env, instr.condition, GivenToTurn(state, n)) && n < instr.limit && r.Err?
        && EvalBody(env, instr.body, GivenToTurn(state, n), key + ["iterations", Decimal(n)], log) == r)
  }

  /** One turn of the evaluator: it ends here, or goes on from the next state. */
  lemma TurnStep(env: Env, instr: Instr, state: Value, n: nat, key: Path, log: Log, next: Value)
    requires instr.Repeat?
    ensures Turns(env, instr, state, next, n, key, log) ==>
      EvalTurns(env, instr, state, n, key, log) == EvalTurns(env, instr, next, n + 1, key, log)
    ensures var turn := EvalBody(env, instr.body, GivenToTurn(state, n), key + ["iterations", Decimal(n)], log);
      (turn.Ok? ==> turn.value == next) && !Turns(env, instr, state, next, n, key, log) ==>
        LoopEnds(env, instr, state, n, key, log, EvalTurns(env, instr, state, n, key, log))
  {
    hide EvalBody;
    assert TurnInput(state, n) == GivenToTurn(state, n);
    TruthMeans(env, instr.condition, GivenToTurn(state, n));
  }

  lemma {:induction false} TurnsUnroll(env: Env, instr: Instr, state: Value, n: nat, key: Path, log: Log) returns (states: seq<Value>)
    requires instr.Repeat?
    ensures Unrolls(env, instr, states, n, key, log) && states[0] == state
    ensures LoopEnds(env, instr, states[|states| - 1], n + |states| - 1, key, log, EvalTurns(env, instr, state, n, key, log))
    decreases if n <= instr.limit then instr.limit - n else 0
  {
    hide EvalBody, EvalTurns, LoopEnds, Turns, GivenToTurn;
    var turn := EvalBody(env, instr.body, GivenToTurn(state, n), key + ["iterations", Decimal(n)], log);
    var next := if turn.Ok? then turn.value else Null;
    TurnStep(env, instr, state, n, key, log, next);
    states := [state];
    if Turns(env, instr, state, next, n, key, log) {
      TurnWithin(env, instr, state, next, n, key, log);
      var rest := TurnsUnroll(env, instr, next, n + 1, key, log);
      states := [state] + rest;
      forall i: nat | i < |states| - 1
        ensures Turns(env, instr, states[i], states[i + 1], n + i, key, log)
      {
        if i > 0 {
          assert states[i + 1] == rest[i] && states[i] == rest[i - 1];
          assert Turns(env, instr, rest[i - 1], rest[i - 1 + 1], n + 1 + (i - 1), key, log);
        }
      }
      assert states[|states| - 1] == rest[|rest| - 1];
    }
  }

  lemma TurnWithin(env: Env, instr: Instr, before: Value, after: Value, n: nat, key: Path, log: Log)
    requires instr.Repeat? && Turns(env, instr, before, after, n, key, log)
    ensures n < instr.limit
  {
  }

  /**
   A loop unrolls: from its input through the states its turns leave, each turn due, numbered from nought and within the
   limit, to the one state at which it ends; and how it ends there is its result.
   */
  lemma LoopUnrolls(env: Env, instr: Instr, input: Value, key: Path, log: Log) returns (states: seq<Value>)
    requires instr.Repeat?
    ensures Unrolls(env, instr, states, 0, key, log) && states[0] == input
    ensures LoopEnds(env, instr, states[|states| - 1], |states| - 1, key, log, EvalControl(env, instr, input, key, log))
  {
    hide EvalTurns;
    states := TurnsUnroll(env, instr, input, 0, key, log);
  }

  // ---------------------------------------------------------------- groups

  /** A child's error that ends its group: any under fail-fast, an unknown effect always. */
  predicate Fatal(r: Result1, failFast: bool) {
    r.Err? && (failFast || r.error.Code() == "effect.unknown")
  }

  predicate NoneFatal(results: seq<Result1>, failFast: bool) {
    forall i :: 0 <= i < |results| ==> !Fatal(results[i], failFast)
  }

  predicate FirstFatal(results: seq<Result1>, failFast: bool, i: int) {
    0 <= i < |results| && Fatal(results[i], failFast) && NoneFatal(results[..i], failFast)
  }

  /** A group collects every child's result, or ends with the fatal error of the lowest child. */
  lemma {:induction false} JoinedMeans(results: seq<Result1>, failFast: bool, i: int)
    ensures NoneFatal(results, failFast) ==> Joined(results, failFast) == Ok(results)
    ensures FirstFatal(results, failFast, i) ==> Joined(results, failFast) == Err(results[i].error)
  {
    if results != [] {
      var rest := results[1..];
      JoinedMeans(rest, failFast, i - 1);
      if NoneFatal(results, failFast) {
        assert forall j :: 0 <= j < |rest| ==> rest[j] == results[j + 1];
        assert results == [results[0]] + rest;
      }
      if i > 0 && FirstFatal(results, failFast, i) {
        var front, back := results[..i], rest[..i - 1];
        assert front[0] == results[0];
        assert forall j :: 0 <= j < |back| ==> back[j] == front[j + 1];
      }
    }
  }

  /** How a collected result reads: what a child returned, or its rendered error. */
  predicate Entered(env: Env, r: Result1, entry: Value) {
    match r
    case Ok(v) => entry == Object([Field("output", v), Field("status", Str("succeeded"))])
    case Err(e) => entry == Object([Field("error", env.render(e)), Field("status", Str("failed"))])
  }

  predicate EnteredAt(env: Env, r: Result1, n: nat, entry: Value) {
    match r
    case Ok(v) => entry == Object([Field("index", Number(Decimal(n))), Field("output", v), Field("status", Str("succeeded"))])
    case Err(e) => entry == Object([Field("error", env.render(e)), Field("index", Number(Decimal(n))), Field("status", Str("failed"))])
  }

  lemma {:induction false} BranchesMean(env: Env, branches: seq<Branch>, input: Value, key: Path, log: Log, i: nat)
    requires i < |branches|
    ensures EvalBranches(env, branches, input, key, log)[i] ==
      EvalBody(env, branches[i].body, input, key + ["branches", branches[i].id], log)
  {
    hide EvalBody;
    if i > 0 {
      BranchesMean(env, branches[1..], input, key, log, i - 1);
    }
  }

  /** What an item is given: the group's input as its context, its own position, and itself. */
  function GivenToItem(context: Value, item: Value, n: nat): Value {
    Object([Field("context", context), Field("index", Number(Decimal(n))), Field("item", item)])
  }

  lemma ItemsStep(env: Env, body: Body, values: seq<Value>, n: nat, context: Value, key: Path, log: Log)
    requires values != []
    ensures EvalItems(env, body, values, n, context, key, log) ==
      [EvalBody(env, body, GivenToItem(context, values[0], n), key + ["items", Decimal(n)], log)]
      + EvalItems(env, body, values[1..], n + 1, context, key, log)
  {
    hide EvalBody;
    assert ItemInput(context, values[0], n) == GivenToItem(context, values[0], n);
  }

  lemma {:induction false} ItemsMean(env: Env, body: Body, values: seq<Value>, n: nat, context: Value, key: Path, log: Log, i: nat)
    requires i < |values|
    ensures EvalItems(env, body, values, n, context, key, log)[i] ==
      EvalBody(env, body, GivenToItem(context, values[i], n + i), key + ["items", Decimal(n + i)], log)
    decreases i
  {
    hide EvalBody, EvalItems, GivenToItem;
    ItemsStep(env, body, values, n, context, key, log);
    if i > 0 {
      ItemsMean(env, body, values[1..], n + 1, context, key, log, i - 1);
      assert n + 1 + (i - 1) == n + i;
    }
  }

  /** These are the meanings of the branches, each on the group's input in its own scope. */
  ghost predicate BranchResults(env: Env, branches: seq<Branch>, input: Value, key: Path, log: Log, results: seq<Result1>) {
    && |results| == |branches|
    && forall i :: 0 <= i < |branches| ==>
         results[i] == EvalBody(env, branches[i].body, input, key + ["branches", branches[i].id], log)
  }

  /** A parallel group: one field for each branch, under its name and in its order; or its lowest fatal error. */
  lemma ForkMeans(env: Env, branches: seq<Branch>, failFast: bool, input: Value, key: Path, log: Log, results: seq<Result1>, i: nat)
    requires BranchResults(env, branches, input, key, log, results)
    ensures var r := EvalControl(env, Fork(branches, failFast), input, key, log);
      && (NoneFatal(results, failFast) ==>
            && r.Ok? && r.value.Object? && |r.value.fields| == |branches|
            && forall j :: 0 <= j < |branches| ==>
                 r.value.fields[j].key == branches[j].id && Entered(env, results[j], r.value.fields[j].value))
      && (FirstFatal(results, failFast, i) ==> r == Err(results[i].error))
  {
    hide EvalBody, Joined, NoneFatal, FirstFatal;
    forall j | 0 <= j < |branches|
      ensures EvalBranches(env, branches, input, key, log)[j] == results[j]
    {
      BranchesMean(env, branches, input, key, log, j);
    }
    hide EvalBranches;
    assert EvalBranches(env, branches, input, key, log) == results;
    JoinedMeans(results, failFast, i);
  }

  ghost predicate ItemResults(env: Env, body: Body, values: seq<Value>, context: Value, key: Path, log: Log, results: seq<Result1>) {
    && |results| == |values|
    && forall i :: 0 <= i < |values| ==>
         results[i] == EvalBody(env, body, GivenToItem(context, values[i], i), key + ["items", Decimal(i)], log)
  }

  /** A group over items: one entry for each item, in order and numbered from nought; or its lowest fatal error. */
  lemma EachMeans(env: Env, items: Binding, body: Body, failFast: bool, input: Value, key: Path, log: Log, values: seq<Value>,
                  results: seq<Result1>, i: nat)
    requires env.evaluate(items, input, map[]) == Ok(Array(values)) && ItemResults(env, body, values, input, key, log, results)
    ensures var r := EvalControl(env, Each(items, body, failFast), input, key, log);
      && (NoneFatal(results, failFast) ==>
            && r.Ok? && r.value.Array? && |r.value.items| == |values|
            && forall j :: 0 <= j < |values| ==> EnteredAt(env, results[j], j, r.value.items[j]))
      && (FirstFatal(results, failFast, i) ==> r == Err(results[i].error))
  {
    hide EvalBody, Joined, NoneFatal, FirstFatal;
    forall j | 0 <= j < |values|
      ensures EvalItems(env, body, values, 0, input, key, log)[j] == results[j]
    {
      ItemsMean(env, body, values, 0, input, key, log, j);
    }
    hide EvalItems;
    assert EvalItems(env, body, values, 0, input, key, log) == results;
    JoinedMeans(results, failFast, i);
  }

  /** Items that are no array, or cannot be evaluated, end the group before any child. */
  lemma EachBroken(env: Env, items: Binding, body: Body, failFast: bool, input: Value, key: Path, log: Log)
    ensures var given, r := env.evaluate(items, input, map[]), EvalControl(env, Each(items, body, failFast), input, key, log);
      && (given.Err? ==> r == Err(given.error))
      && (given.Ok? && !given.value.Array? ==> r == Err(Plain("data.invalid")))
  {
  }

  // ---------------------------------------------------------------- calls, nodes and bodies

  /** A call: refused by the callee's input contract, else its body in the scope of that revision, released by its output contract. */
  lemma CallMeans(env: Env, id: string, revision: string, body: Body, input: Value, key: Path, log: Log)
    ensures var r := EvalControl(env, Call(id, revision, body), input, key, log);
      var ran := EvalBody(env, body, input, key + ["workflows", id, "revisions", revision], log);
      if env.accepts(id, revision, input).Some? then r == Err(env.accepts(id, revision, input).value)
      else if ran.Ok? && env.releases(id, revision, ran.value).Some? then r == Err(env.releases(id, revision, ran.value).value)
      else r == ran
  {
    hide EvalBody;
  }

  /** A node: a fault observed at its own key is its outcome, a leaf returns what was observed, a control what it computes. */
  lemma NodeMeans(env: Env, n: Node, input: Value, key: Path, log: Log)
    ensures var r := EvalNode(env, n, input, key, log);
      && (key in log && log[key].Fault? ==> r == Err(log[key].error))
      && ((n.instr.Operation? || n.instr.Pause?) && key in log && log[key].Output? ==> r == Ok(log[key].value))
      && (!n.instr.Operation? && !n.instr.Pause? && !(key in log && log[key].Fault?) ==>
            var v := EvalControl(env, n.instr, input, key, log);
            if v.Ok? && env.check(v.value).Some? then r == Err(env.check(v.value).value) else r == v)
  {
    hide EvalControl;
  }

  /** The outputs a node may refer to: those of the nodes before it, under their names. */
  ghost function OutputsBefore(nodes: seq<Node>, values: seq<Value>, i: nat): map<string, Value>
    requires i <= |nodes| && i <= |values|
  {
    if i == 0 then map[] else OutputsBefore(nodes, values, i - 1)[nodes[i - 1].id := values[i - 1]]
  }

  /** Node `i` has its value: its input was bound from the body's input and the nodes before it. */
  ghost predicate NodeGives(env: Env, nodes: seq<Node>, input: Value, path: Path, log: Log, values: seq<Value>, i: nat)
    requires i < |nodes| && i < |values|
  {
    var given := env.evaluate(nodes[i].input, input, OutputsBefore(nodes, values, i));
    given.Ok? && EvalNode(env, nodes[i], given.value, path + ["nodes", nodes[i].id], log) == Ok(values[i])
  }

  /** All nodes have their values. */
  ghost predicate BodyGives(env: Env, nodes: seq<Node>, input: Value, path: Path, log: Log, values: seq<Value>) {
    |values| == |nodes| && forall i: nat :: i < |nodes| ==> NodeGives(env, nodes, input, path, log, values, i)
  }

  lemma {:induction false} NodesMean(env: Env, nodes: seq<Node>, output: Binding, input: Value, path: Path, log: Log,
                                     values: seq<Value>, n: nat)
    requires BodyGives(env, nodes, input, path, log, values) && n <= |nodes|
    ensures EvalNodes(env, nodes[n..], output, input, OutputsBefore(nodes, values, n), path, log)
         == env.evaluate(output, input, OutputsBefore(nodes, values, |nodes|))
    decreases |nodes| - n
  {
    hide EvalNode;
    if n < |nodes| {
      assert NodeGives(env, nodes, input, path, log, values, n);
      var key := KeyOf(path, nodes[n].id);
      var given := env.evaluate(nodes[n].input, input, OutputsBefore(nodes, values, n)).value;
      NodeMeans(env, nodes[n], given, key, log);
      assert nodes[n..][0] == nodes[n] && nodes[n..][1..] == nodes[n + 1..];
      NodesMean(env, nodes, output, input, path, log, values, n + 1);
    }
  }

  /** A body whose nodes all have their values means its output, bound from them. */
  lemma BodyMeans(env: Env, body: Body, input: Value, path: Path, log: Log, values: seq<Value>)
    requires BodyGives(env, body.nodes, input, path, log, values)
    ensures EvalBody(env, body, input, path, log) == env.evaluate(body.output, input, OutputsBefore(body.nodes, values, |body.nodes|))
  {
    hide EvalNodes;
    NodesMean(env, body.nodes, body.output, input, path, log, values, 0);
    assert body.nodes[0..] == body.nodes;
  }

  /** A body that ends in an error has a first node without a value, or an output that cannot be bound. */
  lemma {:induction false} NodesGive(env: Env, nodes: seq<Node>, output: Binding, input: Value, path: Path, log: Log,
                                     values: seq<Value>, n: nat) returns (all: seq<Value>)
    requires |values| == n <= |nodes| && forall i: nat :: i < n ==> NodeGives(env, nodes, input, path, log, values, i)
    requires EvalNodes(env, nodes[n..], output, input, OutputsBefore(nodes, values, n), path, log).Ok?
    ensures BodyGives(env, nodes, input, path, log, all)
    decreases |nodes| - n
  {
    hide EvalNode;
    all := values;
    if n < |nodes| {
      assert nodes[n..][0] == nodes[n] && nodes[n..][1..] == nodes[n + 1..];
      var given := env.evaluate(nodes[n].input, input, OutputsBefore(nodes, values, n)).value;
      var v := EvalNode(env, nodes[n], given, KeyOf(path, nodes[n].id), log).value;
      var longer := values + [v];
      forall i: nat | i <= n
        ensures OutputsBefore(nodes, longer, i) == OutputsBefore(nodes, values, i)
      {
        SameOutputs(nodes, values, longer, i);
      }
      forall i: nat | i < n + 1
        ensures NodeGives(env, nodes, input, path, log, longer, i)
      {
        if i < n {
          assert NodeGives(env, nodes, input, path, log, values, i);
        }
      }
      all := NodesGive(env, nodes, output, input, path, log, longer, n + 1);
    }
  }

  lemma {:induction false} SameOutputs(nodes: seq<Node>, a: seq<Value>, b: seq<Value>, i: nat)
    requires i <= |nodes| && i <= |a| && i <= |b| && a[..i] == b[..i]
    ensures OutputsBefore(nodes, a, i) == OutputsBefore(nodes, b, i)
  {
    if i > 0 {
      assert a[..i][i - 1] == b[..i][i - 1];
      assert a[..i - 1] == a[..i][..i - 1] && b[..i - 1] == b[..i][..i - 1];
      SameOutputs(nodes, a, b, i - 1);
    }
  }

  /**
   A body has a result exactly when each of its nodes in turn has a value, bound from those before it, and its output can
   be bound from all of them; the result is that output.
   */
  lemma BodyGivesResult(env: Env, body: Body, input: Value, path: Path, log: Log, v: Value)
    ensures EvalBody(env, body, input, path, log) == Ok(v) <==>
      exists values :: BodyGives(env, body.nodes, input, path, log, values)
        && env.evaluate(body.output, input, OutputsBefore(body.nodes, values, |body.nodes|)) == Ok(v)
  {
    hide EvalNodes, NodeGives;
    assert body.nodes[0..] == body.nodes;
    if EvalBody(env, body, input, path, log) == Ok(v) {
      var values := NodesGive(env, body.nodes, body.output, input, path, log, [], 0);
      BodyMeans(env, body, input, path, log, values);
    }
    forall values | BodyGives(env, body.nodes, input, path, log, values)
      ensures EvalBody(env, body, input, path, log) == env.evaluate(body.output, input, OutputsBefore(body.nodes, values, |body.nodes|))
    {
      BodyMeans(env, body, input, path, log, values);
    }
  }

  // ---------------------------------------------------------------- where a control starts

  /** The frame a control starts from: its decision taken, its group counted, its loop at turn nought. */
  ghost predicate Begins(env: Env, instr: Instr, input: Value, frame: ControlFrame) {
    match instr
    case Operation(_) => false
    case Pause(_) => false
    case Choose(cases, fallback) => frame.Decision? && Chosen(env, cases, fallback, input, frame.selected)
    case Attempt(_, _, _) => frame == ControlFrame.Try(None, None)
    case Repeat(_, _, _, _) => frame == ControlFrame.Loop(0, input)
    case Fork(branches, _) =>
      && frame.Parallel? && frame.nextIndex == 0 && !frame.stopped && frame.error == None
      && |frame.branches| == |branches| && forall i :: 0 <= i < |branches| ==> frame.branches[i] == branches[i].id
    case Each(items, _, _) =>
      exists values :: env.evaluate(items, input, map[]) == Ok(Array(values)) && frame == ControlFrame.Foreach(|values|, 0, false, None)
    case Call(id, revision, _) => frame == ControlFrame.Subworkflow(id, revision)
  }

  /** Why a control cannot start: an undecided decision, or items that are no array. */
  ghost predicate NeverBegins(env: Env, instr: Instr, input: Value, e: ForgeError) {
    match instr
    case Choose(cases, fallback) => Undecided(env, cases, fallback, input, e)
    case Each(items, _, _) => (
      match env.evaluate(items, input, map[])
      case Err(error) => e == error
      case Ok(v) => !v.Array? && e == Plain("data.invalid"))
    case _ => false
  }

  // ---------------------------------------------------------------- identities

  /** The start of a wait has a scope of its own below it, apart from every other start. */
  lemma StartsApart(p: Path, q: Path)
    ensures StartKey(p) == p + ["start", "nodes", "invoke"] && p < StartKey(p)
    ensures StartKey(p) == StartKey(q) ==> p == q
  {
    if StartKey(p) == StartKey(q) {
      assert p == StartKey(p)[..|StartKey(p)| - 3] && q == StartKey(q)[..|StartKey(q)| - 3];
    }
  }

  /** Two invocations never share an effect key: the key of a write is that of its own scope path, and nothing else of it changes. */
  lemma EffectKeysApart(a: D.OpPlan, b: D.OpPlan, p: Path, q: Path)
    requires p != [] && q != []
    ensures OpAt(a, p) == a.(logical := P.Key(p))
    ensures OpAt(a, p).EffectKey() == if a.descriptor.effect == Write then Some(P.Key(p)) else None
    ensures OpAt(a, p).EffectKey().Some? && OpAt(a, p).EffectKey() == OpAt(b, q).EffectKey() ==> p == q
  {
    if P.Key(p) == P.Key(q) {
      P.KeyInjective(p, q);
    }
  }
}
