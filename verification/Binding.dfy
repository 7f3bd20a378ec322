/**
 Data bindings: the static check made at preparation and the budgeted evaluation made
 at run time, both proved against one budget-free denotation.
 */
module DataBinding {
  import opened Wrappers
  import opened Text
  import opened Json
  import P = Pointer

  datatype Source = Input | Node

  datatype Selection = Selection(source: Source, node: Option<string>, pointer: string, fallback: Option<Binding>)

  datatype FieldBinding = FieldBinding(key: string, binding: Binding)

  datatype Binding =
    | Literal(value: Value)
    | Select(selection: Selection)
    | ObjectOf(fields: seq<FieldBinding>)
    | ArrayOf(items: seq<Binding>)

  datatype Limits = Limits(bindingDepth: nat, bindingSteps: nat, valueBytes: nat, jsonDepth: nat)

  datatype MappingError =
    | Budget | PointerBudget | BadPointer | UnknownProducer
    | ByteBudget | InvalidIndex | ScalarTraversal | Missing | ValueDepth | ValueBytes

  // ---------------------------------------------------------------- meaning

  /** One token of a selection. A missing value stays missing until the fallback. */
  function Descend(current: Option<Value>, token: string): Result<Option<Value>, MappingError> {
    match current
    case None => Ok(None)
    case Some(Object(fields)) =>
      var found := Lookup(fields, token);
      Ok(if found == [] then None else Some(found[0]))
    case Some(Array(items)) =>
      if token == "-" then Ok(None)
      else if (|token| > 1 && token[0] == '0') || token == "" || !Digits(token) then Err(InvalidIndex)
      else var index := ParseNat(token); Ok(if index < |items| then Some(items[index]) else None)
    case Some(_) => Err(ScalarTraversal)
  }

  function Navigate(current: Option<Value>, tokens: seq<string>): Result<Option<Value>, MappingError>
    decreases tokens
  {
    if tokens == [] then Ok(current)
    else match Descend(current, tokens[0])
      case Err(e) => Err(e)
      case Ok(next) => Navigate(next, tokens[1..])
  }

  function Base(s: Selection, input: Value, outputs: map<string, Value>): Option<Value> {
    match s.source
    case Input => Some(input)
    case Node => if s.node.Some? && s.node.value in outputs then Some(outputs[s.node.value]) else None
  }

  /** The value a binding denotes, with no budget at all. */
  function Denote(b: Binding, input: Value, outputs: map<string, Value>): Result<Value, MappingError> {
    match b
    case Literal(v) => Ok(v)
    case Select(s) => (
      match P.TokensOf(s.pointer)
      case Err(_) => Err(BadPointer)
      case Ok(tokens) =>
        match Navigate(Base(s, input, outputs), tokens)
        case Err(e) => Err(e)
        case Ok(Some(v)) => Ok(v)
        case Ok(None) =>
          match s.fallback
          case None => Err(Missing)
          case Some(fallback) => Denote(fallback, input, outputs))
    case ObjectOf(fields) => (
      match DenoteFields(fields, input, outputs)
      case Err(e) => Err(e)
      case Ok(values) => Ok(Object(values)))
    case ArrayOf(items) =>
      match DenoteItems(items, input, outputs)
      case Err(e) => Err(e)
      case Ok(values) => Ok(Array(values))
  }

  function DenoteFields(fields: seq<FieldBinding>, input: Value, outputs: map<string, Value>)
    : Result<seq<Field>, MappingError>
  {
    if fields == [] then Ok([])
    else match Denote(fields[0].binding, input, outputs)
      case Err(e) => Err(e)
      case Ok(v) => Then([Field(fields[0].key, v)], DenoteFields(fields[1..], input, outputs))
  }

  function DenoteItems(items: seq<Binding>, input: Value, outputs: map<string, Value>)
    : Result<seq<Value>, MappingError>
  {
    if items == [] then Ok([])
    else match Denote(items[0], input, outputs)
      case Err(e) => Err(e)
      case Ok(v) => Then([v], DenoteItems(items[1..], input, outputs))
  }

  function Then<T>(front: seq<T>, back: Result<seq<T>, MappingError>): Result<seq<T>, MappingError> {
    if back.Ok? then Ok(front + back.value) else back
  }

  lemma ThenThen<T>(a: seq<T>, b: seq<T>, c: Result<seq<T>, MappingError>)
    ensures Then(a, Then(b, c)) == Then(a + b, c)
    ensures Then([], c) == c
    ensures Then(a, Ok([])) == Ok(a)
  {
    if c.Ok? {
      assert a + (b + c.value) == a + b + c.value;
      assert [] + c.value == c.value;
    }
    assert a + [] == a;
  }

  // ---------------------------------------------------------------- static cost

  function TokenCount(pointer: string): nat {
    match P.TokensOf(pointer) case Ok(tokens) => |tokens| case Err(_) => 0
  }

  /** Every step any evaluation could take, fallbacks included. */
  function Cost(b: Binding): (c: nat)
    ensures c >= 1
  {
    match b
    case Literal(_) => 1
    case Select(s) => 1 + TokenCount(s.pointer) + (if s.fallback.Some? then Cost(s.fallback.value) else 0)
    case ObjectOf(fields) => 1 + CostFields(fields)
    case ArrayOf(items) => 1 + CostItems(items)
  }

  function CostFields(fields: seq<FieldBinding>): nat {
    if fields == [] then 0 else Cost(fields[0].binding) + CostFields(fields[1..])
  }

  function CostItems(items: seq<Binding>): nat {
    if items == [] then 0 else Cost(items[0]) + CostItems(items[1..])
  }

  function Height(b: Binding): (h: nat)
    ensures h >= 1
  {
    match b
    case Literal(_) => 1
    case Select(s) => 1 + (if s.fallback.Some? then Height(s.fallback.value) else 0)
    case ObjectOf(fields) => 1 + HeightFields(fields)
    case ArrayOf(items) => 1 + HeightItems(items)
  }

  function HeightFields(fields: seq<FieldBinding>): nat {
    if fields == [] then 0 else Max(Height(fields[0].binding), HeightFields(fields[1..]))
  }

  function HeightItems(items: seq<Binding>): nat {
    if items == [] then 0 else Max(Height(items[0]), HeightItems(items[1..]))
  }

  predicate Checkable(v: Value, limits: Limits) {
    Depth(v) <= limits.jsonDepth && Size(v) <= limits.valueBytes
  }

  /** Pointers parse, producers are available, literals are within their limits. */
  predicate WellFormed(b: Binding, available: set<string>, limits: Limits) {
    match b
    case Literal(v) => Checkable(v, limits)
    case Select(s) =>
      && P.TokensOf(s.pointer).Ok?
      && (s.source == Input ==> s.node == None)
      && (s.source == Node ==> s.node.Some? && s.node.value in available)
      && (s.fallback.Some? ==> WellFormed(s.fallback.value, available, limits))
    case ObjectOf(fields) => forall i :: 0 <= i < |fields| ==> WellFormed(fields[i].binding, available, limits)
    case ArrayOf(items) => forall i :: 0 <= i < |items| ==> WellFormed(items[i], available, limits)
  }

  predicate Accepted(b: Binding, available: set<string>, limits: Limits) {
    WellFormed(b, available, limits) && Cost(b) <= limits.bindingSteps && Height(b) <= limits.bindingDepth
  }

  // ---------------------------------------------------------------- the check

  /** The recursive visit of the static check; `steps` is threaded through it. */
  method Visit(b: Binding, available: set<string>, limits: Limits, depth: nat, steps0: nat)
    returns (r: Result<(), MappingError>, steps: nat)
    requires depth >= 1
    ensures r.Ok? <==>
      && WellFormed(b, available, limits)
      && steps0 + Cost(b) <= limits.bindingSteps
      && depth - 1 + Height(b) <= limits.bindingDepth
    ensures r.Ok? ==> steps == steps0 + Cost(b)
    decreases b, 1
  {
    steps := steps0 + 1;
    if depth > limits.bindingDepth || steps > limits.bindingSteps {
      return Err(Budget), steps;
    }
    match b {
      case Select(s) =>
        var tokens := P.Tokens(s.pointer);
        if tokens.Err? {
          return Err(BadPointer), steps;
        }
        steps := steps + |tokens.value|;
        if !((s.source == Input && s.node == None)
             || (s.source == Node && s.node.Some? && s.node.value in available)) {
          return Err(UnknownProducer), steps;
        }
        if s.fallback.Some? {
          r, steps := Visit(s.fallback.value, available, limits, depth + 1, steps);
          if r.Err? {
            return;
          }
        }
      case ObjectOf(fields) =>
        r, steps := VisitFields(b, fields, available, limits, depth, steps);
        return;
      case ArrayOf(items) =>
        r, steps := VisitItems(b, items, available, limits, depth, steps);
        return;
      case Literal(v) =>
        if Depth(v) > limits.jsonDepth {
          return Err(ValueDepth), steps;
        }
        if Size(v) > limits.valueBytes {
          return Err(ValueBytes), steps;
        }
    }
    if steps > limits.bindingSteps {
      return Err(Budget), steps;
    }
    r := Ok(());
  }

  method VisitFields(b: Binding, fields: seq<FieldBinding>, available: set<string>, limits: Limits, depth: nat, steps0: nat)
    returns (r: Result<(), MappingError>, steps: nat)
    requires b == ObjectOf(fields) && 1 <= depth <= limits.bindingDepth && steps0 <= limits.bindingSteps
    ensures r.Ok? <==>
      && WellFormed(b, available, limits)
      && steps0 + CostFields(fields) <= limits.bindingSteps
      && depth + HeightFields(fields) <= limits.bindingDepth
    ensures r.Ok? ==> steps == steps0 + CostFields(fields)
    decreases b, 0
  {
    steps := steps0;
    assert fields[0..] == fields;
    for i := 0 to |fields|
      invariant steps + CostFields(fields[i..]) == steps0 + CostFields(fields) && steps <= limits.bindingSteps
      invariant depth + HeightFields(fields) <= limits.bindingDepth <==> depth + HeightFields(fields[i..]) <= limits.bindingDepth
      invariant forall j :: 0 <= j < i ==> WellFormed(fields[j].binding, available, limits)
    {
      assert fields[i..][0] == fields[i] && fields[i..][1..] == fields[i + 1..];
      r, steps := Visit(fields[i].binding, available, limits, depth + 1, steps);
      if r.Err? {
        return;
      }
    }
    r := Ok(());
  }

  method VisitItems(b: Binding, items: seq<Binding>, available: set<string>, limits: Limits, depth: nat, steps0: nat)
    returns (r: Result<(), MappingError>, steps: nat)
    requires b == ArrayOf(items) && 1 <= depth <= limits.bindingDepth && steps0 <= limits.bindingSteps
    ensures r.Ok? <==>
      && WellFormed(b, available, limits)
      && steps0 + CostItems(items) <= limits.bindingSteps
      && depth + HeightItems(items) <= limits.bindingDepth
    ensures r.Ok? ==> steps == steps0 + CostItems(items)
    decreases b, 0
  {
    steps := steps0;
    assert items[0..] == items;
    for i := 0 to |items|
      invariant steps + CostItems(items[i..]) == steps0 + CostItems(items) && steps <= limits.bindingSteps
      invariant depth + HeightItems(items) <= limits.bindingDepth <==> depth + HeightItems(items[i..]) <= limits.bindingDepth
      invariant forall j :: 0 <= j < i ==> WellFormed(items[j], available, limits)
    {
      assert items[i..][0] == items[i] && items[i..][1..] == items[i + 1..];
      r, steps := Visit(items[i], available, limits, depth + 1, steps);
      if r.Err? {
        return;
      }
    }
    r := Ok(());
  }

  /** Preparation accepts a binding exactly when its static cost and references are sound. */
  method Check(b: Binding, available: set<string>, limits: Limits) returns (r: Result<(), MappingError>)
    ensures r.Ok? <==> Accepted(b, available, limits)
  {
    var steps;
    r, steps := Visit(b, available, limits, 1, 0);
  }

  // ---------------------------------------------------------------- the evaluation

  /** The mutable counters of one evaluation. */
  class Spending {
    var steps: nat
    var bytes: nat

    constructor ()
      ensures steps == 0 && bytes == 0
    {
      steps := 0;
      bytes := 0;
    }

    method Spend(n: nat, limits: Limits) returns (ok: bool)
      modifies this`bytes
      ensures bytes == old(bytes) + n
      ensures ok <==> bytes <= limits.valueBytes
    {
      bytes := bytes + n;
      ok := bytes <= limits.valueBytes;
    }
  }

  /** The faults of the data itself, which no static check can exclude. */
  predicate DataFault(e: MappingError) {
    e == InvalidIndex || e == ScalarTraversal || e == Missing
  }

  /** What a budgeted evaluation must return, given its budget and its denotation. */
  predicate Exact(denoted: Result<Value, MappingError>, spent: nat, limits: Limits, r: Result<Value, MappingError>) {
    match denoted
    case Ok(v) => r == if spent + Size(v) <= limits.valueBytes then Ok(v) else Err(ByteBudget)
    case Err(e) => DataFault(e) && (r == Err(e) || r == Err(ByteBudget))
  }

  predicate Affordable(b: Binding, available: set<string>, limits: Limits, depth: nat, steps: nat)
    requires depth >= 1
  {
    && WellFormed(b, available, limits)
    && steps + Cost(b) <= limits.bindingSteps
    && depth - 1 + Height(b) <= limits.bindingDepth
  }

  /** A selection without a fallback. */
  predicate Plain(b: Binding) {
    b.Select? && b.selection.fallback.None?
  }

  method Select1(s: Selection, input: Value, outputs: map<string, Value>, limits: Limits, spending: Spending)
    returns (r: Result<Option<Value>, MappingError>)
    modifies spending`steps
    ensures old(spending.steps) <= spending.steps <= old(spending.steps) + TokenCount(s.pointer)
    ensures r.Ok? ==> P.TokensOf(s.pointer).Ok? && spending.steps == old(spending.steps) + TokenCount(s.pointer)
    ensures r.Ok? ==> r == Navigate(Base(s, input, outputs), P.TokensOf(s.pointer).value)
    ensures P.TokensOf(s.pointer).Ok? && old(spending.steps) + TokenCount(s.pointer) <= limits.bindingSteps
      ==> r == Navigate(Base(s, input, outputs), P.TokensOf(s.pointer).value)
  {
    var current := Base(s, input, outputs);
    var parsed := P.Tokens(s.pointer);
    if parsed.Err? {
      return Err(BadPointer);
    }
    var tokens := parsed.value;
    var i := 0;
    assert tokens[0..] == tokens;
    while i < |tokens|
      invariant 0 <= i <= |tokens|
      invariant spending.steps == old(spending.steps) + i
      invariant Navigate(Base(s, input, outputs), tokens) == Navigate(current, tokens[i..])
    {
      assert tokens[i..][0] == tokens[i] && tokens[i..][1..] == tokens[i + 1..];
      spending.steps := spending.steps + 1;
      if spending.steps > limits.bindingSteps {
        return Err(PointerBudget);
      }
      var next := Descend(current, tokens[i]);
      if next.Err? {
        return Err(next.error);
      }
      current := next.value;
      i := i + 1;
    }
    r := Ok(current);
  }

  /** The recursive walk of the evaluator, with its counters changed in place. */
  method Walk(b: Binding, input: Value, outputs: map<string, Value>, ghost available: set<string>,
              limits: Limits, spending: Spending, depth: nat)
    returns (r: Result<Value, MappingError>)
    requires depth >= 1
    modifies spending
    ensures old(spending.steps) <= spending.steps <= old(spending.steps) + Cost(b)
    ensures r.Ok? ==> Denote(b, input, outputs) == r
    ensures r.Ok? ==> spending.bytes == old(spending.bytes) + Size(r.value) <= limits.valueBytes
    ensures old(Affordable(b, available, limits, depth, spending.steps))
      ==> Exact(Denote(b, input, outputs), old(spending.bytes), limits, r)
    ensures old(Affordable(b, available, limits, depth, spending.steps)) && Plain(b) && Denote(b, input, outputs).Err?
      ==> r == Denote(b, input, outputs)
    decreases b, 1
  {
    ghost var fine := Affordable(b, available, limits, depth, spending.steps);
    ghost var spent := spending.bytes;
    spending.steps := spending.steps + 1;
    if depth > limits.bindingDepth || spending.steps > limits.bindingSteps {
      return Err(Budget);
    }
    match b {
      case Literal(v) =>
        var ok := spending.Spend(Size(v), limits);
        r := if ok then Ok(v) else Err(ByteBudget);
      case Select(s) =>
        var selected := Select1(s, input, outputs, limits, spending);
        if selected.Err? {
          assert fine ==> DataFault(selected.error) by {
            if fine { NavigateFaults(Base(s, input, outputs), P.TokensOf(s.pointer).value); }
          }
          return Err(selected.error);
        }
        match selected.value {
          case Some(v) =>
            var ok := spending.Spend(Size(v), limits);
            r := if ok then Ok(v) else Err(ByteBudget);
          case None =>
            if s.fallback.None? {
              return Err(Missing);
            }
            r := Walk(s.fallback.value, input, outputs, available, limits, spending, depth + 1);
        }
      case ObjectOf(fields) =>
        r := WalkFields(b, fields, input, outputs, available, limits, spending, depth, fine);
      case ArrayOf(items) =>
        r := WalkItems(b, items, input, outputs, available, limits, spending, depth, fine);
    }
  }

  lemma ExactSuccess(v: Value, spent: nat, limits: Limits)
    requires spent + Size(v) <= limits.valueBytes
    ensures Exact(Ok(v), spent, limits, Ok(v))
  {
  }

  lemma FieldStep(b: Binding, fields: seq<FieldBinding>, i: nat, input: Value, outputs: map<string, Value>,
                  available: set<string>, limits: Limits, depth: nat, start: nat, steps: nat, fine: bool)
    requires b == ObjectOf(fields) && i < |fields| && depth >= 1
    requires fine ==> start >= 1 && Affordable(b, available, limits, depth, start - 1)
    requires steps + CostFields(fields[i..]) <= start + CostFields(fields)
    requires HeightFields(fields[i..]) <= HeightFields(fields)
    ensures CostFields(fields[i..]) == Cost(fields[i].binding) + CostFields(fields[i + 1..])
    ensures HeightFields(fields[i + 1..]) <= HeightFields(fields[i..])
    ensures Denote(fields[i].binding, input, outputs).Ok? ==>
      DenoteFields(fields[i..], input, outputs) ==
      Then([Field(fields[i].key, Denote(fields[i].binding, input, outputs).value)], DenoteFields(fields[i + 1..], input, outputs))
    ensures fine ==> Affordable(fields[i].binding, available, limits, depth + 1, steps)
  {
    assert fields[i..][0] == fields[i] && fields[i..][1..] == fields[i + 1..];
  }

  lemma FieldFailed(b: Binding, fields: seq<FieldBinding>, values: seq<Field>, i: nat, input: Value, outputs: map<string, Value>,
                    available: set<string>, limits: Limits, depth: nat, start: nat, spent: nat, fine: bool, r: Result<Value, MappingError>)
    requires b == ObjectOf(fields) && i < |fields| && depth >= 1 && r.Err?
    requires fine ==> start >= 1 && Affordable(b, available, limits, depth, start - 1)
    requires DenoteFields(fields, input, outputs) == Then(values, DenoteFields(fields[i..], input, outputs))
    requires fine ==> Exact(Denote(fields[i].binding, input, outputs),
                            spent + 2 + Commas(|fields|) + FieldBytes(values) + Bytes(Quote(fields[i].key)) + 1, limits, r)
    ensures fine ==> Exact(Denote(b, input, outputs), spent, limits, r)
  {
    FieldBudgetSpent(b, fields, values, i, input, outputs, available, limits, fine);
  }

  lemma FieldsUnaffordable(b: Binding, fields: seq<FieldBinding>, input: Value, outputs: map<string, Value>,
                           available: set<string>, limits: Limits, depth: nat, start: nat, spent: nat, fine: bool)
    requires b == ObjectOf(fields) && depth >= 1
    requires fine ==> start >= 1 && Affordable(b, available, limits, depth, start - 1)
    requires spent + 2 + Commas(|fields|) > limits.valueBytes
    ensures fine ==> Exact(Denote(b, input, outputs), spent, limits, Err(ByteBudget))
  {
    assert fields[0..] == fields;
    ThenThen([], [], DenoteFields(fields, input, outputs));
    FieldBudgetSpent(b, fields, [], 0, input, outputs, available, limits, fine);
  }

  lemma FieldsDone(b: Binding, fields: seq<FieldBinding>, values: seq<Field>, input: Value, outputs: map<string, Value>)
    requires b == ObjectOf(fields) && |values| == |fields|
    requires DenoteFields(fields, input, outputs) == Then(values, DenoteFields(fields[|fields|..], input, outputs))
    ensures Denote(b, input, outputs) == Ok(Object(values))
    ensures Size(Object(values)) == 2 + Commas(|fields|) + FieldBytes(values)
  {
    assert fields[|fields|..] == [];
    ThenThen(values, [], Ok([]));
    ObjectSize(values);
  }

  lemma ItemStep(b: Binding, items: seq<Binding>, i: nat, input: Value, outputs: map<string, Value>,
                  available: set<string>, limits: Limits, depth: nat, start: nat, steps: nat, fine: bool)
    requires b == ArrayOf(items) && i < |items| && depth >= 1
    requires fine ==> start >= 1 && Affordable(b, available, limits, depth, start - 1)
    requires steps + CostItems(items[i..]) <= start + CostItems(items)
    requires HeightItems(items[i..]) <= HeightItems(items)
    ensures CostItems(items[i..]) == Cost(items[i]) + CostItems(items[i + 1..])
    ensures HeightItems(items[i + 1..]) <= HeightItems(items[i..])
    ensures Denote(items[i], input, outputs).Ok? ==>
      DenoteItems(items[i..], input, outputs) ==
      Then([Denote(items[i], input, outputs).value], DenoteItems(items[i + 1..], input, outputs))
    ensures fine ==> Affordable(items[i], available, limits, depth + 1, steps)
  {
    assert items[i..][0] == items[i] && items[i..][1..] == items[i + 1..];
  }

  lemma ItemFailed(b: Binding, items: seq<Binding>, values: seq<Value>, i: nat, input: Value, outputs: map<string, Value>,
                    available: set<string>, limits: Limits, depth: nat, start: nat, spent: nat, fine: bool, r: Result<Value, MappingError>)
    requires b == ArrayOf(items) && i < |items| && depth >= 1 && r.Err?
    requires fine ==> start >= 1 && Affordable(b, available, limits, depth, start - 1)
    requires DenoteItems(items, input, outputs) == Then(values, DenoteItems(items[i..], input, outputs))
    requires fine ==> Exact(Denote(items[i], input, outputs),
                            spent + 2 + Commas(|items|) + ItemBytes(values), limits, r)
    ensures fine ==> Exact(Denote(b, input, outputs), spent, limits, r)
  {
    ItemBudgetSpent(b, items, values, i, input, outputs, available, limits, fine);
  }

  lemma ItemsUnaffordable(b: Binding, items: seq<Binding>, input: Value, outputs: map<string, Value>,
                           available: set<string>, limits: Limits, depth: nat, start: nat, spent: nat, fine: bool)
    requires b == ArrayOf(items) && depth >= 1
    requires fine ==> start >= 1 && Affordable(b, available, limits, depth, start - 1)
    requires spent + 2 + Commas(|items|) > limits.valueBytes
    ensures fine ==> Exact(Denote(b, input, outputs), spent, limits, Err(ByteBudget))
  {
    assert items[0..] == items;
    ThenThen([], [], DenoteItems(items, input, outputs));
    ItemBudgetSpent(b, items, [], 0, input, outputs, available, limits, fine);
  }

  lemma ItemsDone(b: Binding, items: seq<Binding>, values: seq<Value>, input: Value, outputs: map<string, Value>)
    requires b == ArrayOf(items) && |values| == |items|
    requires DenoteItems(items, input, outputs) == Then(values, DenoteItems(items[|items|..], input, outputs))
    ensures Denote(b, input, outputs) == Ok(Array(values))
    ensures Size(Array(values)) == 2 + Commas(|items|) + ItemBytes(values)
  {
    assert items[|items|..] == [];
    ThenThen(values, [], Ok([]));
    ArraySize(values);
  }

  method WalkFields(b: Binding, fields: seq<FieldBinding>, input: Value, outputs: map<string, Value>,
                    ghost available: set<string>, limits: Limits, spending: Spending, depth: nat, ghost fine: bool)
    returns (r: Result<Value, MappingError>)
    requires depth >= 1 && b == ObjectOf(fields)
    requires fine ==> spending.steps >= 1 && Affordable(b, available, limits, depth, spending.steps - 1)
    modifies spending
    ensures old(spending.steps) <= spending.steps <= old(spending.steps) + CostFields(fields)
    ensures r.Ok? ==> Denote(b, input, outputs) == r
    ensures r.Ok? ==> spending.bytes == old(spending.bytes) + Size(r.value) <= limits.valueBytes
    ensures fine ==> Exact(Denote(b, input, outputs), old(spending.bytes), limits, r)
    decreases b, 0
  {
    hide Quote, EscapeText, Bytes, Utf8Len, Then, Size, Commas, Denote, DenoteFields, Cost, CostFields, Height, HeightFields, WellFormed, Affordable, Exact;
    ghost var spent, start := spending.bytes, spending.steps;
    assert fields[0..] == fields;
    ThenThen([], [], DenoteFields(fields, input, outputs));
    var ok := spending.Spend(2 + Commas(|fields|), limits);
    if !ok {
      FieldsUnaffordable(b, fields, input, outputs, available, limits, depth, start, spent, fine);
      return Err(ByteBudget);
    }
    var values: seq<Field> := [];
    var i := 0;
    while i < |fields|
      invariant 0 <= i <= |fields| == |values| + |fields[i..]|
      invariant DenoteFields(fields, input, outputs) == Then(values, DenoteFields(fields[i..], input, outputs))
      invariant spending.bytes == spent + 2 + Commas(|fields|) + FieldBytes(values) <= limits.valueBytes
      invariant old(spending.steps) <= spending.steps
      invariant spending.steps + CostFields(fields[i..]) <= old(spending.steps) + CostFields(fields)
      invariant HeightFields(fields[i..]) <= HeightFields(fields)
    {
      var key := fields[i].key;
      FieldStep(b, fields, i, input, outputs, available, limits, depth, start, spending.steps, fine);
      r := WalkField(fields[i], input, outputs, available, limits, spending, depth + 1);
      if r.Err? {
        FieldFailed(b, fields, values, i, input, outputs, available, limits, depth, start, spent, fine, r);
        return;
      }
      FieldBytesAppend(values, Field(key, r.value));
      ThenThen(values, [Field(key, r.value)], DenoteFields(fields[i + 1..], input, outputs));
      values := values + [Field(key, r.value)];
      i := i + 1;
    }
    FieldsDone(b, fields, values, input, outputs);
    r := Ok(Object(values));
    assert fine ==> Exact(Denote(b, input, outputs), spent, limits, r) by {
      ExactSuccess(Object(values), spent, limits);
    }
  }

  /** One entry of an object: its quoted key and colon, then its value. */
  method WalkField(field: FieldBinding, input: Value, outputs: map<string, Value>, ghost available: set<string>,
                   limits: Limits, spending: Spending, depth: nat)
    returns (r: Result<Value, MappingError>)
    requires depth >= 1
    modifies spending
    ensures old(spending.steps) <= spending.steps <= old(spending.steps) + Cost(field.binding)
    ensures r.Ok? ==> Denote(field.binding, input, outputs) == r
    ensures r.Ok? ==> spending.bytes == old(spending.bytes) + Bytes(Quote(field.key)) + 1 + Size(r.value)
                      <= limits.valueBytes
    ensures old(Affordable(field.binding, available, limits, depth, spending.steps)) ==>
      Exact(Denote(field.binding, input, outputs), old(spending.bytes) + Bytes(Quote(field.key)) + 1, limits, r)
    decreases field.binding, 2
  {
    var ok := spending.Spend(Bytes(Quote(field.key)) + 1, limits);
    if !ok {
      if Affordable(field.binding, available, limits, depth, spending.steps) {
        DenoteFaults(field.binding, input, outputs, available, limits);
      }
      return Err(ByteBudget);
    }
    r := Walk(field.binding, input, outputs, available, limits, spending, depth);
  }

  method WalkItems(b: Binding, items: seq<Binding>, input: Value, outputs: map<string, Value>,
                   ghost available: set<string>, limits: Limits, spending: Spending, depth: nat, ghost fine: bool)
    returns (r: Result<Value, MappingError>)
    requires depth >= 1 && b == ArrayOf(items)
    requires fine ==> spending.steps >= 1 && Affordable(b, available, limits, depth, spending.steps - 1)
    modifies spending
    ensures old(spending.steps) <= spending.steps <= old(spending.steps) + CostItems(items)
    ensures r.Ok? ==> Denote(b, input, outputs) == r
    ensures r.Ok? ==> spending.bytes == old(spending.bytes) + Size(r.value) <= limits.valueBytes
    ensures fine ==> Exact(Denote(b, input, outputs), old(spending.bytes), limits, r)
    decreases b, 0
  {
    hide Then, Size, Commas, Denote, DenoteItems, Cost, CostItems, Height, HeightItems, WellFormed, Affordable, Exact;
    ghost var spent, start := spending.bytes, spending.steps;
    assert items[0..] == items;
    ThenThen([], [], DenoteItems(items, input, outputs));
    var ok := spending.Spend(2 + Commas(|items|), limits);
    if !ok {
      ItemsUnaffordable(b, items, input, outputs, available, limits, depth, start, spent, fine);
      return Err(ByteBudget);
    }
    var values: seq<Value> := [];
    var i := 0;
    while i < |items|
      invariant 0 <= i <= |items| == |values| + |items[i..]|
      invariant DenoteItems(items, input, outputs) == Then(values, DenoteItems(items[i..], input, outputs))
      invariant spending.bytes == spent + 2 + Commas(|items|) + ItemBytes(values) <= limits.valueBytes
      invariant old(spending.steps) <= spending.steps
      invariant spending.steps + CostItems(items[i..]) <= old(spending.steps) + CostItems(items)
      invariant HeightItems(items[i..]) <= HeightItems(items)
    {
      ItemStep(b, items, i, input, outputs, available, limits, depth, start, spending.steps, fine);
      r := Walk(items[i], input, outputs, available, limits, spending, depth + 1);
      if r.Err? {
        ItemFailed(b, items, values, i, input, outputs, available, limits, depth, start, spent, fine, r);
        return;
      }
      ItemBytesAppend(values, r.value);
      ThenThen(values, [r.value], DenoteItems(items[i + 1..], input, outputs));
      values := values + [r.value];
      i := i + 1;
    }
    ItemsDone(b, items, values, input, outputs);
    r := Ok(Array(values));
    assert fine ==> Exact(Denote(b, input, outputs), spent, limits, r) by {
      ExactSuccess(Array(values), spent, limits);
    }
  }

  /** The evaluator's entry point: fresh counters, the walk, then the final value check. */
  method Evaluate(b: Binding, input: Value, outputs: map<string, Value>, ghost available: set<string>, limits: Limits)
    returns (r: Result<Value, MappingError>, bytes: nat)
    ensures r.Ok? ==> Denote(b, input, outputs) == r && bytes == Size(r.value) && Checkable(r.value, limits)
    ensures Accepted(b, available, limits) ==>
      match Denote(b, input, outputs)
      case Ok(v) =>
        r == if Size(v) > limits.valueBytes then Err(ByteBudget)
             else if Depth(v) > limits.jsonDepth then Err(ValueDepth) else Ok(v)
      case Err(e) => DataFault(e) && (r == Err(e) || r == Err(ByteBudget))
    ensures Plain(b) && Accepted(b, available, limits) && Denote(b, input, outputs).Err? ==> r == Denote(b, input, outputs)
    ensures Plain(b) && r.Ok? ==> Picks(b.selection, input, outputs, r.value)
    ensures Plain(b) && Accepted(b, available, limits) ==> (r == Err(Missing) <==> Lacks(b.selection, input, outputs))
    ensures b.Select? && Accepted(b, available, limits) ==>
      forall v :: Picks(b.selection, input, outputs, v) && Checkable(v, limits) ==> r == Ok(v)
  {
    hide LiesAt, Absent, Size, Depth, Navigate, Base;
    if b.Select? {
      forall v
        ensures Denote(b, input, outputs) == Ok(v) <==>
          || Picks(b.selection, input, outputs, v)
          || (Lacks(b.selection, input, outputs) && b.selection.fallback.Some?
              && Denote(b.selection.fallback.value, input, outputs) == Ok(v))
      {
        SelectMeans(b.selection, input, outputs, v);
      }
      SelectMeans(b.selection, input, outputs, Null);
    }
    hide Picks, Lacks, Denote;
    var spending := new Spending();
    r := Walk(b, input, outputs, available, limits, spending, 1);
    bytes := spending.bytes;
    if r.Ok? {
      if Depth(r.value) > limits.jsonDepth {
        r := Err(ValueDepth);
      } else if Size(r.value) > limits.valueBytes {
        r := Err(ValueBytes);
      }
    }
  }

  // ---------------------------------------------------------------- faults and sizes

  lemma {:induction false} NavigateFaults(current: Option<Value>, tokens: seq<string>)
    ensures Navigate(current, tokens).Err? ==>
      Navigate(current, tokens).error == InvalidIndex || Navigate(current, tokens).error == ScalarTraversal
    decreases tokens
  {
    if tokens != [] {
      var next := Descend(current, tokens[0]);
      if next.Ok? {
        NavigateFaults(next.value, tokens[1..]);
      }
    }
  }

  /** A binding the check accepts fails only on the data: never on syntax or on an unknown producer. */
  lemma {:induction false} DenoteFaults(b: Binding, input: Value, outputs: map<string, Value>, available: set<string>,
                                        limits: Limits)
    requires WellFormed(b, available, limits)
    ensures Denote(b, input, outputs).Err? ==> DataFault(Denote(b, input, outputs).error)
    decreases b
  {
    match b {
      case Literal(_) =>
      case Select(s) =>
        NavigateFaults(Base(s, input, outputs), P.TokensOf(s.pointer).value);
        if s.fallback.Some? {
          DenoteFaults(s.fallback.value, input, outputs, available, limits);
        }
      case ObjectOf(fields) =>
        DenoteFieldsFaults(fields, input, outputs, available, limits);
      case ArrayOf(items) =>
        DenoteItemsFaults(items, input, outputs, available, limits);
    }
  }

  lemma {:induction false} DenoteFieldsFaults(fields: seq<FieldBinding>, input: Value, outputs: map<string, Value>,
                                              available: set<string>, limits: Limits)
    requires forall i :: 0 <= i < |fields| ==> WellFormed(fields[i].binding, available, limits)
    ensures DenoteFields(fields, input, outputs).Err? ==> DataFault(DenoteFields(fields, input, outputs).error)
    decreases fields
  {
    if fields != [] {
      DenoteFaults(fields[0].binding, input, outputs, available, limits);
      DenoteFieldsFaults(fields[1..], input, outputs, available, limits);
    }
  }

  lemma {:induction false} DenoteItemsFaults(items: seq<Binding>, input: Value, outputs: map<string, Value>,
                                             available: set<string>, limits: Limits)
    requires forall i :: 0 <= i < |items| ==> WellFormed(items[i], available, limits)
    ensures DenoteItems(items, input, outputs).Err? ==> DataFault(DenoteItems(items, input, outputs).error)
    decreases items
  {
    if items != [] {
      DenoteFaults(items[0], input, outputs, available, limits);
      DenoteItemsFaults(items[1..], input, outputs, available, limits);
    }
  }

  /**
   With an output for every available node, an accepted selection starts from the run input or from the output of the
   node it names, and denotes what lies there: the whole for the empty pointer, its fallback where nothing lies.
   */
  lemma ProducersExist(s: Selection, input: Value, outputs: map<string, Value>, available: set<string>, limits: Limits, v: Value)
    requires WellFormed(Select(s), available, limits) && available <= outputs.Keys
    ensures s.source == Node ==> s.node.Some? && s.node.value in outputs
    ensures var whole := if s.source == Input then input else outputs[s.node.value];
      var tokens := P.TokensOf(s.pointer).value;
      && (s.pointer == "" ==> Denote(Select(s), input, outputs) == Ok(whole))
      && (Denote(Select(s), input, outputs) == Ok(v) <==>
            || LiesAt(whole, tokens, v)
            || (Absent(whole, tokens) && s.fallback.Some? && Denote(s.fallback.value, input, outputs) == Ok(v)))
  {
    hide Navigate, Absent;
    var whole := if s.source == Input then input else outputs[s.node.value];
    SelectMeans(s, input, outputs, v);
    SelectMeans(s, input, outputs, whole);
  }

  lemma {:induction false} FieldBytesConcat(a: seq<Field>, b: seq<Field>)
    ensures FieldBytes(a + b) == FieldBytes(a) + FieldBytes(b)
  {
    if a == [] {
      assert a + b == b;
    } else {
      assert (a + b)[1..] == a[1..] + b;
      FieldBytesConcat(a[1..], b);
    }
  }

  lemma {:induction false} ItemBytesConcat(a: seq<Value>, b: seq<Value>)
    ensures ItemBytes(a + b) == ItemBytes(a) + ItemBytes(b)
  {
    if a == [] {
      assert a + b == b;
    } else {
      assert (a + b)[1..] == a[1..] + b;
      ItemBytesConcat(a[1..], b);
    }
  }

  lemma {:induction false} DenotedFieldCount(fields: seq<FieldBinding>, input: Value, outputs: map<string, Value>)
    ensures DenoteFields(fields, input, outputs).Ok? ==> |DenoteFields(fields, input, outputs).value| == |fields|
  {
    if fields != [] {
      DenotedFieldCount(fields[1..], input, outputs);
    }
  }

  lemma {:induction false} DenotedItemCount(items: seq<Binding>, input: Value, outputs: map<string, Value>)
    ensures DenoteItems(items, input, outputs).Ok? ==> |DenoteItems(items, input, outputs).value| == |items|
  {
    if items != [] {
      DenotedItemCount(items[1..], input, outputs);
    }
  }

  /** Stopping an object early is exact: what was written so far is a lower bound for the whole. */
  lemma FieldBudgetSpent(b: Binding, fields: seq<FieldBinding>, values: seq<Field>, i: nat, input: Value,
                         outputs: map<string, Value>, available: set<string>, limits: Limits, fine: bool)
    requires b == ObjectOf(fields) && i <= |fields|
    requires DenoteFields(fields, input, outputs) == Then(values, DenoteFields(fields[i..], input, outputs))
    requires fine ==> WellFormed(b, available, limits)
    ensures fine && Denote(b, input, outputs).Err? ==> DataFault(Denote(b, input, outputs).error)
    ensures Denote(b, input, outputs).Ok? ==>
      Size(Denote(b, input, outputs).value) >= 2 + Commas(|fields|) + FieldBytes(values)
    ensures i < |fields| && Denote(b, input, outputs).Ok? ==>
      && Denote(fields[i].binding, input, outputs).Ok?
      && Size(Denote(b, input, outputs).value) >= 2 + Commas(|fields|) + FieldBytes(values)
         + Bytes(Quote(fields[i].key)) + 1 + Size(Denote(fields[i].binding, input, outputs).value)
    ensures i < |fields| && Denote(fields[i].binding, input, outputs).Err? ==>
      Denote(b, input, outputs) == Denote(fields[i].binding, input, outputs)
  {
    hide WellFormed, Quote, DataFault;
    if fine {
      DenoteFaults(b, input, outputs, available, limits);
    }
    var rest := DenoteFields(fields[i..], input, outputs);
    if rest.Ok? {
      DenotedFieldCount(fields, input, outputs);
      ObjectSize(values + rest.value);
      FieldBytesConcat(values, rest.value);
    }
    if i < |fields| {
      assert fields[i..][0] == fields[i];
      if rest.Ok? {
        var head := Field(fields[i].key, Denote(fields[i].binding, input, outputs).value);
        assert rest.value[0] == head;
      }
    }
  }

  lemma ItemBudgetSpent(b: Binding, items: seq<Binding>, values: seq<Value>, i: nat, input: Value,
                        outputs: map<string, Value>, available: set<string>, limits: Limits, fine: bool)
    requires b == ArrayOf(items) && i <= |items|
    requires DenoteItems(items, input, outputs) == Then(values, DenoteItems(items[i..], input, outputs))
    requires fine ==> WellFormed(b, available, limits)
    ensures fine && Denote(b, input, outputs).Err? ==> DataFault(Denote(b, input, outputs).error)
    ensures Denote(b, input, outputs).Ok? ==>
      Size(Denote(b, input, outputs).value) >= 2 + Commas(|items|) + ItemBytes(values)
    ensures i < |items| && Denote(b, input, outputs).Ok? ==>
      && Denote(items[i], input, outputs).Ok?
      && Size(Denote(b, input, outputs).value) >= 2 + Commas(|items|) + ItemBytes(values)
         + Size(Denote(items[i], input, outputs).value)
    ensures i < |items| && Denote(items[i], input, outputs).Err? ==>
      Denote(b, input, outputs) == Denote(items[i], input, outputs)
  {
    if fine {
      DenoteFaults(b, input, outputs, available, limits);
    }
    var rest := DenoteItems(items[i..], input, outputs);
    if rest.Ok? {
      DenotedItemCount(items, input, outputs);
      ArraySize(values + rest.value);
      ItemBytesConcat(values, rest.value);
    }
    if i < |items| {
      assert items[i..][0] == items[i];
    }
  }

  // ---------------------------------------------------------------- what a selection selects

  lemma {:induction false} NavigateNone(tokens: seq<string>)
    ensures Navigate(None, tokens) == Ok(None)
  {
    if tokens != [] {
      NavigateNone(tokens[1..]);
    }
  }

  /** The numeral of an index, read as the evaluator reads it. */
  lemma IndexToken(token: string, n: nat)
    ensures token == Decimal(n) ==> token != "" && token != "-" && Digits(token) && ParseNat(token) == n
                                    && (|token| > 1 ==> token[0] != '0')
    ensures token != "" && Digits(token) && (|token| > 1 ==> token[0] != '0') ==> token == Decimal(ParseNat(token))
  {
    DecimalReads(n);
    DecimalLength(n);
    if token != "" && Digits(token) && (|token| > 1 ==> token[0] != '0') {
      NumeralWrites(token);
    }
    if token == Decimal(n) && |token| > 1 {
      assert n > 0;
    }
  }

  lemma DescendArray(items: seq<Value>, token: string)
    ensures token == "-" ==> Descend(Some(Array(items)), token) == Ok(None)
    ensures forall n: nat :: token == Decimal(n) ==>
      token != "-" && Descend(Some(Array(items)), token) == Ok(if n < |items| then Some(items[n]) else None)
    ensures token != "-" && (forall n: nat :: token != Decimal(n)) ==> Descend(Some(Array(items)), token) == Err(InvalidIndex)
  {
    forall n: nat | token == Decimal(n)
      ensures token != "-" && Descend(Some(Array(items)), token) == Ok(if n < |items| then Some(items[n]) else None)
    {
      IndexToken(token, n);
    }
    IndexToken(token, 0);
  }

  /** Walking a pointer down a value: where it leads, what is not there, and what it must not ask for. */
  lemma {:induction false} NavigateMeans(v: Value, tokens: seq<string>, w: Value)
    ensures Navigate(Some(v), tokens) == Ok(Some(w)) <==> LiesAt(v, tokens, w)
    ensures Navigate(Some(v), tokens) == Ok(None) <==> Absent(v, tokens)
    ensures Navigate(Some(v), tokens) == Err(InvalidIndex) <==> BadIndex(v, tokens)
    ensures Navigate(Some(v), tokens) == Err(ScalarTraversal) <==> IntoScalar(v, tokens)
    decreases |tokens|
  {
    if tokens != [] {
      NavigateNone(tokens[1..]);
      match v {
        case Object(fields) => NavigateObject(fields, tokens, w);
        case Array(items) => NavigateArray(items, tokens, w);
        case _ =>
      }
    }
  }

  lemma {:induction false} NavigateObject(fields: seq<Field>, tokens: seq<string>, w: Value)
    requires tokens != []
    ensures Navigate(Some(Object(fields)), tokens) == Ok(Some(w)) <==> LiesAt(Object(fields), tokens, w)
    ensures Navigate(Some(Object(fields)), tokens) == Ok(None) <==> Absent(Object(fields), tokens)
    ensures Navigate(Some(Object(fields)), tokens) == Err(InvalidIndex) <==> BadIndex(Object(fields), tokens)
    ensures Navigate(Some(Object(fields)), tokens) == Err(ScalarTraversal) <==> IntoScalar(Object(fields), tokens)
    decreases |tokens|, 0
  {
    LookupMeans(fields, tokens[0]);
    NavigateNone(tokens[1..]);
    if k: int :| EntryAt(fields, tokens[0], k) {
      NavigateMeans(fields[k].value, tokens[1..], w);
      assert forall i: int :: EntryAt(fields, tokens[0], i) ==> i == k;
    }
  }

  lemma {:induction false} NavigateArray(items: seq<Value>, tokens: seq<string>, w: Value)
    requires tokens != []
    ensures Navigate(Some(Array(items)), tokens) == Ok(Some(w)) <==> LiesAt(Array(items), tokens, w)
    ensures Navigate(Some(Array(items)), tokens) == Ok(None) <==> Absent(Array(items), tokens)
    ensures Navigate(Some(Array(items)), tokens) == Err(InvalidIndex) <==> BadIndex(Array(items), tokens)
    ensures Navigate(Some(Array(items)), tokens) == Err(ScalarTraversal) <==> IntoScalar(Array(items), tokens)
    decreases |tokens|, 0
  {
    hide Descend;
    DescendArray(items, tokens[0]);
    NavigateNone(tokens[1..]);
    if k: nat :| tokens[0] == Decimal(k) {
      forall n: nat | tokens[0] == Decimal(n)
        ensures n == k
      {
        DecimalInjective(n, k);
      }
      if k < |items| {
        NavigateMeans(items[k], tokens[1..], w);
      }
    }
  }

  /** The value lies at the pointer's tokens: in the run input, or in the output of the named node. */
  ghost predicate Picks(s: Selection, input: Value, outputs: map<string, Value>, v: Value) {
    && P.TokensOf(s.pointer).Ok?
    && match s.source
       case Input => LiesAt(input, P.TokensOf(s.pointer).value, v)
       case Node => s.node.Some? && s.node.value in outputs && LiesAt(outputs[s.node.value], P.TokensOf(s.pointer).value, v)
  }

  /** There is no such node, or nothing lies there. */
  ghost predicate Lacks(s: Selection, input: Value, outputs: map<string, Value>) {
    && P.TokensOf(s.pointer).Ok?
    && match s.source
       case Input => Absent(input, P.TokensOf(s.pointer).value)
       case Node => s.node.None? || s.node.value !in outputs || Absent(outputs[s.node.value], P.TokensOf(s.pointer).value)
  }

  /**
   A selection denotes exactly the value that lies where it points; where nothing lies it denotes its fallback, and
   without one it is missing. It fails otherwise only on its pointer, on an index that is none, or inside a scalar.
   */
  lemma SelectMeans(s: Selection, input: Value, outputs: map<string, Value>, v: Value)
    ensures Denote(Select(s), input, outputs) == Ok(v) <==>
      || Picks(s, input, outputs, v)
      || (Lacks(s, input, outputs) && s.fallback.Some? && Denote(s.fallback.value, input, outputs) == Ok(v))
    ensures Lacks(s, input, outputs) ==>
      Denote(Select(s), input, outputs) == if s.fallback.Some? then Denote(s.fallback.value, input, outputs) else Err(Missing)
    ensures s.fallback.None? ==> (Denote(Select(s), input, outputs) == Err(Missing) <==> Lacks(s, input, outputs))
  {
    hide Navigate, LiesAt, Absent, BadIndex, IntoScalar, P.TokensOf;
    if P.TokensOf(s.pointer).Ok? {
      var tokens := P.TokensOf(s.pointer).value;
      NavigateNone(tokens);
      if s.source == Input {
        NavigateMeans(input, tokens, v);
        NavigateFaults(Some(input), tokens);
      } else if s.node.Some? && s.node.value in outputs {
        NavigateMeans(outputs[s.node.value], tokens, v);
        NavigateFaults(Some(outputs[s.node.value]), tokens);
      }
    }
  }

  /** What a binding may read: the run input, and the outputs of the nodes it names. */
  predicate ReadsInput(b: Binding) {
    match b
    case Literal(_) => false
    case Select(s) => s.source == Input || (s.fallback.Some? && ReadsInput(s.fallback.value))
    case ObjectOf(fields) => exists i :: 0 <= i < |fields| && ReadsInput(fields[i].binding)
    case ArrayOf(items) => exists i :: 0 <= i < |items| && ReadsInput(items[i])
  }

  predicate ReadsNode(b: Binding, id: string) {
    match b
    case Literal(_) => false
    case Select(s) => (s.source == Node && s.node == Some(id)) || (s.fallback.Some? && ReadsNode(s.fallback.value, id))
    case ObjectOf(fields) => exists i :: 0 <= i < |fields| && ReadsNode(fields[i].binding, id)
    case ArrayOf(items) => exists i :: 0 <= i < |items| && ReadsNode(items[i], id)
  }

  /** The two agree on everything the binding may read. */
  ghost predicate AgreeFor(b: Binding, inputs: (Value, Value), one: map<string, Value>, two: map<string, Value>) {
    && (ReadsInput(b) ==> inputs.0 == inputs.1)
    && (forall id :: ReadsNode(b, id) ==> (id in one <==> id in two) && (id in one ==> one[id] == two[id]))
  }

  /** A binding depends on nothing but what it names: another input, or other outputs, cannot change its value. */
  lemma {:induction false} DenoteFrame(b: Binding, x: Value, y: Value, one: map<string, Value>, two: map<string, Value>)
    requires AgreeFor(b, (x, y), one, two)
    ensures Denote(b, x, one) == Denote(b, y, two)
    decreases b
  {
    match b {
      case Literal(_) =>
      case Select(s) =>
        if s.fallback.Some? {
          DenoteFrame(s.fallback.value, x, y, one, two);
        }
        if s.source == Node && s.node.Some? {
          assert ReadsNode(b, s.node.value);
        }
      case ObjectOf(fields) =>
        forall i | 0 <= i < |fields|
          ensures AgreeFor(fields[i].binding, (x, y), one, two)
        {
        }
        FieldsFrame(fields, x, y, one, two);
      case ArrayOf(items) =>
        forall i | 0 <= i < |items|
          ensures AgreeFor(items[i], (x, y), one, two)
        {
        }
        ItemsFrame(items, x, y, one, two);
    }
  }

  lemma {:induction false} FieldsFrame(fields: seq<FieldBinding>, x: Value, y: Value, one: map<string, Value>, two: map<string, Value>)
    requires forall i :: 0 <= i < |fields| ==> AgreeFor(fields[i].binding, (x, y), one, two)
    ensures DenoteFields(fields, x, one) == DenoteFields(fields, y, two)
    decreases fields
  {
    if fields != [] {
      DenoteFrame(fields[0].binding, x, y, one, two);
      FieldsFrame(fields[1..], x, y, one, two);
    }
  }

  lemma {:induction false} ItemsFrame(items: seq<Binding>, x: Value, y: Value, one: map<string, Value>, two: map<string, Value>)
    requires forall i :: 0 <= i < |items| ==> AgreeFor(items[i], (x, y), one, two)
    ensures DenoteItems(items, x, one) == DenoteItems(items, y, two)
    decreases items
  {
    if items != [] {
      DenoteFrame(items[0], x, y, one, two);
      ItemsFrame(items[1..], x, y, one, two);
    }
  }

  /** The pointer written as the key of a path selects exactly the value that lies at that path. */
  lemma KeySelects(source: Source, node: Option<string>, path: seq<string>, input: Value, outputs: map<string, Value>, v: Value)
    requires path != [] && (source == Node ==> node.Some? && node.value in outputs)
    ensures var whole := if source == Input then input else outputs[node.value];
      Denote(Select(Selection(source, node, P.Key(path), None)), input, outputs) == Ok(v) <==> LiesAt(whole, path, v)
  {
    P.TokensInvertKey(path);
    SelectMeans(Selection(source, node, P.Key(path), None), input, outputs, v);
  }

  /** Two evaluations of an accepted selection agree wherever what it names agrees. */
  method EvaluateTwice(b: Binding, x: Value, y: Value, one: map<string, Value>, two: map<string, Value>,
                       ghost available: set<string>, limits: Limits)
    returns (r: Result<Value, MappingError>, again: Result<Value, MappingError>)
    requires Plain(b) && Accepted(b, available, limits)
    requires b.selection.source == Input ==> x == y
    requires b.selection.source == Node && b.selection.node.Some? ==>
      var id := b.selection.node.value;
      (id in one <==> id in two) && (id in one ==> one[id] == two[id])
    ensures r == again
  {
    assert AgreeFor(b, (x, y), one, two);
    DenoteFrame(b, x, y, one, two);
    hide Denote, Picks, Lacks;
    var bytes, spent;
    r, bytes := Evaluate(b, x, one, available, limits);
    again, spent := Evaluate(b, y, two, available, limits);
  }
}
