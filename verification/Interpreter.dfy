/**
 The checkpointed interpreter: it resumes from stored records and frames, may stop at any
 point, and observes cancellation, the deadline and budgets whenever it looks. Whatever it
 returns is what the plain evaluator computes from the observed outcomes.
 */
module Interpreter {
  import opened Wrappers
  import opened Text
  import opened Json
  import opened Protocol
  import opened Programs
  import opened Resumption

  /** `Aborted` is a fault of the surroundings, observed at this control and nowhere below it. */
  datatype Step = Returned(value: Value) | Thrown(error: ForgeError) | Aborted(error: ForgeError) | Parked | Down

  // ---------------------------------------------------------------- separation of scopes

  /** Two scopes that part ways share no key. */
  ghost predicate Apart(p: Path, q: Path) {
    exists i :: 0 <= i < |p| && i < |q| && p[i] != q[i]
  }

  lemma SiblingsApart(p: Path, a: string, b: string, s: Path, t: Path)
    requires a != b
    ensures Apart(p + [a] + s, p + [b] + t)
  {
    assert (p + [a] + s)[|p|] == a && (p + [b] + t)[|p|] == b;
  }

  lemma NodesApart(path: Path, a: string, b: string)
    requires a != b
    ensures Apart(KeyOf(path, a), KeyOf(path, b))
  {
    SiblingsApart(path + ["nodes"], a, b, [], []);
    assert path + ["nodes"] + [a] + [] == KeyOf(path, a) && path + ["nodes"] + [b] + [] == KeyOf(path, b);
  }

  lemma TurnsApart(key: Path, m: nat, n: nat)
    requires m != n
    ensures Apart(TurnPath(key, m), TurnPath(key, n))
  {
    if Decimal(m) == Decimal(n) {
      DecimalInjective(m, n);
    }
    SiblingsApart(key + ["iterations"], Decimal(m), Decimal(n), [], []);
    assert key + ["iterations"] + [Decimal(m)] + [] == TurnPath(key, m);
    assert key + ["iterations"] + [Decimal(n)] + [] == TurnPath(key, n);
  }

  lemma BranchesApart(key: Path, a: string, b: string)
    requires a != b
    ensures Apart(BranchPath(key, a), BranchPath(key, b))
  {
    SiblingsApart(key + ["branches"], a, b, [], []);
    assert key + ["branches"] + [a] + [] == BranchPath(key, a) && key + ["branches"] + [b] + [] == BranchPath(key, b);
  }

  lemma ItemsApart(key: Path, m: nat, n: nat)
    requires m != n
    ensures Apart(ItemPath(key, m), ItemPath(key, n))
  {
    if Decimal(m) == Decimal(n) {
      DecimalInjective(m, n);
    }
    SiblingsApart(key + ["items"], Decimal(m), Decimal(n), [], []);
    assert key + ["items"] + [Decimal(m)] + [] == ItemPath(key, m) && key + ["items"] + [Decimal(n)] + [] == ItemPath(key, n);
  }

  lemma TryCatchApart(key: Path, id: string)
    ensures Apart(TryPath(key), CatchPath(key, id))
  {
    SiblingsApart(key, "try", "catch", [], [id]);
    assert key + ["try"] + [] == TryPath(key) && key + ["catch"] + [id] == CatchPath(key, id);
  }

  // ---------------------------------------------------------------- effects of a step

  predicate Under(p: Path, k: Path) { p <= k }

  /** Only what lies under a path may have changed; deadlines do not come back. */
  ghost predicate OutsideSame(s: Sight, t: Sight, p: Path) {
    && (forall k :: !Under(p, k) ==> (k in s.store <==> k in t.store) && (k in s.store ==> s.store[k] == t.store[k]))
    && (forall k :: !Under(p, k) ==> (k in s.log <==> k in t.log) && (k in s.log ==> s.log[k] == t.log[k]))
    && (forall k :: !Under(p, k) ==> s.Throws(k) == t.Throws(k))
    && (s.expired ==> t.expired) && s.guarded == t.guarded
  }

  lemma OutsideUnder(s: Sight, t: Sight, p: Path, q: Path)
    requires OutsideSame(s, t, p) && Apart(p, q)
    ensures SameUnder(s, t, q)
  {
    var i :| 0 <= i < |p| && i < |q| && p[i] != q[i];
    assert forall k: Path :: i < |k| && k[i] == q[i] ==> !Under(p, k);
  }

  lemma OutsideChain(s: Sight, t: Sight, u: Sight, p: Path, q: Path)
    requires OutsideSame(s, t, p) && OutsideSame(t, u, p + q)
    ensures OutsideSame(s, u, p)
  {
    LongerPrefix(p, q);
  }

  lemma LongerPrefix(p: Path, q: Path)
    ensures forall k: Path :: Under(p + q, k) ==> Under(p, k)
  {
  }

  lemma OutsideTrans(s: Sight, t: Sight, u: Sight, p: Path)
    requires OutsideSame(s, t, p) && OutsideSame(t, u, p)
    ensures OutsideSame(s, u, p)
  {
  }

  lemma OutsideOnly(s: Sight, t: Sight, p: Path, q: Path)
    requires OutsideSame(s, t, p + q)
    ensures OutsideSame(s, t, p)
  {
    OutsideChain(s, s, t, p, q);
  }

  // ---------------------------------------------------------------- unreached scopes

  lemma EmptyDeeper(s: Sight, p: Path, q: Path)
    requires Empty(s, p)
    ensures Empty(s, p + q) && p + q !in s.store && Clean(s, p + q)
  {
    LongerPrefix(p, q);
    assert forall k :: k in s.store ==> !Under(p, k);
    assert Under(p + q, p + q);
  }

  lemma EmptyBodyFits(env: Env, body: Body, input: Value, path: Path, s: Sight)
    requires Empty(s, path)
    ensures BodyFits(env, body, input, path, s) && NoneOf(body.nodes, path, s)
  {
    forall i | 0 <= i < |body.nodes|
      ensures Empty(s, KeyOf(path, body.nodes[i].id))
    {
      EmptyDeeper(s, path, ["nodes", body.nodes[i].id]);
    }
    NoneFits(env, body.nodes, input, map[], path, s);
  }

  lemma NoneFits(env: Env, nodes: seq<Node>, input: Value, outputs: map<string, Value>, path: Path, s: Sight)
    requires NoneOf(nodes, path, s)
    ensures NodesFit(env, nodes, input, outputs, path, s)
  {
    if nodes != [] {
      assert Empty(s, KeyOf(path, nodes[0].id));
      assert KeyOf(path, nodes[0].id) <= KeyOf(path, nodes[0].id);
      forall i | 0 <= i < |nodes[1..]|
        ensures Empty(s, KeyOf(path, nodes[1..][i].id))
      {
        assert nodes[1..][i] == nodes[i + 1];
      }
    }
  }

  // ---------------------------------------------------------------- walking a body

  /** A confirmed node, with the meaning the evaluator gives it. */
  ghost predicate NodePassed(env: Env, n: Node, input: Value, outputs: map<string, Value>, next: map<string, Value>, path: Path, s: Sight) {
    var key := KeyOf(path, n.id);
    && key in s.store && s.store[key].state == InvocationState.Succeeded && s.store[key].output.Some?
    && env.evaluate(n.input, input, outputs).Ok?
    && EvalNode(env, n, env.evaluate(n.input, input, outputs).value, key, s.log) == Ok(s.store[key].output.value)
    && Clean(s, key)
    && next == outputs[n.id := s.store[key].output.value]
  }

  /** The first `i` nodes are confirmed; `outs` are the outputs before each of them. */
  ghost predicate Passed(env: Env, nodes: seq<Node>, i: nat, input: Value, outs: seq<map<string, Value>>, path: Path, s: Sight) {
    && i <= |nodes| && |outs| == i + 1 && outs[0] == map[]
    && forall j :: 0 <= j < i ==> NodePassed(env, nodes[j], input, outs[j], outs[j + 1], path, s)
  }

  /** Confirmed nodes can be skipped: the rest of the body means the same, and agrees the same. */
  lemma {:induction false} PassedMeans(env: Env, body: Body, i: nat, j: nat, input: Value, outs: seq<map<string, Value>>, path: Path, s: Sight)
    requires Passed(env, body.nodes, i, input, outs, path, s) && j <= i
    ensures EvalNodes(env, body.nodes[j..], body.output, input, outs[j], path, s.log)
      == EvalNodes(env, body.nodes[i..], body.output, input, outs[i], path, s.log)
    ensures NodesFit(env, body.nodes[j..], input, outs[j], path, s) <==> NodesFit(env, body.nodes[i..], input, outs[i], path, s)
    decreases i - j
  {
    if j < i {
      PassedMeans(env, body, i, j + 1, input, outs, path, s);
      assert NodePassed(env, body.nodes[j], input, outs[j], outs[j + 1], path, s);
      assert body.nodes[j..][0] == body.nodes[j] && body.nodes[j..][1..] == body.nodes[j + 1..];
    }
  }

  lemma NodePassedFrame(env: Env, n: Node, input: Value, outputs: map<string, Value>, next: map<string, Value>, path: Path, s: Sight, t: Sight)
    requires NodePassed(env, n, input, outputs, next, path, s) && SameUnder(s, t, KeyOf(path, n.id))
    ensures NodePassed(env, n, input, outputs, next, path, t)
  {
    var key := KeyOf(path, n.id);
    assert key <= key;
    EvalNodeFrame(env, n, env.evaluate(n.input, input, outputs).value, key, s.log, t.log);
  }

  lemma PassedKept(env: Env, nodes: seq<Node>, i: nat, input: Value, outs: seq<map<string, Value>>, path: Path, s: Sight, t: Sight)
    requires Passed(env, nodes, i, input, outs, path, s) && i < |nodes| && DistinctNodes(nodes)
    requires OutsideSame(s, t, KeyOf(path, nodes[i].id))
    ensures Passed(env, nodes, i, input, outs, path, t)
  {
    forall j | 0 <= j < i
      ensures NodePassed(env, nodes[j], input, outs[j], outs[j + 1], path, t)
    {
      NodesApart(path, nodes[i].id, nodes[j].id);
      OutsideUnder(s, t, KeyOf(path, nodes[i].id), KeyOf(path, nodes[j].id));
      NodePassedFrame(env, nodes[j], input, outs[j], outs[j + 1], path, s, t);
    }
    hide NodePassed;
  }

  /** After the first node of a suffix ran, the whole suffix still agrees. */
  lemma SuffixKept(env: Env, nodes: seq<Node>, input: Value, outputs: map<string, Value>, path: Path, s: Sight, t: Sight)
    requires nodes != [] && DistinctNodes(nodes) && NodesFit(env, nodes, input, outputs, path, s)
    requires OutsideSame(s, t, KeyOf(path, nodes[0].id)) && NodesFit(env, [nodes[0]], input, outputs, path, t)
    requires var key := KeyOf(path, nodes[0].id);
      key in s.store && s.store[key].state == InvocationState.Succeeded ==> key in t.store && t.store[key] == s.store[key]
    ensures NodesFit(env, nodes, input, outputs, path, t)
    ensures var key := KeyOf(path, nodes[0].id);
      !(key in s.store && s.store[key].state == InvocationState.Succeeded) ==> NoneOf(nodes[1..], path, t)
  {
    var key, rest := KeyOf(path, nodes[0].id), nodes[1..];
    assert [nodes[0]][0] == nodes[0] && [nodes[0]][1..] == [];
    forall i | 0 <= i < |rest|
      ensures Empty(s, KeyOf(path, rest[i].id)) ==> Empty(t, KeyOf(path, rest[i].id))
    {
      NodesApart(path, nodes[0].id, rest[i].id);
      OutsideUnder(s, t, key, KeyOf(path, rest[i].id));
      SameEmptyClean(s, t, KeyOf(path, rest[i].id));
    }
    if key in s.store && s.store[key].state == InvocationState.Succeeded {
      var next := outputs[nodes[0].id := s.store[key].output.value];
      RestKept(env, rest, input, next, path, s, t, nodes[0].id);
    } else {
      assert NoneOf(rest, path, s);
      if key in t.store && t.store[key].state == InvocationState.Succeeded {
        NoneFits(env, rest, input, outputs[nodes[0].id := t.store[key].output.value], path, t);
      }
    }
  }

  lemma {:induction false} RestKept(env: Env, nodes: seq<Node>, input: Value, outputs: map<string, Value>, path: Path, s: Sight, t: Sight, id: string)
    requires NodesFit(env, nodes, input, outputs, path, s) && OutsideSame(s, t, KeyOf(path, id))
    requires forall i :: 0 <= i < |nodes| ==> nodes[i].id != id
    ensures NodesFit(env, nodes, input, outputs, path, t)
    decreases nodes
  {
    hide InstrFits, EvalNode, Empty, Clean, OutsideSame, SameUnder, FaultExplained, Harmless, Apart;
    if nodes != [] {
      var key := KeyOf(path, nodes[0].id);
      forall i | 0 <= i < |nodes|
        ensures SameUnder(s, t, KeyOf(path, nodes[i].id))
        ensures Empty(s, KeyOf(path, nodes[i].id)) ==> Empty(t, KeyOf(path, nodes[i].id))
        ensures Clean(s, KeyOf(path, nodes[i].id)) ==> Clean(t, KeyOf(path, nodes[i].id))
      {
        NodesApart(path, id, nodes[i].id);
        OutsideUnder(s, t, KeyOf(path, id), KeyOf(path, nodes[i].id));
        SameEmptyClean(s, t, KeyOf(path, nodes[i].id));
      }
      assert SameUnder(s, t, key) && key <= key;
      FirstFitsFrame(env, nodes, input, outputs, path, s, t);
      if key in s.store && s.store[key].state == InvocationState.Succeeded {
        RestKept(env, nodes[1..], input, outputs[nodes[0].id := s.store[key].output.value], path, s, t, id);
      }
    }
  }

  lemma FirstFitsFrame(env: Env, nodes: seq<Node>, input: Value, outputs: map<string, Value>, path: Path, s: Sight, t: Sight)
    requires nodes != [] && NodesFit(env, nodes, input, outputs, path, s) && SameUnder(s, t, KeyOf(path, nodes[0].id))
    ensures var n, key := nodes[0], KeyOf(path, nodes[0].id);
      (key in s.store <==> key in t.store) && (key in s.store ==> t.store[key] == s.store[key])
      && (key in s.store ==>
            var given := env.evaluate(n.input, input, outputs).value;
            && EvalNode(env, n, given, key, t.log) == EvalNode(env, n, given, key, s.log)
            && (n.instr.Operation? || n.instr.Pause? || FaultExplained(env, n.instr, s.store[key].control, given, key, t))
            && (Settled(s.store[key]) && s.store[key].state != InvocationState.Succeeded ==> Harmless(t, key, RecordedError(s.store[key])))
            && (s.store[key].state != InvocationState.Succeeded && !Settled(s.store[key]) ==>
                  InstrFits(env, n.instr, s.store[key], given, key, t)))
  {
    hide FaultExplained, InstrFits, EvalNode, Clean, Empty, SameLog, SameThrown;
    var n, key := nodes[0], KeyOf(path, nodes[0].id);
    assert key <= key;
    UnderBelow(s, t, key);
    if key in s.store {
      var given := env.evaluate(n.input, input, outputs).value;
      EvalNodeFrame(env, n, given, key, s.log, t.log);
      SameEmptyClean(s, t, key);
      if !n.instr.Operation? && !n.instr.Pause? {
        FaultExplainedFrame(env, n.instr, s.store[key].control, given, key, s, t);
      }
      if s.store[key].state != InvocationState.Succeeded && !Settled(s.store[key]) {
        InstrFitsFrame(env, n.instr, s.store[key], given, key, s, t);
      }
    }
  }

  // ---------------------------------------------------------------- children running at once

  lemma ChildrenApart(instr: Instr, key: Path, i: nat, j: nat)
    requires IsGroup(instr) && i != j
    requires instr.Fork? ==> DistinctBranches(instr.branches) && i < |instr.branches| && j < |instr.branches|
    ensures Apart(ChildPath(instr, key, i), ChildPath(instr, key, j))
  {
    if instr.Fork? {
      if i < j {
        assert instr.branches[i].id != instr.branches[j].id;
      } else {
        assert instr.branches[j].id != instr.branches[i].id;
      }
      BranchesApart(key, instr.branches[i].id, instr.branches[j].id);
    } else {
      ItemsApart(key, i, j);
    }
  }

  ghost predicate ChildFits(env: Env, instr: Instr, given: Value, key: Path, i: nat, s: Sight)
    requires IsGroup(instr) && i < ChildCount(env, instr, given)
  {
    BodyFits(env, ChildBody(instr, i), ChildInput(env, instr, given, i), ChildPath(instr, key, i), s)
  }

  ghost predicate ChildrenFit(env: Env, instr: Instr, given: Value, key: Path, s: Sight)
    requires IsGroup(instr)
  {
    forall i :: 0 <= i < ChildCount(env, instr, given) ==> ChildFits(env, instr, given, key, i, s)
  }

  /** Only the record, observation and account at a key may have changed. */
  ghost predicate OnlyAt(s: Sight, t: Sight, key: Path) {
    && (forall k :: k != key ==> (k in s.store <==> k in t.store) && (k in s.store ==> s.store[k] == t.store[k]))
    && (forall k :: k != key ==> (k in s.log <==> k in t.log) && (k in s.log ==> s.log[k] == t.log[k]))
    && (forall k :: k != key ==> s.Throws(k) == t.Throws(k))
    && (s.expired ==> t.expired) && s.guarded == t.guarded
  }

  lemma OnlyAtUnder(s: Sight, t: Sight, key: Path, p: Path)
    requires OnlyAt(s, t, key) && !(p <= key)
    ensures SameUnder(s, t, p)
  {
  }

  /** Who commits next below a group: one of its children, or the group itself on its own record. */
  datatype Mover = Child(index: nat) | Scheduler

  ghost predicate Moved(env: Env, instr: Instr, given: Value, key: Path, who: Mover, s: Sight, t: Sight)
    requires IsGroup(instr)
  {
    match who
    case Child(i) =>
      && i < ChildCount(env, instr, given) && OutsideSame(s, t, ChildPath(instr, key, i))
      && (ChildFits(env, instr, given, key, i, s) ==> ChildFits(env, instr, given, key, i, t))
    case Scheduler => OnlyAt(s, t, key)
  }

  /** A commit of one child, or of the group, is not seen by any other child. */
  lemma OthersUnmoved(env: Env, instr: Instr, given: Value, key: Path, who: Mover, s: Sight, t: Sight, j: nat)
    requires IsGroup(instr) && (instr.Fork? ==> DistinctBranches(instr.branches)) && Moved(env, instr, given, key, who, s, t)
    requires j < ChildCount(env, instr, given) && who != Child(j)
    ensures ChildFits(env, instr, given, key, j, s) ==> ChildFits(env, instr, given, key, j, t)
    ensures EvalChild(env, instr, given, key, j, s.log) == EvalChild(env, instr, given, key, j, t.log)
  {
    var path := ChildPath(instr, key, j);
    if who.Child? {
      ChildrenApart(instr, key, who.index, j);
      OutsideUnder(s, t, ChildPath(instr, key, who.index), path);
    } else {
      OnlyAtUnder(s, t, key, path);
    }
    hide BodyFits, EvalBody, OutsideSame, OnlyAt;
    EvalBodyFrame(env, ChildBody(instr, j), ChildInput(env, instr, given, j), path, s.log, t.log);
    if ChildFits(env, instr, given, key, j, s) {
      BodyFitsFrame(env, ChildBody(instr, j), ChildInput(env, instr, given, j), path, s, t);
    }
  }

  /**
   Children that run at once. However their commits interleave with each other and with those of
   the group, every child's checkpoint agrees with its body at every moment, and a child's meaning
   changes only by its own commits.
   */
  lemma {:induction false} Interleaved(env: Env, instr: Instr, given: Value, key: Path, trace: seq<Sight>, who: seq<Mover>, m: nat, n: nat)
    requires IsGroup(instr) && (instr.Fork? ==> DistinctBranches(instr.branches))
    requires m <= n <= |who| && |trace| == |who| + 1
    requires forall i :: 0 <= i < |who| ==> Moved(env, instr, given, key, who[i], trace[i], trace[i + 1])
    requires ChildrenFit(env, instr, given, key, trace[m])
    ensures ChildrenFit(env, instr, given, key, trace[n])
    ensures forall j :: 0 <= j < ChildCount(env, instr, given) && Child(j) !in who[m..n] ==>
      EvalChild(env, instr, given, key, j, trace[n].log) == EvalChild(env, instr, given, key, j, trace[m].log)
    decreases n
  {
    hide Moved, ChildFits, EvalChild, ItemsOf, DistinctBranches;
    if m < n {
      Interleaved(env, instr, given, key, trace, who, m, n - 1);
      assert Moved(env, instr, given, key, who[n - 1], trace[n - 1], trace[n - 1 + 1]);
      assert who[m..n] == who[m..n - 1] + [who[n - 1]];
      forall j | 0 <= j < ChildCount(env, instr, given)
        ensures ChildFits(env, instr, given, key, j, trace[n])
        ensures Child(j) !in who[m..n] ==>
          EvalChild(env, instr, given, key, j, trace[n].log) == EvalChild(env, instr, given, key, j, trace[m].log)
      {
        if who[n - 1] == Child(j) {
          StepFits(env, instr, given, key, j, trace[n - 1], trace[n]);
        } else {
          OthersUnmoved(env, instr, given, key, who[n - 1], trace[n - 1], trace[n], j);
        }
      }
    }
  }

  lemma StepFits(env: Env, instr: Instr, given: Value, key: Path, j: nat, s: Sight, t: Sight)
    requires IsGroup(instr) && j < ChildCount(env, instr, given) && Moved(env, instr, given, key, Child(j), s, t)
    requires ChildFits(env, instr, given, key, j, s)
    ensures ChildFits(env, instr, given, key, j, t)
  {
  }
}
