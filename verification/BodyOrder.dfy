/**
 The compiler's ordering of a body: the accepted graphs are exactly the single chains
 from the entry, and every binding of a compiled body refers to an earlier node.
 */
module BodyOrder {
  import opened Wrappers
  import B = DataBinding

  datatype NodeDefinition = NodeDefinition(id: string, input: B.Binding, instruction: string)

  datatype Edge = Edge(from: string, to: string)

  datatype Defect = InvalidIdentity | UnknownEndpoint | DuplicateEdge | ForkOrJoin | InvalidEntry

  datatype OrderError = EmptyBody | Defects(defects: seq<Defect>) | ControlCycle | UnreachableNode

  // ---------------------------------------------------------------- chains

  ghost predicate DistinctIds(nodes: seq<NodeDefinition>) {
    forall i, j :: 0 <= i < j < |nodes| ==> nodes[i].id != nodes[j].id
  }

  ghost predicate Named(nodes: seq<NodeDefinition>) {
    forall i :: 0 <= i < |nodes| ==> nodes[i].id != ""
  }

  /** The consecutive pairs of an order. */
  function Pairs(order: seq<NodeDefinition>): (pairs: seq<Edge>)
    ensures |pairs| == if order == [] then 0 else |order| - 1
  {
    if order == [] then []
    else seq(|order| - 1, i requires 0 <= i < |order| - 1 => Link(order, i))
  }

  function Link(order: seq<NodeDefinition>, i: int): Edge
    requires 0 <= i < |order| - 1
  {
    Edge(order[i].id, order[i + 1].id)
  }

  /** The `i`th link of a path is one of the given successors. */
  ghost predicate Follows(next: map<string, string>, order: seq<NodeDefinition>, i: int)
    requires 0 <= i < |order| - 1
  {
    order[i].id in next && next[order[i].id] == order[i + 1].id
  }

  /** `order` lists the nodes once each, starts at the entry and follows exactly the given edges. */
  ghost predicate IsChain(entry: string, nodes: seq<NodeDefinition>, edges: seq<Edge>, order: seq<NodeDefinition>) {
    && order != [] && order[0].id == entry
    && Named(order) && DistinctIds(order)
    && multiset(order) == multiset(nodes)
    && multiset(edges) == multiset(Pairs(order))
  }

  ghost predicate HasChain(entry: string, nodes: seq<NodeDefinition>, edges: seq<Edge>) {
    exists order :: IsChain(entry, nodes, edges, order)
  }

  // ---------------------------------------------------------------- what the loops establish

  ghost predicate Indexed(nodes: seq<NodeDefinition>, byId: map<string, NodeDefinition>) {
    && Named(nodes) && DistinctIds(nodes)
    && (forall i :: 0 <= i < |nodes| ==> nodes[i].id in byId && byId[nodes[i].id] == nodes[i])
    && (forall id :: id in byId ==> Known(nodes, id))
    && |byId.Keys| == |nodes|
  }

  ghost predicate SingleLinks(ids: set<string>, edges: seq<Edge>) {
    && (forall i :: 0 <= i < |edges| ==> edges[i].from in ids && edges[i].to in ids)
    && (forall i, j :: 0 <= i < j < |edges| ==> edges[i].from != edges[j].from && edges[i].to != edges[j].to)
  }

  ghost predicate Linked(ids: set<string>, edges: seq<Edge>, next: map<string, string>, previous: set<string>) {
    && SingleLinks(ids, edges)
    && (forall i :: 0 <= i < |edges| ==>
          edges[i].from in next && next[edges[i].from] == edges[i].to && edges[i].to in previous)
    && (forall f :: f in next ==> Edge(f, next[f]) in edges)
    && (forall t :: t in previous ==> exists f :: f in next && next[f] == t)
  }

  /** The preconditions of the walk, as a property of the definition alone. */
  ghost predicate Linkable(entry: string, nodes: seq<NodeDefinition>, edges: seq<Edge>) {
    && Named(nodes) && DistinctIds(nodes)
    && (forall i :: 0 <= i < |edges| ==> Known(nodes, edges[i].from) && Known(nodes, edges[i].to))
    && (forall i, j :: 0 <= i < j < |edges| ==> edges[i].from != edges[j].from && edges[i].to != edges[j].to)
    && Known(nodes, entry)
    && (forall i :: 0 <= i < |edges| ==> edges[i].to != entry)
  }

  ghost predicate Known(nodes: seq<NodeDefinition>, id: string) {
    exists i :: 0 <= i < |nodes| && nodes[i].id == id
  }

  lemma SameElements<T>(a: seq<T>, b: seq<T>)
    requires multiset(a) == multiset(b)
    ensures forall x :: x in a <==> x in b
    ensures |a| == |b|
  {
    forall x
      ensures x in a <==> x in b
    {
      assert x in a <==> x in multiset(a);
      assert x in b <==> x in multiset(b);
    }
    assert |a| == |multiset(a)| == |multiset(b)| == |b|;
  }

  lemma CountDistinct<T>(s: seq<T>, x: T)
    requires forall i, j :: 0 <= i < j < |s| ==> s[i] != s[j]
    ensures multiset(s)[x] == if x in s then 1 else 0
  {
    if x in s {
      var a :| 0 <= a < |s| && s[a] == x;
      assert s == s[..a] + [s[a]] + s[a + 1..];
      assert x !in s[..a] && x !in s[a + 1..];
    }
  }

  lemma TwiceIn<T>(s: seq<T>, i: nat, j: nat)
    requires i < j < |s| && s[i] == s[j]
    ensures multiset(s)[s[i]] >= 2
  {
    assert s == s[..j] + [s[j]] + s[j + 1..];
    assert s[i] in s[..j];
  }

  /** Rearranging a list without repetitions gives a list without repetitions. */
  lemma StillDistinct<T>(a: seq<T>, b: seq<T>)
    requires forall i, j :: 0 <= i < j < |a| ==> a[i] != a[j]
    requires multiset(a) == multiset(b)
    ensures forall i, j :: 0 <= i < j < |b| ==> b[i] != b[j]
  {
    if i, j :| 0 <= i < j < |b| && b[i] == b[j] {
      TwiceIn(b, i, j);
      CountDistinct(a, b[i]);
      assert false;
    }
  }

  lemma DistinctSame<T>(a: seq<T>, b: seq<T>)
    requires forall i, j :: 0 <= i < j < |a| ==> a[i] != a[j]
    requires forall i, j :: 0 <= i < j < |b| ==> b[i] != b[j]
    requires forall x :: x in a <==> x in b
    ensures multiset(a) == multiset(b)
  {
    forall x: T
      ensures multiset(a)[x] == multiset(b)[x]
    {
      CountDistinct(a, x);
      CountDistinct(b, x);
    }
  }

  lemma DistinctNodes(order: seq<NodeDefinition>)
    requires DistinctIds(order)
    ensures forall i, j :: 0 <= i < j < |order| ==> order[i] != order[j]
  {
  }

  lemma DistinctPairs(order: seq<NodeDefinition>)
    requires DistinctIds(order)
    ensures forall i, j :: 0 <= i < j < |Pairs(order)| ==>
      Pairs(order)[i].from != Pairs(order)[j].from && Pairs(order)[i].to != Pairs(order)[j].to
  {
  }

  lemma PairAt(order: seq<NodeDefinition>, e: Edge) returns (k: nat)
    requires e in Pairs(order)
    ensures k + 1 < |order| && order[k].id == e.from && order[k + 1].id == e.to
  {
    k :| 0 <= k < |Pairs(order)| && Pairs(order)[k] == e;
  }

  lemma PairIn(order: seq<NodeDefinition>, k: nat)
    requires k + 1 < |order|
    ensures Link(order, k) in Pairs(order)
  {
    assert Pairs(order)[k] == Link(order, k);
  }

  lemma OnePlace(order: seq<NodeDefinition>, i: nat, j: nat)
    requires DistinctIds(order) && i < |order| && j < |order| && order[i].id == order[j].id
    ensures i == j
  {
  }

  lemma ChainNodes(entry: string, nodes: seq<NodeDefinition>, edges: seq<Edge>, order: seq<NodeDefinition>)
    requires IsChain(entry, nodes, edges, order)
    ensures Named(nodes) && DistinctIds(nodes) && |nodes| == |order|
    ensures forall n :: n in nodes <==> n in order
  {
    SameElements(order, nodes);
    DistinctNodes(order);
    StillDistinct(order, nodes);
    forall i | 0 <= i < |nodes|
      ensures nodes[i].id != ""
    {
      assert nodes[i] in order;
    }
    forall i, j | 0 <= i < j < |nodes|
      ensures nodes[i].id != nodes[j].id
    {
      assert nodes[i] in order && nodes[j] in order;
    }
  }

  lemma ChainEdges(entry: string, nodes: seq<NodeDefinition>, edges: seq<Edge>, order: seq<NodeDefinition>)
    requires IsChain(entry, nodes, edges, order)
    ensures forall e :: e in edges <==> e in Pairs(order)
    ensures forall i, j :: 0 <= i < j < |edges| ==> edges[i].from != edges[j].from && edges[i].to != edges[j].to
  {
    SameElements(edges, Pairs(order));
    DistinctPairs(order);
    StillDistinct(Pairs(order), edges);
    forall i, j | 0 <= i < j < |edges|
      ensures edges[i].from != edges[j].from && edges[i].to != edges[j].to
    {
      assert edges[i] in Pairs(order) && edges[j] in Pairs(order);
      var a := PairAt(order, edges[i]);
      var b := PairAt(order, edges[j]);
    }
  }

  lemma ChainIsLinkable(entry: string, nodes: seq<NodeDefinition>, edges: seq<Edge>, order: seq<NodeDefinition>)
    requires IsChain(entry, nodes, edges, order)
    ensures Linkable(entry, nodes, edges)
  {
    ChainNodes(entry, nodes, edges, order);
    ChainEdges(entry, nodes, edges, order);
    forall i | 0 <= i < |edges|
      ensures Known(nodes, edges[i].from) && Known(nodes, edges[i].to) && edges[i].to != entry
    {
      var k := PairAt(order, edges[i]);
      assert order[k] in nodes && order[k + 1] in nodes;
    }
    assert order[0] in nodes;
  }

  /** A walk along the edges of a chain stays on the chain. */
  lemma {:induction false} WalkFollowsChain(edges: seq<Edge>, order: seq<NodeDefinition>, chain: seq<NodeDefinition>, k: nat)
    requires order != [] && chain != [] && order[0] == chain[0] && DistinctIds(chain)
    requires forall e :: e in Pairs(order) ==> e in edges
    requires forall e :: e in edges ==> e in Pairs(chain)
    requires forall n :: n in order ==> n in chain
    requires k < |order|
    ensures k < |chain| && order[k] == chain[k]
    decreases k
  {
    hide Pairs, DistinctIds;
    if k > 0 {
      WalkFollowsChain(edges, order, chain, k - 1);
      var e := Link(order, k - 1);
      PairIn(order, k - 1);
      var j := PairAt(chain, e);
      OnePlace(chain, j, k - 1);
      assert order[k] in chain;
      var i :| 0 <= i < |chain| && chain[i] == order[k];
      OnePlace(chain, i, j + 1);
    }
  }

  /** Two chains of the same graph, listed in any order, are the same chain. */
  lemma ChainUnique(entry: string, nodes: seq<NodeDefinition>, edges: seq<Edge>, order: seq<NodeDefinition>,
                    nodes': seq<NodeDefinition>, edges': seq<Edge>, order': seq<NodeDefinition>)
    requires IsChain(entry, nodes, edges, order) && IsChain(entry, nodes', edges', order')
    requires multiset(nodes) == multiset(nodes') && multiset(edges) == multiset(edges')
    ensures order == order'
  {
    ChainNodes(entry, nodes, edges, order);
    ChainNodes(entry, nodes', edges', order');
    ChainEdges(entry, nodes, edges, order);
    ChainEdges(entry, nodes', edges', order');
    SameElements(order, order');
    SameElements(edges, edges');
    assert order[0] in order';
    assert order'[0] in order;
    forall k | 0 <= k < |order'|
      ensures order'[k] == order[k]
    {
      WalkFollowsChain(edges, order', order, k);
    }
  }

  // ---------------------------------------------------------------- the compiler's loops

  lemma IndexStep(before: seq<NodeDefinition>, node: NodeDefinition)
    ensures forall id :: Known(before + [node], id) <==> Known(before, id) || id == node.id
    ensures Named(before + [node]) && DistinctIds(before + [node]) <==>
      Named(before) && DistinctIds(before) && node.id != "" && !Known(before, node.id)
  {
    var after := before + [node];
    assert forall i :: 0 <= i < |before| ==> after[i] == before[i];
    assert after[|before|] == node;
    forall id
      ensures Known(after, id) <==> Known(before, id) || id == node.id
    {
      if Known(before, id) {
        var i :| 0 <= i < |before| && before[i].id == id;
        assert after[i].id == id;
      }
    }
  }

  method IndexNodes(nodes: seq<NodeDefinition>) returns (byId: map<string, NodeDefinition>, defects: seq<Defect>)
    ensures defects == [] <==> Named(nodes) && DistinctIds(nodes)
    ensures defects == [] ==> Indexed(nodes, byId)
  {
    byId, defects := map[], [];
    ghost var seen: seq<NodeDefinition> := [];
    var i := 0;
    while i < |nodes|
      invariant 0 <= i <= |nodes| && seen == nodes[..i]
      invariant forall id :: id in byId <==> Known(seen, id)
      invariant defects == [] <==> Named(seen) && DistinctIds(seen)
      invariant defects == [] ==> Filed(seen, byId)
    {
      var node := nodes[i];
      IndexStep(seen, node);
      if node.id == "" || node.id in byId {
        defects := defects + [InvalidIdentity];
      } else if defects == [] {
        FileStep(seen, byId, node);
      }
      byId := byId[node.id := node];
      seen := seen + [node];
      i := i + 1;
    }
    assert seen == nodes;
  }

  ghost predicate Filed(nodes: seq<NodeDefinition>, byId: map<string, NodeDefinition>) {
    && |byId.Keys| == |nodes|
    && forall j :: 0 <= j < |nodes| ==> nodes[j].id in byId && byId[nodes[j].id] == nodes[j]
  }

  lemma FileStep(seen: seq<NodeDefinition>, byId: map<string, NodeDefinition>, node: NodeDefinition)
    requires Filed(seen, byId) && node.id !in byId
    ensures Filed(seen + [node], byId[node.id := node])
  {
    assert byId[node.id := node].Keys == byId.Keys + {node.id};
  }

  /** Where the linking loop stands after some edges. */
  ghost predicate Linking(ids: set<string>, before: seq<Edge>, next: map<string, string>, previous: set<string>,
                          unique: set<Edge>, clean: bool) {
    && (clean <==> SingleLinks(ids, before))
    && (clean ==> Linked(ids, before, next, previous) && forall e :: e in unique <==> e in before)
  }

  method LinkEdges(byId: map<string, NodeDefinition>, edges: seq<Edge>)
    returns (next: map<string, string>, previous: set<string>, defects: seq<Defect>)
    ensures defects == [] <==> SingleLinks(byId.Keys, edges)
    ensures defects == [] ==> Linked(byId.Keys, edges, next, previous)
  {
    next, previous, defects := map[], {}, [];
    var unique: set<Edge> := {};
    assert Linking(byId.Keys, [], next, previous, unique, true);
    hide Linking;
    for i := 0 to |edges|
      invariant Linking(byId.Keys, edges[..i], next, previous, unique, defects == [])
    {
      var edge := edges[i];
      assert edges[..i + 1] == edges[..i] + [edge];
      if edge.from !in byId || edge.to !in byId {
        LinkUnknown(byId.Keys, edges[..i], edge, next, previous, unique, defects == []);
        defects := defects + [UnknownEndpoint];
      } else {
        LinkStep(byId.Keys, edges[..i], edge, next, previous, unique, defects == []);
        if edge in unique {
          defects := defects + [DuplicateEdge];
        }
        unique := unique + {edge};
        var taken := edge.from in next;
        next := next[edge.from := edge.to];
        if taken || edge.to in previous {
          defects := defects + [ForkOrJoin];
        } else {
          previous := previous + {edge.to};
        }
      }
    }
    assert edges[..|edges|] == edges;
    LinkingEnds(byId.Keys, edges, next, previous, unique, defects == []);
  }

  lemma LinkingEnds(ids: set<string>, edges: seq<Edge>, next: map<string, string>, previous: set<string>, unique: set<Edge>, clean: bool)
    requires Linking(ids, edges, next, previous, unique, clean)
    ensures clean <==> SingleLinks(ids, edges)
    ensures clean ==> Linked(ids, edges, next, previous)
  {
    hide Linked;
  }

  lemma LinkUnknown(ids: set<string>, before: seq<Edge>, edge: Edge, next: map<string, string>, previous: set<string>,
                    unique: set<Edge>, clean: bool)
    requires Linking(ids, before, next, previous, unique, clean) && (edge.from !in ids || edge.to !in ids)
    ensures Linking(ids, before + [edge], next, previous, unique, false)
  {
    assert (before + [edge])[|before|] == edge;
  }

  lemma LinkStep(ids: set<string>, before: seq<Edge>, edge: Edge, next: map<string, string>, previous: set<string>,
                 unique: set<Edge>, clean: bool)
    requires Linking(ids, before, next, previous, unique, clean) && edge.from in ids && edge.to in ids
    ensures var free := edge.from !in next && edge.to !in previous;
      Linking(ids, before + [edge], next[edge.from := edge.to], if free then previous + {edge.to} else previous, unique + {edge},
              clean && edge !in unique && free)
  {
    LinkAppended(ids, before, edge);
    if clean {
      if edge.from !in next && edge.to !in previous {
        forall i | 0 <= i < |before|
          ensures before[i].from != edge.from && before[i].to != edge.to
        {
        }
        LinkedAppended(ids, before, edge, next, previous);
      } else if edge.from in next {
        var i :| 0 <= i < |before| && before[i] == Edge(edge.from, next[edge.from]);
      } else {
        var f :| f in next && next[f] == edge.to;
        var i :| 0 <= i < |before| && before[i] == Edge(f, next[f]);
      }
    }
    hide Linked;
  }

  lemma LinkedAppended(ids: set<string>, before: seq<Edge>, edge: Edge, next: map<string, string>, previous: set<string>)
    requires Linked(ids, before, next, previous) && SingleLinks(ids, before + [edge]) && edge.from !in next
    ensures Linked(ids, before + [edge], next[edge.from := edge.to], previous + {edge.to})
  {
    var after, longer := before + [edge], next[edge.from := edge.to];
    hide SingleLinks;
    assert after[|before|] == edge;
    forall f | f in longer
      ensures Edge(f, longer[f]) in after
    {
      if f != edge.from {
        assert Edge(f, next[f]) in before;
      }
    }
    forall t | t in previous + {edge.to}
      ensures exists f :: f in longer && longer[f] == t
    {
      if t in previous {
        var f :| f in next && next[f] == t;
        assert f in longer && longer[f] == t;
      } else {
        assert longer[edge.from] == t;
      }
    }
  }

  lemma LinkAppended(ids: set<string>, before: seq<Edge>, edge: Edge)
    requires edge.from in ids && edge.to in ids
    ensures SingleLinks(ids, before + [edge]) <==>
      && SingleLinks(ids, before)
      && (forall i :: 0 <= i < |before| ==> before[i].from != edge.from && before[i].to != edge.to)
  {
    var after := before + [edge];
    assert forall i :: 0 <= i < |before| ==> after[i] == before[i];
    assert after[|before|] == edge;
    if SingleLinks(ids, after) {
      assert forall i :: 0 <= i < |before| ==> after[i].from != after[|before|].from && after[i].to != after[|before|].to;
    }
  }

  /** The walk's invariant: a path along the edges from the entry, without repetitions. */
  ghost predicate Walked(entry: string, byId: map<string, NodeDefinition>, next: map<string, string>,
                         order: seq<NodeDefinition>, visited: set<string>, cursor: Option<string>) {
    && DistinctIds(order) && |visited| == |order|
    && (forall i :: 0 <= i < |order| ==> order[i].id in byId && byId[order[i].id] == order[i] && order[i].id in visited)
    && (forall id :: id in visited ==> Known(order, id))
    && (forall i :: 0 <= i < |order| - 1 ==> Follows(next, order, i))
    && (order != [] ==> order[0].id == entry)
    && (if order == [] then cursor == Some(entry)
        else var last := order[|order| - 1].id;
             cursor == if last in next then Some(next[last]) else None)
  }

  ghost predicate SoundLinks(entry: string, byId: map<string, NodeDefinition>, next: map<string, string>) {
    && entry in byId
    && (forall id :: id in byId ==> byId[id].id == id)
    && (forall f :: f in next ==> f in byId && next[f] in byId && next[f] != entry)
    && (forall f, g :: f in next && g in next && next[f] == next[g] ==> f == g)
  }

  /** No link leads back into the walked path: the cycle branch is dead. */
  lemma NoCycle(entry: string, byId: map<string, NodeDefinition>, next: map<string, string>,
                order: seq<NodeDefinition>, visited: set<string>, cursor: Option<string>)
    requires SoundLinks(entry, byId, next)
    requires Walked(entry, byId, next, order, visited, cursor) && cursor.Some?
    ensures cursor.value !in visited && cursor.value in byId
  {
    forall k | 0 <= k < |order|
      ensures order[k].id != cursor.value
    {
      if k > 0 {
        assert Follows(next, order, k - 1);
      }
    }
  }

  /** The compiler's ordering of one body. */
  method Ordered(entry: string, nodes: seq<NodeDefinition>, edges: seq<Edge>)
    returns (r: Result<seq<NodeDefinition>, OrderError>)
    ensures r.Ok? ==> IsChain(entry, nodes, edges, r.value)
    ensures r.Err? ==> !HasChain(entry, nodes, edges)
    ensures r != Err(ControlCycle)
  {
    if |nodes| == 0 {
      if order :| IsChain(entry, nodes, edges, order) {
        ChainNodes(entry, nodes, edges, order);
        assert false;
      }
      return Err(EmptyBody);
    }
    var byId, defects := IndexNodes(nodes);
    var next, previous, linkDefects := LinkEdges(byId, edges);
    defects := defects + linkDefects;
    if entry !in byId || entry in previous {
      defects := defects + [InvalidEntry];
    }
    if defects != [] {
      if order :| IsChain(entry, nodes, edges, order) {
        ChainIsLinkable(entry, nodes, edges, order);
        LinkableHasNoDefects(entry, nodes, edges, byId, next, previous);
        assert false;
      }
      return Err(Defects(defects));
    }
    SoundLinksHold(entry, nodes, edges, byId, next, previous);
    r := WalkFrom(entry, nodes, edges, byId, next, previous);
  }

  /** The cursor loop of the ordering. */
  method WalkFrom(entry: string, nodes: seq<NodeDefinition>, ghost edges: seq<Edge>, byId: map<string, NodeDefinition>,
                  next: map<string, string>, ghost previous: set<string>)
    returns (r: Result<seq<NodeDefinition>, OrderError>)
    requires Indexed(nodes, byId) && Linked(byId.Keys, edges, next, previous) && SoundLinks(entry, byId, next)
    ensures r.Ok? ==> IsChain(entry, nodes, edges, r.value)
    ensures r.Err? ==> !HasChain(entry, nodes, edges)
    ensures r != Err(ControlCycle)
  {
    var order: seq<NodeDefinition> := [];
    var visited: set<string> := {};
    var cursor := Some(entry);
    while cursor.Some?
      invariant Walked(entry, byId, next, order, visited, cursor)
      decreases byId.Keys - visited, cursor.Some?
    {
      var id := cursor.value;
      NoCycle(entry, byId, next, order, visited, cursor);
      if id in visited {
        return Err(ControlCycle);
      }
      WalkStep(entry, byId, next, order, visited, id);
      visited := visited + {id};
      order := order + [byId[id]];
      cursor := if id in next then Some(next[id]) else None;
    }
    if |visited| != |nodes| {
      if chain :| IsChain(entry, nodes, edges, chain) {
        WalkCoversChain(entry, nodes, edges, byId, next, previous, order, visited, chain);
        assert false;
      }
      return Err(UnreachableNode);
    }
    WalkIsChain(entry, nodes, edges, byId, next, previous, order, visited);
    r := Ok(order);
  }

  lemma WalkStep(entry: string, byId: map<string, NodeDefinition>, next: map<string, string>,
                 order: seq<NodeDefinition>, visited: set<string>, id: string)
    requires SoundLinks(entry, byId, next)
    requires Walked(entry, byId, next, order, visited, Some(id)) && id !in visited && id in byId
    ensures Walked(entry, byId, next, order + [byId[id]], visited + {id}, if id in next then Some(next[id]) else None)
  {
    hide Known, Follows;
    var after := order + [byId[id]];
    assert after[|order|] == byId[id] && byId[id].id == id;
    WalkFollows(next, order, byId[id]);
    forall x | x in visited + {id}
      ensures Known(after, x)
    {
      IndexStep(order, byId[id]);
    }
  }

  lemma WalkFollows(next: map<string, string>, order: seq<NodeDefinition>, node: NodeDefinition)
    requires forall i :: 0 <= i < |order| - 1 ==> Follows(next, order, i)
    requires order != [] ==> order[|order| - 1].id in next && next[order[|order| - 1].id] == node.id
    ensures forall i :: 0 <= i < |order + [node]| - 1 ==> Follows(next, order + [node], i)
  {
    forall i | 0 <= i < |order|
      ensures Follows(next, order + [node], i)
    {
      if i < |order| - 1 {
        assert Follows(next, order, i);
      }
    }
  }

  lemma LinkableHasNoDefects(entry: string, nodes: seq<NodeDefinition>, edges: seq<Edge>, byId: map<string, NodeDefinition>,
                             next: map<string, string>, previous: set<string>)
    requires Linkable(entry, nodes, edges) && Indexed(nodes, byId)
    requires SingleLinks(byId.Keys, edges) ==> Linked(byId.Keys, edges, next, previous)
    ensures SingleLinks(byId.Keys, edges)
    ensures entry in byId && entry !in previous
  {
    assert SingleLinks(byId.Keys, edges);
    if entry in previous {
      assert false;
    }
  }

  lemma SoundLinksHold(entry: string, nodes: seq<NodeDefinition>, edges: seq<Edge>, byId: map<string, NodeDefinition>,
                       next: map<string, string>, previous: set<string>)
    requires Indexed(nodes, byId) && Linked(byId.Keys, edges, next, previous)
    requires entry in byId && entry !in previous
    ensures SoundLinks(entry, byId, next)
  {
    forall id | id in byId
      ensures byId[id].id == id
    {
      var i :| 0 <= i < |nodes| && nodes[i].id == id;
    }
    forall f | f in next
      ensures f in byId && next[f] in byId && next[f] != entry
    {
      var i :| 0 <= i < |edges| && edges[i] == Edge(f, next[f]);
    }
    forall f, g | f in next && g in next && next[f] == next[g]
      ensures f == g
    {
      var i :| 0 <= i < |edges| && edges[i] == Edge(f, next[f]);
      var j :| 0 <= j < |edges| && edges[j] == Edge(g, next[g]);
    }
  }

  /** A finished walk that visited as many nodes as there are is a chain. */
  lemma WalkIsChain(entry: string, nodes: seq<NodeDefinition>, edges: seq<Edge>, byId: map<string, NodeDefinition>,
                    next: map<string, string>, previous: set<string>, order: seq<NodeDefinition>, visited: set<string>)
    requires Indexed(nodes, byId) && Linked(byId.Keys, edges, next, previous) && SoundLinks(entry, byId, next)
    requires Walked(entry, byId, next, order, visited, None) && |visited| == |nodes|
    ensures IsChain(entry, nodes, edges, order)
  {
    WalkNodes(entry, nodes, byId, next, order, visited);
    WalkPairs(entry, nodes, edges, byId, next, previous, order, visited);
  }

  lemma WalkNodes(entry: string, nodes: seq<NodeDefinition>, byId: map<string, NodeDefinition>,
                  next: map<string, string>, order: seq<NodeDefinition>, visited: set<string>)
    requires Indexed(nodes, byId) && Walked(entry, byId, next, order, visited, None) && |visited| == |nodes|
    ensures visited == byId.Keys && Named(order) && multiset(order) == multiset(nodes)
  {
    forall id | id in visited
      ensures id in byId
    {
      var i :| 0 <= i < |order| && order[i].id == id;
    }
    AllVisited(byId.Keys, visited);
    forall i | 0 <= i < |order|
      ensures order[i] in nodes && order[i].id != ""
    {
      var k :| 0 <= k < |nodes| && nodes[k].id == order[i].id;
    }
    forall i | 0 <= i < |nodes|
      ensures nodes[i] in order
    {
      var k :| 0 <= k < |order| && order[k].id == nodes[i].id;
    }
    DistinctNodes(order);
    DistinctNodes(nodes);
    DistinctSame(order, nodes);
  }

  lemma WalkPairs(entry: string, nodes: seq<NodeDefinition>, edges: seq<Edge>, byId: map<string, NodeDefinition>,
                  next: map<string, string>, previous: set<string>, order: seq<NodeDefinition>, visited: set<string>)
    requires Linked(byId.Keys, edges, next, previous)
    requires Walked(entry, byId, next, order, visited, None) && visited == byId.Keys
    ensures multiset(edges) == multiset(Pairs(order))
  {
    forall e
      ensures e in edges <==> e in Pairs(order)
    {
      if e in edges {
        EdgeIsWalked(entry, byId, next, order, visited, e);
      }
      if e in Pairs(order) {
        PairIsEdge(next, edges, order, e);
      }
    }
    DistinctPairs(order);
    DistinctSame(edges, Pairs(order));
  }

  lemma EdgeIsWalked(entry: string, byId: map<string, NodeDefinition>, next: map<string, string>,
                     order: seq<NodeDefinition>, visited: set<string>, e: Edge)
    requires Walked(entry, byId, next, order, visited, None)
    requires e.from in visited && e.from in next && next[e.from] == e.to
    ensures e in Pairs(order)
  {
    var k :| 0 <= k < |order| && order[k].id == e.from;
    assert k < |order| - 1;
    assert Follows(next, order, k);
    assert Pairs(order)[k] == e;
  }

  lemma PairIsEdge(next: map<string, string>, edges: seq<Edge>, order: seq<NodeDefinition>, e: Edge)
    requires forall f :: f in next ==> Edge(f, next[f]) in edges
    requires forall i :: 0 <= i < |order| - 1 ==> Follows(next, order, i)
    requires e in Pairs(order)
    ensures e in edges
  {
    var k := PairAt(order, e);
    assert Follows(next, order, k);
    assert Edge(e.from, next[e.from]) in edges;
  }

  lemma AllVisited(ids: set<string>, visited: set<string>)
    requires visited <= ids && |visited| == |ids|
    ensures visited == ids
  {
    assert |ids - visited| == |ids| - |visited|;
    assert ids == (ids - visited) + visited;
  }

  /** If the graph is a chain, the walk reaches all of it. */
  lemma WalkCoversChain(entry: string, nodes: seq<NodeDefinition>, edges: seq<Edge>, byId: map<string, NodeDefinition>,
                        next: map<string, string>, previous: set<string>, order: seq<NodeDefinition>,
                        visited: set<string>, chain: seq<NodeDefinition>)
    requires Indexed(nodes, byId) && Linked(byId.Keys, edges, next, previous)
    requires Walked(entry, byId, next, order, visited, None) && IsChain(entry, nodes, edges, chain)
    ensures |visited| == |nodes|
  {
    ChainNodes(entry, nodes, edges, chain);
    ChainEdges(entry, nodes, edges, chain);
    forall i | 0 <= i < |order|
      ensures order[i] in chain
    {
      var k :| 0 <= k < |nodes| && nodes[k].id == order[i].id;
      assert nodes[k] in chain;
    }
    SameFirst(entry, nodes, byId, order, chain);
    forall e | e in Pairs(order)
      ensures e in edges
    {
      PairIsEdge(next, edges, order, e);
    }
    WalkFollowsChain(edges, order, chain, |order| - 1);
    var last := |order| - 1;
    InnerNodeHasSuccessor(edges, next, chain, last);
  }

  lemma InnerNodeHasSuccessor(edges: seq<Edge>, next: map<string, string>, chain: seq<NodeDefinition>, k: nat)
    requires forall e :: e in edges <==> e in Pairs(chain)
    requires forall i :: 0 <= i < |edges| ==> edges[i].from in next
    ensures k < |chain| - 1 ==> chain[k].id in next
  {
    if k < |chain| - 1 {
      assert Pairs(chain)[k] in edges;
    }
  }

  lemma SameFirst(entry: string, nodes: seq<NodeDefinition>, byId: map<string, NodeDefinition>,
                  order: seq<NodeDefinition>, chain: seq<NodeDefinition>)
    requires Indexed(nodes, byId)
    requires order != [] && order[0].id == entry && order[0].id in byId && byId[order[0].id] == order[0]
    requires chain != [] && chain[0].id == entry && chain[0] in nodes
    ensures order[0] == chain[0]
  {
  }

  // ---------------------------------------------------------------- references point backwards

  /** Ids of the first `k` nodes of a sequence. */
  function IdsBefore(order: seq<NodeDefinition>, k: nat): (ids: set<string>)
    requires k <= |order|
    ensures forall id :: id in ids <==> exists i :: 0 <= i < k && order[i].id == id
  {
    set i | 0 <= i < k :: order[i].id
  }

  /** A compiled body: every binding is accepted against the outputs of the earlier nodes. */
  ghost predicate Compiled(sequence: seq<NodeDefinition>, output: B.Binding, limits: B.Limits) {
    && (forall k :: 0 <= k < |sequence| ==> B.Accepted(sequence[k].input, IdsBefore(sequence, k), limits))
    && B.Accepted(output, IdsBefore(sequence, |sequence|), limits)
  }

  /** The compiler's body pass: order, then check each binding against what precedes it. */
  method CompileBody(entry: string, nodes: seq<NodeDefinition>, edges: seq<Edge>, output: B.Binding, limits: B.Limits)
    returns (r: Result<seq<NodeDefinition>, string>)
    ensures r.Ok? <==> exists order :: IsChain(entry, nodes, edges, order) && Compiled(order, output, limits)
    ensures r.Ok? ==> IsChain(entry, nodes, edges, r.value) && Compiled(r.value, output, limits)
  {
    var ordered := Ordered(entry, nodes, edges);
    if ordered.Err? {
      return Err("order");
    }
    var order := ordered.value;
    var available: set<string> := {};
    var faults := 0;
    var k := 0;
    while k < |order|
      invariant 0 <= k <= |order|
      invariant available == IdsBefore(order, k)
      invariant faults >= 0
      invariant faults == 0 <==> forall i :: 0 <= i < k ==> B.Accepted(order[i].input, IdsBefore(order, i), limits)
    {
      var checked := B.Check(order[k].input, available, limits);
      if checked.Err? {
        faults := faults + 1;
      }
      available := available + {order[k].id};
      k := k + 1;
    }
    var checked := B.Check(output, available, limits);
    if checked.Err? {
      faults := faults + 1;
    }
    forall other | IsChain(entry, nodes, edges, other)
      ensures other == order
    {
      ChainUnique(entry, nodes, edges, order, nodes, edges, other);
    }
    r := if faults == 0 then Ok(order) else Err("binding");
  }
}
