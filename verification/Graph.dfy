/** Cycle detection over a pipeline's input edges. */
module Graph {
  import opened Wrappers

  type NodeID = nat

  /** A node of the spec; ids may repeat, and an input may name no node at all. */
  datatype SpecNode = SpecNode(id: NodeID, inputs: seq<NodeID>)

  type Edges = map<NodeID, seq<NodeID>>

  datatype Colour = White | Grey | Black

  function Inputs(e: Edges, id: NodeID): seq<NodeID> { if id in e then e[id] else [] }

  /** The inputs of every node, those of a repeated id together. */
  function Collected(graph: seq<SpecNode>): Edges {
    if graph == [] then map[]
    else
      var e, n := Collected(graph[..|graph| - 1]), graph[|graph| - 1];
      With(e, n.id, n.inputs)
  }

  function With(e: Edges, id: NodeID, ins: seq<NodeID>): Edges {
    if ins == [] then e else e[id := Inputs(e, id) + ins]
  }

  /** Some node of the spec with this id takes the other as an input. */
  predicate Takes(graph: seq<SpecNode>, id: NodeID, up: NodeID) {
    exists i :: 0 <= i < |graph| && graph[i].id == id && up in graph[i].inputs
  }

  /** The edges are those of the spec's nodes, whatever ids repeat. */
  lemma {:induction false} CollectedTakes(graph: seq<SpecNode>, id: NodeID, up: NodeID)
    ensures up in Inputs(Collected(graph), id) <==> Takes(graph, id, up)
  {
    if graph == [] {
    } else {
      var init, n := graph[..|graph| - 1], graph[|graph| - 1];
      CollectedTakes(init, id, up);
      assert graph == init + [n];
      if Takes(init, id, up) {
        var i :| 0 <= i < |init| && init[i].id == id && up in init[i].inputs;
        assert graph[i] == init[i];
      }
    }
  }

  // ---- walks and cycles ------------------------------------------------------------------------------

  ghost predicate Walk(e: Edges, p: seq<NodeID>) {
    p != [] && forall i, j :: 0 <= i && j == i + 1 && j < |p| ==> p[j] in Inputs(e, p[i])
  }

  ghost predicate Cycle(e: Edges, p: seq<NodeID>) { Walk(e, p) && |p| >= 2 && p[0] == p[|p| - 1] }

  ghost predicate Cyclic(e: Edges) { exists p :: Cycle(e, p) }

  /** A walk from the node comes back to a node it has visited. */
  ghost predicate Trapped(e: Edges, id: NodeID) {
    exists p, i :: Lasso(e, id, p, i)
  }

  ghost predicate Lasso(e: Edges, id: NodeID, p: seq<NodeID>, i: nat) {
    Walk(e, p) && p[0] == id && i < |p| - 1 && p[i] == p[|p| - 1]
  }

  lemma TrappedCyclic(e: Edges, id: NodeID)
    requires Trapped(e, id)
    ensures Cyclic(e)
  {
    var p, i :| Lasso(e, id, p, i);
    assert Cycle(e, p[i..]);
  }

  // ---- what is finished cannot be trapped --------------------------------------------------------------

  /** Every node comes after all its inputs. */
  ghost predicate Topological(e: Edges, order: seq<NodeID>) {
    forall k, up :: 0 <= k < |order| && up in Inputs(e, order[k]) ==> up in order[..k]
  }

  /** Each step of a walk goes strictly down the order. */
  lemma {:induction false} WalkDown(e: Edges, order: seq<NodeID>, p: seq<NodeID>, i: nat, j: nat, k: nat)
    requires Topological(e, order) && Walk(e, p) && i < j < |p| && k <= |order| && p[i] in order[..k]
    ensures k > 0 && p[j] in order[..k - 1]
    decreases j - i
  {
    if j == i + 1 {
      var m :| 0 <= m < k && order[m] == p[i];
      assert p[j] in order[..m];
      assert order[..m] <= order[..k - 1];
    } else {
      WalkDown(e, order, p, i, j - 1, k);
      WalkDown(e, order, p, j - 1, j, k - 1);
    }
  }

  lemma {:induction false} NoReturn(e: Edges, order: seq<NodeID>, p: seq<NodeID>, i: nat, k: nat)
    requires Topological(e, order) && Walk(e, p) && i < |p| - 1 && k <= |order| && p[i] in order[..k]
    ensures p[i] != p[|p| - 1]
    decreases k
  {
    WalkDown(e, order, p, i, |p| - 1, k);
    if p[i] == p[|p| - 1] {
      NoReturn(e, order, p, i, k - 1);
    }
  }

  lemma FinishedFree(e: Edges, order: seq<NodeID>, id: NodeID)
    requires Topological(e, order) && id in order
    ensures !Trapped(e, id)
  {
    forall p, i | Lasso(e, id, p, i)
      ensures false
    {
      assert order[..|order|] == order;
      if i > 0 {
        WalkDown(e, order, p, 0, i, |order|);
        assert p[i] in order;
      }
      NoReturn(e, order, p, i, |order|);
    }
  }

  // ---- the search --------------------------------------------------------------------------------------

  /** Every node an edge leads to is in the list. */
  ghost predicate Within(e: Edges, all: seq<NodeID>) {
    forall id, up :: id in e && up in e[id] ==> up in all
  }

  /** How many places of the list are not coloured yet. */
  ghost function Whites(colour: map<NodeID, Colour>, all: seq<NodeID>): nat {
    if all == [] then 0
    else Whites(colour, all[..|all| - 1]) + if all[|all| - 1] in colour then 0 else 1
  }

  lemma {:induction false} Painted(colour: map<NodeID, Colour>, id: NodeID, c: Colour, all: seq<NodeID>)
    ensures Whites(colour[id := c], all) <= Whites(colour, all)
    ensures id in colour ==> Whites(colour[id := c], all) == Whites(colour, all)
    ensures id !in colour && id in all ==> Whites(colour[id := c], all) < Whites(colour, all)
  {
    if all == [] {
    } else {
      Painted(colour, id, c, all[..|all| - 1]);
      assert all == all[..|all| - 1] + [all[|all| - 1]];
    }
  }

  lemma PrefixIn(a: seq<NodeID>, b: seq<NodeID>)
    requires a <= b
    ensures forall x :: x in a ==> x in b
  {}

  class Search {
    const edges: Edges
    var colour: map<NodeID, Colour>
    ghost var order: seq<NodeID>

    constructor (e: Edges)
      ensures edges == e && colour == map[] && Valid([])
    {
      edges, colour, order := e, map[], [];
    }

    function Of(id: NodeID): Colour
      reads this
    {
      if id in colour then colour[id] else White
    }

    /** Grey is the current path, black what is finished, each after its inputs. */
    ghost predicate Valid(path: seq<NodeID>)
      reads this
    {
      && (forall id :: id in colour ==> colour[id] != White)
      && (forall id :: Of(id).Grey? <==> id in path)
      && (forall id :: Of(id).Black? <==> id in order)
      && (path != [] ==> Walk(edges, path))
      && Topological(edges, order)
    }

    /** The path can be followed to the node. */
    ghost predicate Reaches(path: seq<NodeID>, id: NodeID)
      reads this
    {
      path == [] || id in Inputs(edges, path[|path| - 1])
    }

    /**
     Visits a node and all its inputs. It comes back with the path as it was and the node finished,
     or with the node's walk, continued from the path, caught in a cycle.
     */
    method Visit(id: NodeID, ghost path: seq<NodeID>, ghost all: seq<NodeID>) returns (ok: bool)
      requires Valid(path) && Reaches(path, id) && id in all && Within(edges, all)
      modifies this
      ensures Whites(colour, all) <= old(Whites(colour, all))
      ensures ok ==> Valid(path) && id in order && old(order) <= order
      ensures !ok ==> Trapped(edges, (path + [id])[0])
      decreases Whites(colour, all), 0
    {
      match Of(id)
      case Grey =>
        Caught(edges, path, id);
        return false;
      case Black => return true;
      case White =>
        Enter(id, path, all);
        ok := VisitInputs(id, path, all);
        if ok {
          Blacken(id, path, all);
        }
    }

    method VisitInputs(id: NodeID, ghost path: seq<NodeID>, ghost all: seq<NodeID>) returns (ok: bool)
      requires Valid(path + [id]) && Within(edges, all)
      modifies this
      ensures Whites(colour, all) <= old(Whites(colour, all))
      ensures ok ==> Valid(path + [id]) && old(order) <= order && forall up :: up in Inputs(edges, id) ==> up in order
      ensures !ok ==> Trapped(edges, (path + [id])[0])
      decreases Whites(colour, all), 1
    {
      var ins := Inputs(edges, id);
      ghost var longer := path + [id];
      for i := 0 to |ins|
        invariant Valid(longer) && old(order) <= order && Whites(colour, all) <= old(Whites(colour, all))
        invariant forall j :: 0 <= j < i ==> ins[j] in order
      {
        assert ins[i] in ins;
        ghost var before := order;
        ok := Visit(ins[i], longer, all);
        if !ok {
          assert (longer + [ins[i]])[0] == longer[0];
          return false;
        }
        PrefixIn(before, order);
      }
      ok := true;
    }

    method Enter(id: NodeID, ghost path: seq<NodeID>, ghost all: seq<NodeID>)
      requires Valid(path) && Reaches(path, id) && Of(id).White? && id in all
      modifies this`colour
      ensures Valid(path + [id]) && id !in path && Whites(colour, all) < old(Whites(colour, all))
    {
      WalkOn(edges, path, id);
      Painted(colour, id, Grey, all);
      assert forall x :: x in path + [id] <==> x in path || x == id;
      colour := colour[id := Grey];
    }

    method Blacken(id: NodeID, ghost path: seq<NodeID>, ghost all: seq<NodeID>)
      requires Valid(path + [id]) && id !in path && forall up :: up in Inputs(edges, id) ==> up in order
      modifies this
      ensures Valid(path) && order == old(order) + [id] && Whites(colour, all) == old(Whites(colour, all))
    {
      assert forall x :: x in path + [id] <==> x in path || x == id;
      assert Of(id).Grey?;
      Painted(colour, id, Black, all);
      Extended(edges, order, id);
      WalkBack(edges, path, id);
      colour := colour[id := Black];
      order := order + [id];
    }
  }

  lemma WalkOn(e: Edges, path: seq<NodeID>, id: NodeID)
    requires path != [] ==> Walk(e, path) && id in Inputs(e, path[|path| - 1])
    ensures Walk(e, path + [id])
  {}

  lemma WalkBack(e: Edges, path: seq<NodeID>, id: NodeID)
    requires Walk(e, path + [id])
    ensures path != [] ==> Walk(e, path)
  {
    var p := path + [id];
    forall i, j | 0 <= i && j == i + 1 && j < |path|
      ensures path[j] in Inputs(e, path[i])
    {
      assert p[j] in Inputs(e, p[i]);
    }
  }

  lemma Caught(e: Edges, path: seq<NodeID>, id: NodeID)
    requires id in path && Walk(e, path) && id in Inputs(e, path[|path| - 1])
    ensures Trapped(e, (path + [id])[0])
  {
    var i :| 0 <= i < |path| && path[i] == id;
    WalkOn(e, path, id);
    assert Lasso(e, (path + [id])[0], path + [id], i);
  }

  lemma Extended(e: Edges, order: seq<NodeID>, id: NodeID)
    requires Topological(e, order) && forall up :: up in Inputs(e, id) ==> up in order
    ensures Topological(e, order + [id])
  {
    var o := order + [id];
    forall k, up | 0 <= k < |o| && up in Inputs(e, o[k])
      ensures up in o[..k]
    {
      assert k < |order| ==> o[..k] == order[..k];
      assert k == |order| ==> o[..k] == order;
    }
  }

  // ---- the whole graph ---------------------------------------------------------------------------------

  method Collect(graph: seq<SpecNode>) returns (e: Edges)
    ensures e == Collected(graph)
  {
    e := map[];
    for i := 0 to |graph|
      invariant e == Collected(graph[..i])
    {
      assert graph[..i + 1][..i] == graph[..i];
      var n := graph[i];
      ghost var before := e;
      for j := 0 to |n.inputs|
        invariant e == With(before, n.id, n.inputs[..j])
      {
        WithNext(before, n.id, n.inputs, j);
        e := e[n.id := Inputs(e, n.id) + [n.inputs[j]]];
      }
      assert n.inputs[..|n.inputs|] == n.inputs;
    }
    assert graph[..|graph|] == graph;
  }

  lemma WithNext(e: Edges, id: NodeID, ins: seq<NodeID>, j: nat)
    requires j < |ins|
    ensures var now := With(e, id, ins[..j]); With(e, id, ins[..j + 1]) == now[id := Inputs(now, id) + [ins[j]]]
  {
    assert ins[..j + 1] == ins[..j] + [ins[j]];
    assert Inputs(e, id) + (ins[..j] + [ins[j]]) == Inputs(e, id) + ins[..j] + [ins[j]];
    assert j == 0 ==> Inputs(e, id) + ins[..j] == Inputs(e, id);
  }

  /** Only nodes of the graph have inputs. */
  lemma {:induction false} CollectedKeys(graph: seq<SpecNode>, id: NodeID)
    requires id in Collected(graph)
    ensures exists i :: 0 <= i < |graph| && graph[i].id == id
  {
    var init := graph[..|graph| - 1];
    if id in Collected(init) {
      CollectedKeys(init, id);
      var i :| 0 <= i < |init| && init[i].id == id;
      assert graph[i].id == id;
    }
  }

  /** Every cycle passes through a node that has inputs, hence one of the graph. */
  lemma CyclicTraps(graph: seq<SpecNode>)
    requires Cyclic(Collected(graph))
    ensures exists i :: 0 <= i < |graph| && Trapped(Collected(graph), graph[i].id)
  {
    var e := Collected(graph);
    var p :| Cycle(e, p);
    assert p[1] in Inputs(e, p[0]);
    CollectedKeys(graph, p[0]);
    var i :| 0 <= i < |graph| && graph[i].id == p[0];
    assert Lasso(e, graph[i].id, p, 0);
  }

  /**
   Finds the first node, in spec order, from which the inputs lead into a cycle; there is none
   exactly when the graph has no cycle.
   */
  method CheckAcyclic(graph: seq<SpecNode>) returns (bad: Option<nat>)
    ensures bad.None? <==> !Cyclic(Collected(graph))
    ensures bad.Some? ==> bad.value < |graph| && Trapped(Collected(graph), graph[bad.value].id)
    ensures forall i :: 0 <= i < (if bad.Some? then bad.value else |graph|) ==> !Trapped(Collected(graph), graph[i].id)
  {
    var e := Collect(graph);
    var search := new Search(e);
    ghost var all := Everyone(graph);
    EveryoneIn(graph);
    for i := 0 to |graph|
      invariant fresh(search) && search.edges == e && search.Valid([])
      invariant forall j :: 0 <= j < i ==> !Trapped(e, graph[j].id)
    {
      var ok := search.Visit(graph[i].id, [], all);
      if !ok {
        TrappedCyclic(e, graph[i].id);
        return Some(i);
      }
      FinishedFree(e, search.order, graph[i].id);
    }
    if Cyclic(e) {
      CyclicTraps(graph);
    }
    return None;
  }

  ghost predicate OnCycle(e: Edges, id: NodeID) { exists p :: Cycle(e, p) && id in p }

  /** A node nobody takes as input, such as a sink, is on no cycle. */
  lemma UntakenOffCycle(e: Edges, id: NodeID)
    requires forall n :: id !in Inputs(e, n)
    ensures !OnCycle(e, id)
  {
    forall p, k | Cycle(e, p) && 0 <= k < |p|
      ensures p[k] != id
    {
      var j := if k == 0 then |p| - 1 else k;
      assert p[j] in Inputs(e, p[j - 1]);
    }
  }

  /** The node reported need not be on a cycle: here it is the first, which only leads into one. */
  lemma ReportedOffCycle(x: NodeID, y: NodeID, graph: seq<SpecNode>)
    requires x != y && graph == [SpecNode(x, [y]), SpecNode(y, [y])]
    ensures Trapped(Collected(graph), x) && !OnCycle(Collected(graph), x)
  {
    var e := Collected(graph);
    var first := graph[..1];
    assert first == [SpecNode(x, [y])] && first[..0] == [];
    assert Collected(first[..0]) == map[];
    assert Collected(first) == With(map[], x, [y]) && e == With(Collected(first), y, [y]);
    assert [] + [y] == [y];
    assert Inputs(e, x) == [y] && Inputs(e, y) == [y] && e.Keys == {x, y};
    assert Lasso(e, x, [x, y, y], 1);
    UntakenOffCycle(e, x);
  }

  /** Every id the graph mentions. */
  ghost function Everyone(graph: seq<SpecNode>): seq<NodeID> {
    if graph == [] then [] else Everyone(graph[..|graph| - 1]) + [graph[|graph| - 1].id] + graph[|graph| - 1].inputs
  }

  lemma {:induction false} EveryoneIn(graph: seq<SpecNode>)
    ensures Within(Collected(graph), Everyone(graph))
    ensures forall i :: 0 <= i < |graph| ==> graph[i].id in Everyone(graph)
  {
    if graph == [] {
    } else {
      EveryoneIn(graph[..|graph| - 1]);
    }
  }
}
