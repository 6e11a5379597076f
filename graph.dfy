/// The topological sort of the older engine. Its `visit` is the same depth-first search as
/// the core one; `topological_sort` then reverses the post-order, so every node comes
/// before the nodes it reads from.
module Graph {
  import opened Wrappers
  import G = CoreGraph

  /// `s` back to front.
  function Reverse(s: seq<nat>): (r: seq<nat>)
    ensures |r| == |s| && forall k :: 0 <= k < |s| ==> r[k] == s[|s| - 1 - k]
  {
    if s == [] then [] else Reverse(s[1..]) + [s[0]]
  }

  /// `topological_sort` with the keys visited in the order `keys`.
  function Sort(g: G.Graph, keys: seq<nat>): (r: Result<seq<nat>, G.GraphError>)
    requires G.IsKeyOrder(g, keys)
    ensures r.Ok? <==> G.Sort(g, keys).Ok?
    ensures r.Ok? ==> var post := G.Sort(g, keys).value;
      |r.value| == |post| && forall k :: 0 <= k < |post| ==> r.value[k] == post[|post| - 1 - k]
  {
    match G.Sort(g, keys)
    case Err(e) => Err(e)
    case Ok(r) => Ok(Reverse(r))
  }

  /// Every node in `r` comes before all of its sources.
  predicate PreOrder(g: G.Graph, r: seq<nat>) {
    forall k, s :: 0 <= k < |r| && s in G.Sources(g, r[k]) ==> s in r[k + 1..]
  }

  /// Reversing a post-order gives an order in which every node precedes its sources, and
  /// keeps the ids distinct and the same.
  lemma ReversePostOrder(g: G.Graph, r: seq<nat>)
    requires G.Distinct(r) && G.PostOrder(g, r)
    ensures G.Distinct(Reverse(r)) && PreOrder(g, Reverse(r))
    ensures forall n :: n in Reverse(r) <==> n in r
  {
    var v := Reverse(r);
    forall n | n in r
      ensures n in v
    {
      var j :| 0 <= j < |r| && r[j] == n;
      assert v[|r| - 1 - j] == n;
    }
    forall k, s | 0 <= k < |v| && s in G.Sources(g, v[k])
      ensures s in v[k + 1..]
    {
      var j := |r| - 1 - k;
      assert v[k] == r[j];
      assert s in r[..j];
      var i :| 0 <= i < j && r[..j][i] == s;
      assert v[|r| - 1 - i] == s;
      assert v[k + 1..][|r| - 1 - i - (k + 1)] == s;
    }
  }

  /// On success every node of the graph is listed once, before all of its sources; the
  /// sort fails exactly when a cycle is reachable from a key.
  lemma SortMeaning(g: G.Graph, keys: seq<nat>)
    requires G.IsKeyOrder(g, keys)
    ensures Sort(g, keys).Ok? ==>
      var r := Sort(g, keys).value;
      G.Distinct(r) && PreOrder(g, r) && (forall n :: n in r <==> n in G.Nodes(g))
    ensures Sort(g, keys).Err? <==> exists p :: G.ReachableCycle(g, p)
  {
    G.ErrorIffCycle(g, keys);
    if G.Sort(g, keys).Ok? {
      G.SortOk(g, keys);
      ReversePostOrder(g, G.Sort(g, keys).value);
    }
  }

  /// `topological_sort`: the core search, then the result reversed in place.
  method TopologicalSort(g: G.Graph, keys: seq<nat>) returns (r: Result<seq<nat>, G.GraphError>)
    requires G.IsKeyOrder(g, keys)
    ensures r == Sort(g, keys)
    ensures r.Ok? ==> G.Distinct(r.value) && PreOrder(g, r.value) && (forall n :: n in r.value <==> n in G.Nodes(g))
    ensures r.Err? <==> exists p :: G.ReachableCycle(g, p)
  {
    var search := new G.Search(g);
    var i := 0;
    while i < |keys|
      invariant 0 <= i <= |keys| && search.graph == g
      invariant G.Sort(g, keys) == G.SortFrom(g, keys, search.State(), i)
    {
      if keys[i] !in search.marks {
        var v := search.VisitNode(keys[i]);
        if v.Err? {
          r := Err(v.error);
          SortMeaning(g, keys);
          return;
        }
      }
      i := i + 1;
    }
    r := Ok(Reverse(search.result));
    SortMeaning(g, keys);
  }

  /// The test graph, with its keys visited in ascending order, sorts to [0, 4, 2, 3, 1].
  lemma TestGraphSorts()
    ensures G.IsKeyOrder(G.TestGraph(), [0, 1, 2, 3, 4])
    ensures Sort(G.TestGraph(), [0, 1, 2, 3, 4]) == Ok([0, 4, 2, 3, 1])
  {
    G.TestGraphSorts();
    var v := Reverse([1, 3, 2, 4, 0]);
    assert v == [0, 4, 2, 3, 1];
  }

  /// The cyclic test graph fails to sort in this engine too, in any key order.
  lemma CyclicGraphFails(keys: seq<nat>)
    requires G.IsKeyOrder(G.CyclicGraph(), keys)
    ensures Sort(G.CyclicGraph(), keys) == Err(G.NoDirectedAcyclicGraph)
  {
    G.CyclicGraphFails(keys);
  }
}
