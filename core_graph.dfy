/// The depth-first topological sort of the core engine: each node lists the nodes it reads
/// from (its sources); `topological_sort` visits the keys in the map's iteration order and
/// pushes every node after all of its sources, failing when it meets a node whose visit is
/// still in progress.
module CoreGraph {
  import opened Wrappers

  /// The source graph: node id to the ids it depends on.
  type Graph = map<nat, seq<nat>>

  /// `Error`.
  datatype GraphError = NoDirectedAcyclicGraph

  /// `Mark`: a visit in progress, or a finished one.
  datatype Mark = Temporary | Permanent

  /// The state `visit` threads through: the marks map and the result vector.
  datatype Dfs = Dfs(marks: map<nat, Mark>, result: seq<nat>)

  /// The sources of `node`; a node that is not a key has none.
  function Sources(g: Graph, node: nat): seq<nat> {
    if node in g then g[node] else []
  }

  /// Every node the sort can meet: the keys and every source they list.
  function Nodes(g: Graph): set<nat> {
    g.Keys + set n, s | n in g && s in g[n] :: s
  }

  /// The sources of a node of the graph are nodes of the graph.
  lemma SourcesAreNodes(g: Graph, node: nat)
    ensures forall s :: s in Sources(g, node) ==> s in Nodes(g)
  {
    if node in g {
      forall s | s in g[node]
        ensures s in Nodes(g)
      {
        assert s in set n, s' | n in g && s' in g[n] :: s';
      }
    }
  }

  /// How many nodes have no mark yet: what the search uses up.
  function Unmarked(g: Graph, marks: map<nat, Mark>): nat {
    |Nodes(g) - marks.Keys|
  }

  /// A subset is no larger than its superset.
  lemma {:induction false} SubsetNoLarger(small: set<nat>, big: set<nat>)
    requires small <= big
    ensures |small| <= |big|
    decreases |small|
  {
    if small != {} {
      var x :| x in small;
      SubsetNoLarger(small - {x}, big - {x});
    }
  }

  /// Marking one more node of the graph leaves fewer nodes unmarked.
  lemma MarkingShrinks(g: Graph, k1: set<nat>, k2: set<nat>, node: nat)
    requires node in Nodes(g) && node !in k1 && k1 + {node} <= k2
    ensures |Nodes(g) - k2| < |Nodes(g) - k1|
  {
    var big := Nodes(g) - k1;
    SubsetNoLarger(Nodes(g) - k2, big - {node});
    assert |big - {node}| == |big| - 1;
  }

  /// Adding marks never leaves more nodes unmarked.
  lemma MarkingNeverGrows(g: Graph, k1: set<nat>, k2: set<nat>)
    requires k1 <= k2
    ensures |Nodes(g) - k2| <= |Nodes(g) - k1|
  {
    SubsetNoLarger(Nodes(g) - k2, Nodes(g) - k1);
  }

  /// `visit`: a finished node is skipped, a node in progress means a cycle, and an unmarked
  /// node is marked in progress, has its sources visited in order, is marked finished and is
  /// pushed to the result. Marks are only ever added.
  function Visit(g: Graph, st: Dfs, node: nat): (r: Result<Dfs, GraphError>)
    requires node in Nodes(g)
    ensures r.Ok? ==> st.marks.Keys <= r.value.marks.Keys
    decreases Unmarked(g, st.marks), 0
  {
    if node in st.marks then
      if st.marks[node] == Permanent then Ok(st) else Err(NoDirectedAcyclicGraph)
    else
      var inProgress := st.(marks := st.marks[node := Temporary]);
      MarkingShrinks(g, st.marks.Keys, inProgress.marks.Keys, node);
      SourcesAreNodes(g, node);
      match VisitList(g, inProgress, Sources(g, node))
      case Err(e) => Err(e)
      case Ok(done) => Ok(Dfs(done.marks[node := Permanent], done.result + [node]))
  }

  /// The `for` loop of `visit` over the sources, returning at the first error.
  function VisitList(g: Graph, st: Dfs, sources: seq<nat>): (r: Result<Dfs, GraphError>)
    requires forall s :: s in sources ==> s in Nodes(g)
    ensures r.Ok? ==> st.marks.Keys <= r.value.marks.Keys
    decreases Unmarked(g, st.marks), 1, |sources|
  {
    if sources == [] then Ok(st)
    else
      match Visit(g, st, sources[0])
      case Err(e) => Err(e)
      case Ok(next) =>
        MarkingNeverGrows(g, st.marks.Keys, next.marks.Keys);
        VisitList(g, next, sources[1..])
  }

  /// `keys` enumerates the keys of the graph in some order: the iteration order of the hash
  /// map, which the source leaves unspecified. Unlike `Routing.IsKeyOrder` it does not ask for
  /// the keys to be distinct: the loop skips a key it has already marked, so a repeated key
  /// changes nothing, and the sort is proved correct without that assumption.
  predicate IsKeyOrder(g: Graph, keys: seq<nat>) {
    (forall k :: 0 <= k < |keys| ==> keys[k] in g) && (forall n :: n in g ==> n in keys)
  }

  /// The loop of `topological_sort` from key `i` on: visit every key not marked yet.
  function SortFrom(g: Graph, keys: seq<nat>, st: Dfs, i: nat): (r: Result<seq<nat>, GraphError>)
    requires IsKeyOrder(g, keys) && i <= |keys|
    ensures (forall k :: i <= k < |keys| ==> keys[k] in st.marks) ==> r == Ok(st.result)
    decreases |keys| - i
  {
    if i == |keys| then Ok(st.result)
    else if keys[i] in st.marks then SortFrom(g, keys, st, i + 1)
    else
      match Visit(g, st, keys[i])
      case Err(e) => Err(e)
      case Ok(next) => SortFrom(g, keys, next, i + 1)
  }

  /// `topological_sort`, visiting the keys in the order `keys`.
  function Sort(g: Graph, keys: seq<nat>): (r: Result<seq<nat>, GraphError>)
    requires IsKeyOrder(g, keys)
    ensures g == map[] ==> r == Ok([])
  {
    SortFrom(g, keys, Dfs(map[], []), 0)
  }

  // ---------------------------------------------------------------------------------------
  // What the search keeps true.

  /// No id occurs twice.
  predicate Distinct(s: seq<nat>) {
    forall a, b :: 0 <= a < b < |s| ==> s[a] != s[b]
  }

  /// Each step of `p` goes from a node to one of its sources.
  predicate IsPath(g: Graph, p: seq<nat>) {
    forall k :: 0 <= k < |p| - 1 ==> p[k + 1] in Sources(g, p[k])
  }

  /// Some node occurs twice on `p`: a path with a repeat closes a cycle.
  predicate HasRepeat(p: seq<nat>) {
    exists a, b :: 0 <= a < b < |p| && p[a] == p[b]
  }

  /// Every node in `r` comes after all of its sources.
  predicate PostOrder(g: Graph, r: seq<nat>) {
    forall k, s :: 0 <= k < |r| && s in Sources(g, r[k]) ==> s in r[..k]
  }

  /// The search invariant, with `stack` the chain of visits in progress: the result lists
  /// the finished nodes once each and in post-order, and the nodes in progress are exactly
  /// those on the stack, which is a path of the graph.
  ghost predicate Inv(g: Graph, st: Dfs, stack: seq<nat>) {
    Distinct(st.result) && PostOrder(g, st.result)
    && (forall k :: 0 <= k < |st.result| ==> st.result[k] in Nodes(g))
    && (forall n :: n in st.result <==> n in st.marks && st.marks[n] == Permanent)
    && (forall n :: n in stack <==> n in st.marks && st.marks[n] == Temporary)
    && IsPath(g, stack)
  }

  /// A failure found from here: a path that continues the stack and repeats a node.
  ghost predicate CycleBelow(g: Graph, stack: seq<nat>) {
    exists p :: IsPath(g, p) && |stack| <= |p| && p[..|stack|] == stack && HasRepeat(p)
  }

  /// `a` is a prefix of `b`: the result only ever grows at its end.
  predicate IsPrefix(a: seq<nat>, b: seq<nat>) {
    |a| <= |b| && b[..|a|] == a
  }

  /// What a prefix holds, the longer sequence holds too.
  lemma InPrefix(a: seq<nat>, b: seq<nat>, x: nat)
    requires IsPrefix(a, b) && x in a
    ensures x in b
  {
  }

  /// Being a prefix is transitive.
  lemma PrefixTrans(a: seq<nat>, b: seq<nat>, c: seq<nat>)
    requires IsPrefix(a, b) && IsPrefix(b, c)
    ensures IsPrefix(a, c)
  {
  }

  /// A path stays a path when cut short.
  lemma PathPrefix(g: Graph, p: seq<nat>, n: nat)
    requires IsPath(g, p) && n <= |p|
    ensures IsPath(g, p[..n])
  {
  }

  /// A path stays a path when extended by a source of its last node.
  lemma PathExtend(g: Graph, p: seq<nat>, node: nat)
    requires IsPath(g, p) && (p != [] ==> node in Sources(g, p[|p| - 1]))
    ensures IsPath(g, p + [node])
  {
  }

  /// Meeting a node whose visit is in progress closes a cycle through the stack.
  lemma InProgressIsCycle(g: Graph, st: Dfs, stack: seq<nat>, node: nat)
    requires Inv(g, st, stack) && node in st.marks && st.marks[node] == Temporary
    requires stack != [] ==> node in Sources(g, stack[|stack| - 1])
    ensures CycleBelow(g, stack + [node])
  {
    var p := stack + [node];
    assert node in stack;
    var a :| 0 <= a < |stack| && stack[a] == node;
    assert p[a] == p[|stack|];
    assert HasRepeat(p);
    PathExtend(g, stack, node);
    assert p[..|stack + [node]|] == p;
  }

  /// Marking an unmarked node in progress pushes it on the stack.
  lemma StartKeeps(g: Graph, st: Dfs, stack: seq<nat>, node: nat)
    requires Inv(g, st, stack) && node in Nodes(g) && node !in st.marks
    requires stack != [] ==> node in Sources(g, stack[|stack| - 1])
    ensures Inv(g, st.(marks := st.marks[node := Temporary]), stack + [node])
    ensures node !in st.result && node !in stack
  {
    PathExtend(g, stack, node);
  }

  /// Finishing the node on top of the stack, once all its sources are finished.
  lemma FinishKeeps(g: Graph, done: Dfs, stack: seq<nat>, node: nat)
    requires Inv(g, done, stack + [node]) && node in Nodes(g) && node !in stack
    requires forall s :: s in Sources(g, node) ==> s in done.result
    ensures Inv(g, Dfs(done.marks[node := Permanent], done.result + [node]), stack)
    ensures IsPrefix(done.result, done.result + [node])
  {
    assert node in stack + [node];
    FinishOrder(g, done.result, node);
    PathPrefix(g, stack + [node], |stack|);
    assert (stack + [node])[..|stack|] == stack;
  }

  /// Appending a node whose sources are all listed keeps a result distinct and post-ordered.
  lemma FinishOrder(g: Graph, result: seq<nat>, node: nat)
    requires Distinct(result) && PostOrder(g, result) && node !in result
    requires forall s :: s in Sources(g, node) ==> s in result
    ensures Distinct(result + [node]) && PostOrder(g, result + [node])
    ensures IsPrefix(result, result + [node])
  {
    var r := result + [node];
    forall k, s | 0 <= k < |r| && s in Sources(g, r[k])
      ensures s in r[..k]
    {
      if k < |result| {
        assert r[..k] == result[..k];
      } else {
        assert r[..k] == result;
      }
    }
    assert r[..|result|] == result;
  }

  /// Visiting `node`, reached from the top of the stack, keeps the invariant, finishes the
  /// node, and only appends to the result; a failure exhibits a cycle through the stack.
  lemma {:induction false} VisitKeeps(g: Graph, st: Dfs, stack: seq<nat>, node: nat)
    requires Inv(g, st, stack) && node in Nodes(g)
    requires stack != [] ==> node in Sources(g, stack[|stack| - 1])
    ensures match Visit(g, st, node)
            case Ok(next) => Inv(g, next, stack) && node in next.result && IsPrefix(st.result, next.result)
            case Err(_) => CycleBelow(g, stack + [node])
    decreases Unmarked(g, st.marks), 0, 1, 0
  {
    if node !in st.marks {
      VisitUnmarkedKeeps(g, st, stack, node);
    } else if st.marks[node] == Temporary {
      InProgressIsCycle(g, st, stack, node);
    } else {
      assert st.result[..|st.result|] == st.result;
    }
  }

  /// `VisitKeeps` for a node not marked yet: its sources are visited with the node on the
  /// stack, then it is finished.
  lemma {:induction false} VisitUnmarkedKeeps(g: Graph, st: Dfs, stack: seq<nat>, node: nat)
    requires Inv(g, st, stack) && node in Nodes(g) && node !in st.marks
    requires stack != [] ==> node in Sources(g, stack[|stack| - 1])
    ensures match Visit(g, st, node)
            case Ok(next) => Inv(g, next, stack) && node in next.result && IsPrefix(st.result, next.result)
            case Err(_) => CycleBelow(g, stack + [node])
    decreases Unmarked(g, st.marks), 0, 0, 0
  {
    var inProgress := st.(marks := st.marks[node := Temporary]);
    MarkingShrinks(g, st.marks.Keys, inProgress.marks.Keys, node);
    SourcesAreNodes(g, node);
    StartKeeps(g, st, stack, node);
    VisitListKeeps(g, inProgress, stack + [node], Sources(g, node));
    var visited := VisitList(g, inProgress, Sources(g, node));
    if visited.Ok? {
      var done := visited.value;
      FinishKeeps(g, done, stack, node);
      PrefixTrans(st.result, done.result, done.result + [node]);
      assert Visit(g, st, node) == Ok(Dfs(done.marks[node := Permanent], done.result + [node]));
    } else {
      assert Visit(g, st, node).Err?;
    }
  }

  /// Visiting a list of sources of the node on top of the stack.
  lemma {:induction false} VisitListKeeps(g: Graph, st: Dfs, stack: seq<nat>, sources: seq<nat>)
    requires Inv(g, st, stack) && stack != []
    requires forall s :: s in sources ==> s in Sources(g, stack[|stack| - 1])
    requires forall s :: s in sources ==> s in Nodes(g)
    ensures match VisitList(g, st, sources)
            case Ok(next) =>
              Inv(g, next, stack) && (forall s :: s in sources ==> s in next.result)
              && IsPrefix(st.result, next.result)
            case Err(_) => CycleBelow(g, stack)
    decreases Unmarked(g, st.marks), 1, |sources|, 1
  {
    if sources == [] {
      assert st.result[..|st.result|] == st.result;
    } else {
      assert sources[0] in sources;
      VisitKeeps(g, st, stack, sources[0]);
      match Visit(g, st, sources[0])
      case Err(_) =>
        var p :| IsPath(g, p) && |stack + [sources[0]]| <= |p| && p[..|stack + [sources[0]]|] == stack + [sources[0]] && HasRepeat(p);
        assert p[..|stack|] == (stack + [sources[0]])[..|stack|] == stack;
      case Ok(next) =>
        VisitListRestKeeps(g, st, next, stack, sources);
    }
  }

  /// `VisitListKeeps` once the first source is visited: the rest of the list is visited
  /// from the state that visit left.
  lemma {:induction false} VisitListRestKeeps(g: Graph, st: Dfs, next: Dfs, stack: seq<nat>, sources: seq<nat>)
    requires stack != [] && sources != []
    requires forall s :: s in sources ==> s in Sources(g, stack[|stack| - 1])
    requires forall s :: s in sources ==> s in Nodes(g)
    requires Visit(g, st, sources[0]) == Ok(next)
    requires Inv(g, next, stack) && sources[0] in next.result && IsPrefix(st.result, next.result)
    ensures match VisitList(g, st, sources)
            case Ok(last) =>
              Inv(g, last, stack) && (forall s :: s in sources ==> s in last.result)
              && IsPrefix(st.result, last.result)
            case Err(_) => CycleBelow(g, stack)
    decreases Unmarked(g, st.marks), 1, |sources|, 0
  {
    MarkingNeverGrows(g, st.marks.Keys, next.marks.Keys);
    assert forall s :: s in sources[1..] ==> s in sources;
    VisitListKeeps(g, next, stack, sources[1..]);
    match VisitList(g, next, sources[1..])
    case Err(_) =>
    case Ok(last) =>
      PrefixTrans(st.result, next.result, last.result);
      InPrefix(next.result, last.result, sources[0]);
      assert forall s :: s in sources ==> s == sources[0] || s in sources[1..];
  }

  /// A path from a key that runs into a repeated node: a cycle reachable from a key.
  predicate ReachableCycle(g: Graph, p: seq<nat>) {
    |p| > 0 && p[0] in g && IsPath(g, p) && HasRepeat(p)
  }

  /// What a successful sort delivers: distinct nodes of the graph in post-order, every key
  /// among them.
  predicate SortedAll(g: Graph, keys: seq<nat>, r: seq<nat>) {
    Distinct(r) && PostOrder(g, r) && (forall k :: 0 <= k < |r| ==> r[k] in Nodes(g))
    && forall k :: 0 <= k < |keys| ==> keys[k] in r
  }

  /// The loop of `topological_sort` keeps the invariant with nothing in progress; it fails
  /// only when some key reaches a cycle, and otherwise returns every key.
  lemma {:induction false} SortFromKeeps(g: Graph, keys: seq<nat>, st: Dfs, i: nat)
    requires IsKeyOrder(g, keys) && i <= |keys| && Inv(g, st, [])
    requires forall k :: 0 <= k < i ==> keys[k] in st.result
    ensures SortFrom(g, keys, st, i).Ok? ==> SortedAll(g, keys, SortFrom(g, keys, st, i).value)
    ensures SortFrom(g, keys, st, i).Err? ==> exists p :: ReachableCycle(g, p)
    decreases |keys| - i, 1
  {
    if i == |keys| {
    } else if keys[i] in st.marks {
      assert keys[i] in st.result;
      SortFromKeeps(g, keys, st, i + 1);
    } else {
      SortFromVisit(g, keys, st, i);
    }
  }

  /// `SortFromKeeps` at a key not marked yet: the key is visited, then the loop goes on.
  lemma {:induction false} SortFromVisit(g: Graph, keys: seq<nat>, st: Dfs, i: nat)
    requires IsKeyOrder(g, keys) && i < |keys| && Inv(g, st, []) && keys[i] !in st.marks
    requires forall k :: 0 <= k < i ==> keys[k] in st.result
    ensures SortFrom(g, keys, st, i).Ok? ==> SortedAll(g, keys, SortFrom(g, keys, st, i).value)
    ensures SortFrom(g, keys, st, i).Err? ==> exists p :: ReachableCycle(g, p)
    decreases |keys| - i, 0
  {
    assert keys[i] in Nodes(g);
    VisitKeeps(g, st, [], keys[i]);
    match Visit(g, st, keys[i])
    case Err(_) =>
      assert [] + [keys[i]] == [keys[i]];
      RootCycle(g, keys[i]);
    case Ok(next) =>
      KeysSoFar(keys, i, st.result, next.result);
      SortFromKeeps(g, keys, next, i + 1);
  }

  /// A cycle below a key of the graph is a cycle reachable from it.
  lemma RootCycle(g: Graph, node: nat)
    requires node in g && CycleBelow(g, [node])
    ensures exists p :: ReachableCycle(g, p)
  {
    var p :| IsPath(g, p) && 1 <= |p| && p[..1] == [node] && HasRepeat(p);
    assert p[0] == p[..1][0];
    assert ReachableCycle(g, p);
  }

  /// The keys found before a visit are still found after it, and so is the visited key.
  lemma KeysSoFar(keys: seq<nat>, i: nat, before: seq<nat>, after: seq<nat>)
    requires i < |keys| && IsPrefix(before, after) && keys[i] in after
    requires forall k :: 0 <= k < i ==> keys[k] in before
    ensures forall k :: 0 <= k < i + 1 ==> keys[k] in after
  {
    forall k | 0 <= k < i + 1
      ensures keys[k] in after
    {
      if k < i {
        InPrefix(before, after, keys[k]);
      }
    }
  }

  /// On success the sort lists every node of the graph (every key and every source) exactly
  /// once, each after all of its sources.
  lemma SortOk(g: Graph, keys: seq<nat>)
    requires IsKeyOrder(g, keys) && Sort(g, keys).Ok?
    ensures var r := Sort(g, keys).value;
      Distinct(r) && PostOrder(g, r) && (forall n :: n in r <==> n in Nodes(g))
  {
    SortFromKeeps(g, keys, Dfs(map[], []), 0);
    var r := Sort(g, keys).value;
    forall n | n in Nodes(g)
      ensures n in r
    {
      if n in g {
        assert n in keys;
        var k :| 0 <= k < |keys| && keys[k] == n;
      } else {
        assert n in set m, s | m in g && s in g[m] :: s;
        var m :| m in g && n in g[m];
        assert m in keys;
        var k :| 0 <= k < |keys| && keys[k] == m;
        var j :| 0 <= j < |r| && r[j] == m;
        assert n in Sources(g, r[j]);
        assert n in r[..j];
      }
    }
  }

  /// The position of `x` in `r`.
  function IndexOf(r: seq<nat>, x: nat): (k: nat)
    requires x in r
    ensures k < |r| && r[k] == x && x !in r[..k]
  {
    if r[0] == x then 0 else assert r[1..][..IndexOf(r[1..], x)] == r[..IndexOf(r[1..], x) + 1][1..]; 1 + IndexOf(r[1..], x)
  }

  /// Along a path inside a post-ordered result, every step moves strictly earlier.
  lemma {:induction false} PathMovesEarlier(g: Graph, r: seq<nat>, p: seq<nat>, a: nat, b: nat)
    requires Distinct(r) && PostOrder(g, r) && IsPath(g, p) && |p| > 0 && p[0] in r
    requires a < b < |p|
    ensures p[a] in r && p[b] in r && IndexOf(r, p[b]) < IndexOf(r, p[a])
    decreases b - a
  {
    PathInResult(g, r, p, b);
    PathInResult(g, r, p, a);
    PathInResult(g, r, p, b - 1);
    var k := IndexOf(r, p[b - 1]);
    assert p[b] in Sources(g, r[k]);
    assert p[b] in r[..k];
    var j :| 0 <= j < k && r[..k][j] == p[b];
    assert IndexOf(r, p[b]) == j;
    if a < b - 1 {
      PathMovesEarlier(g, r, p, a, b - 1);
    }
  }

  /// A path that starts inside a post-ordered result stays inside it.
  lemma {:induction false} PathInResult(g: Graph, r: seq<nat>, p: seq<nat>, b: nat)
    requires PostOrder(g, r) && IsPath(g, p) && |p| > 0 && p[0] in r && b < |p|
    ensures p[b] in r
    decreases b
  {
    if b > 0 {
      PathInResult(g, r, p, b - 1);
      var k :| 0 <= k < |r| && r[k] == p[b - 1];
      assert p[b] in r[..k];
    }
  }

  /// A cycle reachable from a key makes the sort fail, whatever order the keys are visited
  /// in; and a failure always comes from such a cycle.
  lemma ErrorIffCycle(g: Graph, keys: seq<nat>)
    requires IsKeyOrder(g, keys)
    ensures Sort(g, keys).Err? <==> exists p :: ReachableCycle(g, p)
  {
    SortFromKeeps(g, keys, Dfs(map[], []), 0);
    if Sort(g, keys).Err? {
    } else {
      if p :| ReachableCycle(g, p) {
        SortOk(g, keys);
        var r := Sort(g, keys).value;
        var a, b :| 0 <= a < b < |p| && p[a] == p[b];
        PathMovesEarlier(g, r, p, a, b);
      }
    }
  }

  /// Along a path of a graph ranked so that every source sits below the node that reads it,
  /// the rank falls at every step.
  lemma {:induction false} RankFalls(g: Graph, rank: nat -> nat, p: seq<nat>, a: nat, b: nat)
    requires forall n, s :: n in g && s in g[n] ==> rank(s) < rank(n)
    requires IsPath(g, p) && a < b < |p|
    ensures rank(p[b]) < rank(p[a])
    decreases b - a
  {
    assert p[b] in Sources(g, p[b - 1]);
    if a < b - 1 {
      RankFalls(g, rank, p, a, b - 1);
    }
  }

  /// Such a ranked graph has no cycle, so its sort never fails.
  lemma RankedIsAcyclic(g: Graph, rank: nat -> nat)
    requires forall n, s :: n in g && s in g[n] ==> rank(s) < rank(n)
    ensures forall p :: !ReachableCycle(g, p)
  {
    forall p | ReachableCycle(g, p)
      ensures false
    {
      var a, b :| 0 <= a < b < |p| && p[a] == p[b];
      RankFalls(g, rank, p, a, b);
    }
  }

  // ---------------------------------------------------------------------------------------
  // The search as the source runs it: `visit` updates the marks map and the result vector
  // in place, and `topological_sort` drives it from a loop over the keys.

  class Search {
    const graph: Graph
    var marks: map<nat, Mark>
    var result: seq<nat>

    ghost function State(): Dfs
      reads this
    {
      Dfs(marks, result)
    }

    /// The empty marks map and result vector of `topological_sort`.
    constructor (g: Graph)
      ensures graph == g && State() == Dfs(map[], [])
    {
      graph := g;
      marks := map[];
      result := [];
    }

    /// `visit`: on success the marks and result are those of `Visit`; on failure the caller
    /// drops them.
    method VisitNode(node: nat) returns (r: Result<(), GraphError>)
      requires node in Nodes(graph)
      modifies this
      ensures match Visit(graph, old(State()), node)
              case Ok(st) => r == Ok(()) && State() == st
              case Err(e) => r == Err(e)
      decreases Unmarked(graph, marks), 0
    {
      if node in marks {
        if marks[node] == Permanent {
          return Ok(());
        }
        return Err(NoDirectedAcyclicGraph);
      }
      ghost var st0 := State();
      marks := marks[node := Temporary];
      ghost var inProgress := State();
      SourcesAreNodes(graph, node);
      var sources := Sources(graph, node);
      var i := 0;
      while i < |sources|
        invariant 0 <= i <= |sources|
        invariant st0.marks.Keys + {node} <= marks.Keys
        invariant VisitList(graph, inProgress, sources) == VisitList(graph, State(), sources[i..])
      {
        MarkingShrinks(graph, st0.marks.Keys, marks.Keys, node);
        assert sources[i..][1..] == sources[i + 1..];
        var v := VisitNode(sources[i]);
        if v.Err? {
          return v;
        }
        i := i + 1;
      }
      marks := marks[node := Permanent];
      result := result + [node];
      return Ok(());
    }
  }

  /// `topological_sort` with the keys visited in the order `keys`: on success every node of
  /// the graph, once each, after all of its sources; a failure exactly when a cycle is
  /// reachable from a key.
  method TopologicalSort(g: Graph, keys: seq<nat>) returns (r: Result<seq<nat>, GraphError>)
    requires IsKeyOrder(g, keys)
    ensures r == Sort(g, keys)
    ensures r.Ok? ==> Distinct(r.value) && PostOrder(g, r.value) && (forall n :: n in r.value <==> n in Nodes(g))
    ensures r.Err? <==> exists p :: ReachableCycle(g, p)
  {
    var search := new Search(g);
    var i := 0;
    while i < |keys|
      invariant 0 <= i <= |keys| && search.graph == g
      invariant Sort(g, keys) == SortFrom(g, keys, search.State(), i)
    {
      if keys[i] !in search.marks {
        var v := search.VisitNode(keys[i]);
        if v.Err? {
          r := Err(v.error);
          ErrorIffCycle(g, keys);
          return;
        }
      }
      i := i + 1;
    }
    r := Ok(search.result);
    ErrorIffCycle(g, keys);
    SortOk(g, keys);
  }

  // ---------------------------------------------------------------------------------------
  // The tests.

  /// The test graph: 0 reads 2, 4 and 1; 2 reads 3; 3 reads 1; 4 reads 2.
  function TestGraph(): Graph {
    map[0 := [2, 4, 1], 1 := [], 2 := [3], 3 := [1], 4 := [2]]
  }

  /// Visiting a node with no sources that is not marked yet finishes it at once.
  lemma VisitLeaf(g: Graph, st: Dfs, node: nat)
    requires node in Nodes(g) && node !in st.marks && Sources(g, node) == []
    ensures Visit(g, st, node) == Ok(Dfs(st.marks[node := Permanent], st.result + [node]))
  {
    assert st.marks[node := Temporary][node := Permanent] == st.marks[node := Permanent];
  }

  /// Visiting a node whose sources' visits, in order, go from `st` with the node in progress
  /// to `done`.
  lemma VisitInner(g: Graph, st: Dfs, node: nat, done: Dfs)
    requires node in Nodes(g) && node !in st.marks
    requires forall s :: s in Sources(g, node) ==> s in Nodes(g)
    requires VisitList(g, st.(marks := st.marks[node := Temporary]), Sources(g, node)) == Ok(done)
    ensures Visit(g, st, node) == Ok(Dfs(done.marks[node := Permanent], done.result + [node]))
  {
  }

  /// Visiting a list whose first source visits successfully goes on with the rest.
  lemma VisitListStep(g: Graph, st: Dfs, sources: seq<nat>, next: Dfs)
    requires sources != [] && forall s :: s in sources ==> s in Nodes(g)
    requires Visit(g, st, sources[0]) == Ok(next)
    ensures VisitList(g, st, sources) == VisitList(g, next, sources[1..])
  {
  }

  /// The first source of key 0 in the test graph: 2 reads 3, which reads 1, so 1, 3 and 2
  /// are finished in that order.
  lemma TestGraphVisitsTwo()
    ensures 2 in Nodes(TestGraph())
    ensures Visit(TestGraph(), Dfs(map[0 := Temporary], []), 2)
      == Ok(Dfs(map[0 := Temporary][2 := Temporary][3 := Temporary][1 := Permanent][3 := Permanent][2 := Permanent], [1, 3, 2]))
  {
    var g := TestGraph();
    assert Sources(g, 1) == [] && Sources(g, 2) == [3] && Sources(g, 3) == [1];
    assert 1 in Nodes(g) && 2 in Nodes(g) && 3 in Nodes(g);
    var m0 := map[0 := Temporary];
    var m2 := m0[2 := Temporary];
    var m3 := m2[3 := Temporary];
    VisitLeaf(g, Dfs(m3, []), 1);
    var after1 := Dfs(m3[1 := Permanent], [1]);
    assert [] + [1] == [1];
    VisitListStep(g, Dfs(m3, []), [1], after1);
    assert [1][1..] == [];
    VisitInner(g, Dfs(m2, []), 3, after1);
    var after3 := Dfs(after1.marks[3 := Permanent], [1, 3]);
    assert [1] + [3] == [1, 3];
    VisitListStep(g, Dfs(m2, []), [3], after3);
    assert [3][1..] == [];
    VisitInner(g, Dfs(m0, []), 2, after3);
    assert [1, 3] + [2] == [1, 3, 2];
  }

  /// The visit of key 0 in the test graph: after 2 (and with it 3 and 1), 4 is finished
  /// (its source 2 already is), then 0.
  lemma TestGraphVisitsZero()
    ensures 0 in Nodes(TestGraph())
    ensures Visit(TestGraph(), Dfs(map[], []), 0)
      == Ok(Dfs(map[0 := Permanent, 1 := Permanent, 2 := Permanent, 3 := Permanent, 4 := Permanent], [1, 3, 2, 4, 0]))
  {
    var g := TestGraph();
    assert Sources(g, 0) == [2, 4, 1] && Sources(g, 4) == [2];
    assert 0 in Nodes(g) && 1 in Nodes(g) && 2 in Nodes(g) && 4 in Nodes(g);
    var m0 := map[0 := Temporary];
    TestGraphVisitsTwo();
    var after2 := Dfs(m0[2 := Temporary][3 := Temporary][1 := Permanent][3 := Permanent][2 := Permanent], [1, 3, 2]);
    var visiting4 := after2.(marks := after2.marks[4 := Temporary]);
    assert Visit(g, visiting4, 2) == Ok(visiting4);
    VisitListStep(g, visiting4, [2], visiting4);
    assert [2][1..] == [];
    VisitInner(g, after2, 4, visiting4);
    var after4 := Dfs(visiting4.marks[4 := Permanent], [1, 3, 2, 4]);
    assert [1, 3, 2] + [4] == [1, 3, 2, 4];
    assert Visit(g, after4, 1) == Ok(after4);
    VisitListStep(g, after4, [1], after4);
    assert [1][1..] == [];
    VisitListStep(g, after2, [4, 1], after4);
    assert [4, 1][1..] == [1];
    VisitListStep(g, Dfs(m0, []), [2, 4, 1], after2);
    assert [2, 4, 1][1..] == [4, 1];
    VisitInner(g, Dfs(map[], []), 0, after4);
    assert [1, 3, 2, 4] + [0] == [1, 3, 2, 4, 0];
    assert after4.marks[0 := Permanent]
      == map[0 := Permanent, 1 := Permanent, 2 := Permanent, 3 := Permanent, 4 := Permanent];
  }

  /// With the keys visited in ascending order, the test graph sorts to [1, 3, 2, 4, 0].
  lemma TestGraphSorts()
    ensures IsKeyOrder(TestGraph(), [0, 1, 2, 3, 4])
    ensures Sort(TestGraph(), [0, 1, 2, 3, 4]) == Ok([1, 3, 2, 4, 0])
  {
    var g := TestGraph();
    var keys := [0, 1, 2, 3, 4];
    assert IsKeyOrder(g, keys);
    TestGraphVisitsZero();
    var done := Dfs(map[0 := Permanent, 1 := Permanent, 2 := Permanent, 3 := Permanent, 4 := Permanent], [1, 3, 2, 4, 0]);
    assert SortFrom(g, keys, done, 1) == Ok([1, 3, 2, 4, 0]);
  }

  /// The cyclic test graph: as the test graph, but 3 also reads 4.
  function CyclicGraph(): Graph {
    map[0 := [2, 4, 1], 1 := [], 2 := [3], 3 := [1, 4], 4 := [2]]
  }

  /// The cyclic test graph fails to sort, in any key order: 0 reaches the cycle 2, 3, 4.
  lemma CyclicGraphFails(keys: seq<nat>)
    requires IsKeyOrder(CyclicGraph(), keys)
    ensures Sort(CyclicGraph(), keys) == Err(NoDirectedAcyclicGraph)
  {
    var g := CyclicGraph();
    var p := [0, 2, 3, 4, 2];
    assert Sources(g, 0) == [2, 4, 1] && Sources(g, 2) == [3] && Sources(g, 3) == [1, 4] && Sources(g, 4) == [2];
    assert p[1] == p[4];
    assert ReachableCycle(g, p);
    ErrorIffCycle(g, keys);
    var r := Sort(g, keys);
    assert r == Err(r.error);
    assert r.error == NoDirectedAcyclicGraph;
  }
}
