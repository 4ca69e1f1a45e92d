/** The agent fleet's impact analysis: managed dependency paths, found breadth first on any finite graph. */
module Paths {
  import opened Common

  type Graph = map<string, seq<string>>

  /** A catalogue dependency; only an explicit `managed: true` counts. */
  datatype Edge = Edge(source: string, target: string, managed: Option<bool>)

  function Children(g: Graph, node: string): seq<string> {
    if node in g then g[node] else []
  }

  function ManagedTargets(edges: seq<Edge>, node: string): seq<string> {
    if edges == [] then []
    else
      var before, e := ManagedTargets(edges[..|edges| - 1], node), edges[|edges| - 1];
      if e.managed == Some(true) && e.source == node then before + [e.target] else before
  }

  /** The adjacency lists: managed targets in catalogue order. */
  method BuildGraph(edges: seq<Edge>) returns (g: Graph)
    ensures forall node :: Children(g, node) == ManagedTargets(edges, node)
  {
    g := map[];
    var i := 0;
    while i < |edges|
      invariant 0 <= i <= |edges|
      invariant forall node :: Children(g, node) == ManagedTargets(edges[..i], node)
    {
      assert edges[..i + 1][..i] == edges[..i];
      var e := edges[i];
      if e.managed == Some(true) { g := g[e.source := Children(g, e.source) + [e.target]]; }
      i := i + 1;
    }
    assert edges[..|edges|] == edges;
  }

  // ---------------------------------------------------------------- simple paths

  predicate IsWalk(g: Graph, p: seq<string>) {
    p != [] && forall k | 0 < k < |p| :: p[k] in Children(g, p[k - 1])
  }

  predicate Simple(p: seq<string>) {
    forall i, j | 0 <= i < j < |p| :: p[i] != p[j]
  }

  predicate IsPath(g: Graph, p: seq<string>) {
    IsWalk(g, p) && Simple(p)
  }

  /** At least two nodes, ending where no managed edge leaves. */
  predicate Complete(g: Graph, p: seq<string>) {
    IsPath(g, p) && |p| > 1 && Children(g, p[|p| - 1]) == []
  }

  function Nodes(g: Graph): set<string> {
    g.Keys + set n <- g, c <- g[n] :: c
  }

  lemma {:induction false} DistinctFit(p: seq<string>, nodes: set<string>)
    requires Simple(p) && forall n <- p :: n in nodes
    ensures |p| <= |nodes|
  {
    if p != [] {
      var init, last := p[..|p| - 1], p[|p| - 1];
      forall n | n in init ensures n in nodes - {last} {
        var i :| 0 <= i < |init| && init[i] == n;
        assert p[i] == n;
      }
      DistinctFit(init, nodes - {last});
    }
  }

  /** A simple path visits each target of the graph at most once. */
  lemma PathsAreBounded(g: Graph, p: seq<string>)
    requires IsPath(g, p)
    ensures |p| <= |Nodes(g)| + 1
  {
    var tail := p[1..];
    forall n | n in tail ensures n in Nodes(g) {
      var k :| 0 <= k < |tail| && tail[k] == n;
      assert p[k + 1] in Children(g, p[k]);
    }
    DistinctFit(tail, Nodes(g));
  }

  // ---------------------------------------------------------------- the tree of extensions

  function Last(p: seq<string>): string
    requires p != []
  {
    p[|p| - 1]
  }

  /** Every simple path that extends `p`, `p` first. */
  ghost function Tree(g: Graph, p: seq<string>): seq<seq<string>>
    requires IsPath(g, p)
    decreases |Nodes(g)| + 1 - |p|, |Children(g, Last(p))| + 1
  {
    PathsAreBounded(g, p);
    [p] + Branches(g, p, 0)
  }

  /** The trees of the extensions of `p` by its children from the `k`-th on, in order. */
  ghost function Branches(g: Graph, p: seq<string>, k: nat): seq<seq<string>>
    requires IsPath(g, p) && k <= |Children(g, Last(p))|
    decreases |Nodes(g)| + 1 - |p|, |Children(g, Last(p))| - k
  {
    var cs := Children(g, Last(p));
    if k == |cs| then []
    else
      Extends(g, p, cs[k]);
      (if cs[k] in p then [] else Tree(g, p + [cs[k]])) + Branches(g, p, k + 1)
  }

  lemma Extends(g: Graph, p: seq<string>, c: string)
    requires IsPath(g, p) && c in Children(g, Last(p))
    ensures c !in p ==> IsPath(g, p + [c]) && |p| + 1 <= |Nodes(g)| + 1
  {
    if c !in p {
      var q := p + [c];
      forall k | 0 < k < |q| ensures q[k] in Children(g, q[k - 1]) {
        if k < |p| { assert q[k] == p[k] && q[k - 1] == p[k - 1]; }
      }
      PathsAreBounded(g, q);
    }
  }

  /** The tree holds exactly the simple paths that start with `p`. */
  lemma {:induction false} TreeHasExtensions(g: Graph, p: seq<string>, q: seq<string>)
    requires IsPath(g, p)
    ensures q in Tree(g, p) <==> p <= q && IsPath(g, q)
    decreases |Nodes(g)| + 1 - |p|, |Children(g, Last(p))| + 1
  {
    PathsAreBounded(g, p);
    BranchesHaveExtensions(g, p, 0, q);
    assert Children(g, Last(p))[0..] == Children(g, Last(p));
    if p < q && IsPath(g, q) {
      assert q[|p|] in Children(g, q[|p| - 1]);
    }
    assert Tree(g, p)[0] == p;
    assert p <= q && !(p < q) ==> p == q;
  }

  lemma {:induction false} BranchesHaveExtensions(g: Graph, p: seq<string>, k: nat, q: seq<string>)
    requires IsPath(g, p) && k <= |Children(g, Last(p))|
    ensures q in Branches(g, p, k) <==> p < q && IsPath(g, q) && q[|p|] in Children(g, Last(p))[k..]
    decreases |Nodes(g)| + 1 - |p|, |Children(g, Last(p))| - k
  {
    hide Tree;
    var cs := Children(g, Last(p));
    if k < |cs| {
      Extends(g, p, cs[k]);
      BranchesHaveExtensions(g, p, k + 1, q);
      assert cs[k..] == [cs[k]] + cs[k + 1..];
      assert p < q ==> (p + [cs[k]] <= q <==> q[|p|] == cs[k]);
      if cs[k] in p { if p < q && IsPath(g, q) { NoReturn(g, p, q); } } else { TreeHasExtensions(g, p + [cs[k]], q); }
    }
  }

  lemma NoReturn(g: Graph, p: seq<string>, q: seq<string>)
    requires p < q && IsPath(g, q)
    ensures q[|p|] !in p
  {
  }

  predicate AllPaths(g: Graph, queue: seq<seq<string>>) {
    forall p <- queue :: IsPath(g, p)
  }

  /** The trees of all queued paths. */
  ghost function Forest(g: Graph, queue: seq<seq<string>>): seq<seq<string>>
    requires AllPaths(g, queue)
  {
    if queue == [] then [] else Tree(g, queue[0]) + Forest(g, queue[1..])
  }

  lemma {:induction false} ForestAppend(g: Graph, queue: seq<seq<string>>, p: seq<string>)
    requires AllPaths(g, queue) && IsPath(g, p)
    ensures AllPaths(g, queue + [p])
    ensures Forest(g, queue + [p]) == Forest(g, queue) + Tree(g, p)
  {
    if queue == [] {
      assert ([] + [p])[1..] == [];
      assert Forest(g, [p]) == Tree(g, p) + Forest(g, []);
    } else {
      ForestAppend(g, queue[1..], p);
      assert (queue + [p])[1..] == queue[1..] + [p];
    }
  }

  // ---------------------------------------------------------------- breadth first

  /** The complete ones among the paths taken from the queue. */
  function Completed(g: Graph, visited: seq<seq<string>>): seq<seq<string>> {
    if visited == [] then []
    else
      var before, p := Completed(g, visited[..|visited| - 1]), visited[|visited| - 1];
      if Complete(g, p) then before + [p] else before
  }

  predicate ByLength(paths: seq<seq<string>>) {
    forall i, j | 0 <= i < j < |paths| :: |paths[i]| <= |paths[j]|
  }

  /** Ordered by length, and no shorter than `n` nor longer than `n + 1`. */
  predicate Within(queue: seq<seq<string>>, n: nat) {
    ByLength(queue) && forall p <- queue :: n <= |p| <= n + 1
  }

  /** Nothing taken is longer than anything queued. */
  predicate Precedes(visited: seq<seq<string>>, queue: seq<seq<string>>) {
    forall v <- visited, p <- queue :: |v| <= |p|
  }

  lemma Pop(g: Graph, queue: seq<seq<string>>)
    requires queue != [] && AllPaths(g, queue) && Within(queue, |queue[0]|)
    ensures queue[0] != [] && IsPath(g, queue[0]) && AllPaths(g, queue[1..]) && Within(queue[1..], |queue[0]|)
    ensures Forest(g, queue) == [queue[0]] + Branches(g, queue[0], 0) + Forest(g, queue[1..])
  {
    hide Branches;
    assert queue[0] in queue;
    assert IsPath(g, queue[0]);
    hide IsPath;
    TailKeeps(g, queue);
    assert Forest(g, queue) == Tree(g, queue[0]) + Forest(g, queue[1..]);
  }

  lemma TailKeeps(g: Graph, queue: seq<seq<string>>)
    requires queue != [] && AllPaths(g, queue) && Within(queue, |queue[0]|)
    ensures AllPaths(g, queue[1..]) && Within(queue[1..], |queue[0]|)
  {
    hide IsPath;
    forall p | p in queue[1..] ensures p in queue {
    }
  }

  lemma Visit(visited: seq<seq<string>>, queue: seq<seq<string>>, longer: seq<seq<string>>)
    requires queue != [] && ByLength(visited) && Precedes(visited, queue) && Within(longer, |queue[0]|)
    ensures ByLength(visited + [queue[0]]) && Precedes(visited + [queue[0]], longer)
    ensures longer != [] ==> Within(longer, |longer[0]|)
  {
    assert queue[0] in queue;
  }

  lemma Push(g: Graph, queue: seq<seq<string>>, path: seq<string>, k: nat)
    requires path != [] && IsPath(g, path) && AllPaths(g, queue) && Within(queue, |path|) && k < |Children(g, Last(path))|
    ensures var child := Children(g, Last(path))[k];
            var longer := if child in path then queue else queue + [path + [child]];
            && AllPaths(g, longer) && Within(longer, |path|)
            && multiset(Forest(g, longer)) + multiset(Branches(g, path, k + 1)) == multiset(Forest(g, queue)) + multiset(Branches(g, path, k))
            && |Forest(g, longer)| + |Branches(g, path, k + 1)| == |Forest(g, queue)| + |Branches(g, path, k)|
  {
    hide IsPath, Tree;
    var child := Children(g, Last(path))[k];
    Extends(g, path, child);
    if child !in path { ForestAppend(g, queue, path + [child]); }
  }

  /** The inner loop: one longer path for each child not yet on this one. */
  method Enqueue(g: Graph, path: seq<string>, queue: seq<seq<string>>) returns (longer: seq<seq<string>>)
    requires path != [] && IsPath(g, path) && AllPaths(g, queue) && Within(queue, |path|)
    ensures AllPaths(g, longer) && Within(longer, |path|)
    ensures multiset(Forest(g, longer)) == multiset(Forest(g, queue)) + multiset(Branches(g, path, 0))
    ensures |Forest(g, longer)| == |Forest(g, queue)| + |Branches(g, path, 0)|
  {
    hide Tree, Forest, IsWalk, Simple, AllPaths, Within;
    var children, k := Children(g, Last(path)), 0;
    longer := queue;
    while k < |children|
      invariant 0 <= k <= |children| && AllPaths(g, longer) && Within(longer, |path|)
      invariant multiset(Forest(g, longer)) + multiset(Branches(g, path, k)) == multiset(Forest(g, queue)) + multiset(Branches(g, path, 0))
      invariant |Forest(g, longer)| + |Branches(g, path, k)| == |Forest(g, queue)| + |Branches(g, path, 0)|
    {
      Push(g, longer, path, k);
      if children[k] !in path { longer := longer + [path + [children[k]]]; }
      k := k + 1;
    }
    assert Branches(g, path, k) == [];
  }

  /** `_dependency_paths`: `visited` is every simple path from the source, in the order taken from the queue. */
  method DependencyPaths(source: string, g: Graph) returns (paths: seq<seq<string>>, ghost visited: seq<seq<string>>)
    ensures paths == Completed(g, visited)
    ensures multiset(visited) == multiset(Tree(g, [source])) && ByLength(visited)
    ensures forall q :: q in paths <==> Complete(g, q) && q[0] == source
    ensures ByLength(paths)
    ensures NoRepeats(g) ==> forall q :: multiset(paths)[q] <= 1
  {
    hide Tree, Branches, Forest, AllPaths, Within, ByLength, Precedes, Completed, IsPath;
    var queue := [[source]];
    paths, visited := [], [];
    assert paths == Completed(g, visited) by { NoneCompleted(g); }
    Begin(g, source);
    while queue != []
      invariant AllPaths(g, queue) && paths == Completed(g, visited)
      invariant multiset(visited) + multiset(Forest(g, queue)) == multiset(Tree(g, [source]))
      invariant ByLength(visited) && Precedes(visited, queue)
      invariant queue != [] ==> Within(queue, |queue[0]|)
      decreases |Forest(g, queue)|
    {
      Pop(g, queue);
      var path := queue[0];
      var children := Children(g, Last(path));
      if children == [] && |path| > 1 { paths := paths + [path]; }
      var longer := Enqueue(g, path, queue[1..]);
      Visit(visited, queue, longer);
      CompletedAppend(g, visited, path);
      queue, visited := longer, visited + [path];
    }
    Nothing(g);
    PathsAreExact(g, source, visited);
  }

  lemma CompletedAppend(g: Graph, visited: seq<seq<string>>, p: seq<string>)
    requires p != [] && IsPath(g, p)
    ensures Completed(g, visited + [p])
            == Completed(g, visited) + if Children(g, Last(p)) == [] && |p| > 1 then [p] else []
  {
    assert (visited + [p])[..|visited|] == visited;
  }

  lemma NoneCompleted(g: Graph)
    ensures Completed(g, []) == []
  {
  }

  lemma Begin(g: Graph, source: string)
    ensures AllPaths(g, [[source]]) && Within([[source]], 1) && Forest(g, [[source]]) == Tree(g, [source])
    ensures ByLength([]) && Precedes([], [[source]])
  {
    OneTree(g, [source]);
  }

  lemma Nothing(g: Graph)
    ensures Forest(g, []) == []
  {
  }

  lemma OneTree(g: Graph, p: seq<string>)
    requires IsPath(g, p)
    ensures Forest(g, [p]) == Tree(g, p)
  {
    assert Forest(g, [p]) == Tree(g, p) + Forest(g, []);
  }

  // ---------------------------------------------------------------- what is returned

  lemma {:induction false} CompletedHas(g: Graph, visited: seq<seq<string>>, q: seq<string>)
    ensures q in Completed(g, visited) <==> q in visited && Complete(g, q)
    ensures multiset(Completed(g, visited))[q] <= multiset(visited)[q]
  {
    hide Complete;
    if visited != [] {
      var init, last := visited[..|visited| - 1], visited[|visited| - 1];
      CompletedHas(g, init, q);
      assert visited == init + [last];
    }
  }

  lemma {:induction false} CompletedByLength(g: Graph, visited: seq<seq<string>>)
    requires ByLength(visited)
    ensures ByLength(Completed(g, visited))
  {
    hide Complete;
    if visited != [] {
      var init, last := visited[..|visited| - 1], visited[|visited| - 1];
      CompletedByLength(g, init);
      var before := Completed(g, init);
      forall i | 0 <= i < |before| ensures |before[i]| <= |last| {
        CompletedHas(g, init, before[i]);
        var j :| 0 <= j < |init| && init[j] == before[i];
        assert visited[j] == init[j];
      }
    }
  }

  /** No managed dependency is listed twice. */
  predicate NoRepeats(g: Graph) {
    forall n <- g :: Simple(g[n])
  }

  lemma {:induction false} TreeIsDistinct(g: Graph, p: seq<string>, q: seq<string>)
    requires IsPath(g, p) && NoRepeats(g)
    ensures multiset(Tree(g, p))[q] <= 1
    decreases |Nodes(g)| + 1 - |p|, |Children(g, Last(p))| + 1
  {
    PathsAreBounded(g, p);
    BranchesAreDistinct(g, p, 0, q);
    BranchesHaveExtensions(g, p, 0, p);
    assert p !in multiset(Branches(g, p, 0));
  }

  lemma {:induction false} BranchesAreDistinct(g: Graph, p: seq<string>, k: nat, q: seq<string>)
    requires IsPath(g, p) && NoRepeats(g) && k <= |Children(g, Last(p))|
    ensures multiset(Branches(g, p, k))[q] <= 1
    decreases |Nodes(g)| + 1 - |p|, |Children(g, Last(p))| - k
  {
    hide Tree;
    var cs := Children(g, Last(p));
    if k < |cs| {
      Extends(g, p, cs[k]);
      BranchesAreDistinct(g, p, k + 1, q);
      if cs[k] !in p {
        TreeIsDistinct(g, p + [cs[k]], q);
        TreeHasExtensions(g, p + [cs[k]], q);
        BranchesHaveExtensions(g, p, k + 1, q);
        NotTwice(cs, k);
        assert p + [cs[k]] <= q ==> q[|p|] == cs[k];
        assert q in multiset(Tree(g, p + [cs[k]])) ==> q !in multiset(Branches(g, p, k + 1));
      }
    }
  }

  lemma NotTwice(cs: seq<string>, k: nat)
    requires k < |cs| && Simple(cs)
    ensures cs[k] !in cs[k + 1..]
  {
  }

  /** Exactly the complete simple paths from the source, shortest first, each once if no edge repeats. */
  lemma PathsAreExact(g: Graph, source: string, visited: seq<seq<string>>)
    requires multiset(visited) == multiset(Tree(g, [source])) && ByLength(visited)
    ensures forall q :: q in Completed(g, visited) <==> Complete(g, q) && q[0] == source
    ensures ByLength(Completed(g, visited))
    ensures NoRepeats(g) ==> forall q :: multiset(Completed(g, visited))[q] <= 1
  {
    hide Tree, Simple, IsWalk;
    forall q ensures q in Completed(g, visited) <==> Complete(g, q) && q[0] == source {
      assert IsPath(g, [source]) by { SingleIsPath(g, source); }
      CompletedHas(g, visited, q);
      TreeHasExtensions(g, [source], q);
      assert q in multiset(visited) <==> q in multiset(Tree(g, [source]));
    }
    CompletedByLength(g, visited);
    if NoRepeats(g) {
      forall q ensures multiset(Completed(g, visited))[q] <= 1 {
        SingleIsPath(g, source);
        CompletedHas(g, visited, q);
        TreeIsDistinct(g, [source], q);
      }
    }
  }

  lemma SingleIsPath(g: Graph, source: string)
    ensures IsPath(g, [source])
  {
  }

  // ---------------------------------------------------------------- affected systems

  /** `tuple(dict.fromkeys(node for path in paths for node in path)) or (source,)`. */
  method Affected(source: string, paths: seq<seq<string>>) returns (affected: seq<string>)
    ensures Simple(affected)
    ensures forall n :: n in affected <==> OnSome(paths, n) || (n == source && forall p <- paths :: p == [])
  {
    affected := [];
    var i := 0;
    while i < |paths|
      invariant 0 <= i <= |paths| && Simple(affected)
      invariant forall n :: n in affected <==> OnSome(paths[..i], n)
    {
      var path, k := paths[i], 0;
      while k < |path|
        invariant 0 <= k <= |path| && Simple(affected)
        invariant forall n :: n in affected <==> OnSome(paths[..i], n) || n in path[..k]
      {
        if path[k] !in affected { affected := affected + [path[k]]; }
        k := k + 1;
      }
      assert path[..k] == path;
      OneMorePath(paths, i);
      i := i + 1;
    }
    assert paths[..i] == paths;
    EmptyPaths(paths);
    if affected == [] {
      assert forall n :: !OnSome(paths, n);
      affected := [source];
    } else {
      assert OnSome(paths, affected[0]);
    }
  }

  ghost predicate OnSome(paths: seq<seq<string>>, n: string) {
    exists p <- paths :: n in p
  }

  lemma OneMorePath(paths: seq<seq<string>>, i: nat)
    requires i < |paths|
    ensures forall n :: OnSome(paths[..i + 1], n) <==> OnSome(paths[..i], n) || n in paths[i]
  {
    assert paths[..i + 1] == paths[..i] + [paths[i]];
  }

  lemma EmptyPaths(paths: seq<seq<string>>)
    ensures (forall n :: !OnSome(paths, n)) <==> forall p <- paths :: p == []
  {
    if forall n :: !OnSome(paths, n) {
      forall p | p in paths ensures p == [] {
        assert p != [] ==> OnSome(paths, p[0]);
      }
    }
  }

  ghost predicate Reachable(g: Graph, source: string, n: string) {
    exists p :: IsWalk(g, p) && p[0] == source && Last(p) == n
  }

  /** No walk from the source comes back to a node it has visited: no cycle can be reached. */
  ghost predicate AcyclicFrom(g: Graph, source: string) {
    forall p | IsWalk(g, p) && p[0] == source :: Simple(p)
  }

  lemma SliceIsWalk(g: Graph, p: seq<string>, i: nat, j: nat)
    requires IsWalk(g, p) && i <= j < |p|
    ensures IsWalk(g, p[i..j + 1]) && p[i..j + 1][0] == p[i] && Last(p[i..j + 1]) == p[j]
  {
    var slice := p[i..j + 1];
    forall k | 0 < k < |slice| ensures slice[k] in Children(g, slice[k - 1]) {
      assert slice[k] == p[i + k] && slice[k - 1] == p[i + k - 1];
    }
  }

  lemma {:induction false} ExtendToSink(g: Graph, p: seq<string>) returns (q: seq<string>)
    requires IsWalk(g, p) && AcyclicFrom(g, p[0])
    ensures p <= q && IsWalk(g, q) && Children(g, Last(q)) == []
    decreases |Nodes(g)| + 1 - |p|
  {
    PathsAreBounded(g, p);
    if Children(g, Last(p)) == [] {
      q := p;
    } else {
      var next := p + [Children(g, Last(p))[0]];
      assert IsWalk(g, next);
      PathsAreBounded(g, next);
      q := ExtendToSink(g, next);
    }
  }

  /** When no cycle can be reached from the source, the affected systems are exactly those reachable from it. */
  lemma AffectedIsReachable(g: Graph, source: string, paths: seq<seq<string>>, n: string)
    requires AcyclicFrom(g, source) && forall q :: q in paths <==> Complete(g, q) && q[0] == source
    ensures Reachable(g, source, n) <==> OnSome(paths, n) || (n == source && forall p <- paths :: p == [])
  {
    hide Simple;
    if Reachable(g, source, n) {
      var p :| IsWalk(g, p) && p[0] == source && Last(p) == n;
      var q := ExtendToSink(g, p);
      assert q[0] == source && n in q;
      if |q| > 1 {
        assert q in paths;
      } else {
        SinkHasNoPaths(g, source, paths);
      }
    }
    if OnSome(paths, n) { SomeIsReachable(g, source, paths, n); }
    assert IsWalk(g, [source]) && Last([source]) == source;
  }

  /** Whatever the graph, only reachable systems are reported. */
  lemma SomeIsReachable(g: Graph, source: string, paths: seq<seq<string>>, n: string)
    requires OnSome(paths, n) && forall q :: q in paths ==> Complete(g, q) && q[0] == source
    ensures Reachable(g, source, n)
  {
    var q :| q in paths && n in q;
    var k :| 0 <= k < |q| && q[k] == n;
    SliceIsWalk(g, q, 0, k);
  }

  lemma SinkHasNoPaths(g: Graph, source: string, paths: seq<seq<string>>)
    requires Children(g, source) == [] && forall q :: q in paths <==> Complete(g, q) && q[0] == source
    ensures forall q :: q !in paths
  {
    forall q | Complete(g, q) ensures Children(g, q[0]) != [] {
      assert q[1] in Children(g, q[0]);
    }
  }

  /** Only nodes with a managed edge can be reached from here. */
  ghost predicate NeverEnds(g: Graph, n: string) {
    forall m | Reachable(g, n, m) :: Children(g, m) != []
  }

  /** A system from which every walk can go on for ever is on no returned path, reachable from the source or not. */
  lemma CycleHidesReachable(g: Graph, source: string, paths: seq<seq<string>>, n: string)
    requires NeverEnds(g, n) && forall q :: q in paths ==> Complete(g, q) && q[0] == source
    ensures !OnSome(paths, n)
  {
    if OnSome(paths, n) {
      var q :| q in paths && n in q;
      var k :| 0 <= k < |q| && q[k] == n;
      SliceIsWalk(g, q, k, |q| - 1);
      assert Reachable(g, n, Last(q));
      assert false;
    }
  }

  /** From a source that never ends no path is returned, so the source alone is reported, whatever else it reaches. */
  lemma NothingIsReported(g: Graph, source: string, paths: seq<seq<string>>)
    requires NeverEnds(g, source) && forall q :: q in paths <==> Complete(g, q) && q[0] == source
    ensures paths == []
  {
    hide NeverEnds;
    CycleHidesReachable(g, source, paths, source);
    SourceIsOnAll(paths, source);
  }

  lemma SourceIsOnAll(paths: seq<seq<string>>, source: string)
    requires forall q <- paths :: q != [] && q[0] == source
    ensures paths == [] || OnSome(paths, source)
  {
    if paths != [] {
      assert paths[0] in paths && source in paths[0];
    }
  }
}
