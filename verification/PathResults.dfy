/** `find_paths`: what its results mean, and when they are exactly the shortest paths. */
module PathResults {
  import opened Options
  import opened Sequences
  import opened Graph
  import opened PathSearch

  // ----- reconstruction finds every recorded path, once -----

  /** `q` ends with the known part `p` and reaches back to the source along recorded predecessors. */
  ghost predicate Completes(source: NodeId, preds: Predecessors, q: Path, p: Path) {
    && |p.nodes| == |p.edges| + 1 && |q.nodes| == |q.edges| + 1 && |p.edges| <= |q.edges|
    && q.nodes[0] == source
    && q.nodes[|q.edges| - |p.edges|..] == p.nodes && q.edges[|q.edges| - |p.edges|..] == p.edges
    && (forall i :: 0 <= i < |q.edges| - |p.edges| ==> (q.nodes[i], q.edges[i]) in Preds(preds, q.nodes[i + 1]))
  }

  /** The step with which `q` leads into the known part `p`. */
  ghost function LastStep(q: Path, p: Path): (NodeId, EdgeId)
    requires |q.nodes| == |q.edges| + 1 && |p.edges| < |q.edges|
  {
    (q.nodes[|q.edges| - |p.edges| - 1], q.edges[|q.edges| - |p.edges| - 1])
  }

  lemma KnownNode(source: NodeId, preds: Predecessors, q: Path, p: Path)
    requires Completes(source, preds, q, p)
    ensures q.nodes[|q.edges| - |p.edges|] == p.nodes[0]
    ensures |p.edges| < |q.edges| ==> LastStep(q, p) in Preds(preds, p.nodes[0])
  {
  }

  lemma GrowCompletes(source: NodeId, preds: Predecessors, q: Path, p: Path, step: (NodeId, EdgeId))
    requires |p.nodes| == |p.edges| + 1 && step in Preds(preds, p.nodes[0])
    ensures Completes(source, preds, q, Grow(p, step))
            <==> |p.edges| < |q.edges| && Completes(source, preds, q, p) && LastStep(q, p) == step
  {
    var k := |q.edges| - |p.edges|;
    if |q.nodes| == |q.edges| + 1 && k > 0 {
      assert q.nodes[k - 1..] == [q.nodes[k - 1]] + q.nodes[k..];
      assert q.edges[k - 1..] == [q.edges[k - 1]] + q.edges[k..];
      if Completes(source, preds, q, Grow(p, step)) {
        assert q.nodes[k..] == q.nodes[k - 1..][1..] == p.nodes && q.edges[k..] == q.edges[k - 1..][1..] == p.edges;
        assert q.nodes[k - 1..][0] == step.0 && q.edges[k - 1..][0] == step.1;
        assert q.nodes[k] == q.nodes[k..][0];
        assert step == (step.0, step.1);
      }
    }
  }

  lemma {:induction false} CompletionsExact(source: NodeId, dist: map<NodeId, nat>, preds: Predecessors, p: Path)
    requires Descends(source, dist, preds) && Preds(preds, source) == []
    requires Rooted(dist, p) && |p.nodes| == |p.edges| + 1
    ensures forall q :: q in Completions(source, dist, preds, p) <==> Completes(source, preds, q, p)
    ensures Distinct(Completions(source, dist, preds, p))
    decreases dist[p.nodes[0]], 1, 0
  {
    if p.nodes[0] == source {
      forall q | Completes(source, preds, q, p) ensures q == p {
        KnownNode(source, preds, q, p);
        assert |p.edges| == |q.edges|;
      }
    } else {
      TriedIsPreds(source, dist, preds, p.nodes[0]);
      var steps := Tried(preds, p.nodes[0]);
      assert steps[0..] == steps;
      CompletionsFromExact(source, dist, preds, p, steps, 0);
      forall q | Completes(source, preds, q, p) ensures |p.edges| < |q.edges| && LastStep(q, p) in steps {
        KnownNode(source, preds, q, p);
      }
    }
  }

  /** `qs` are the paths that complete `p` by one of `steps`, each once. */
  ghost predicate CompleteBy(source: NodeId, preds: Predecessors, p: Path, steps: seq<(NodeId, EdgeId)>, qs: seq<Path>) {
    && Distinct(qs)
    && (forall q :: q in qs <==> |p.edges| < |q.edges| && Completes(source, preds, q, p) && LastStep(q, p) in steps)
  }

  lemma {:induction false} CompletionsFromExact(source: NodeId, dist: map<NodeId, nat>, preds: Predecessors, p: Path,
                                                steps: seq<(NodeId, EdgeId)>, i: nat)
    requires Descends(source, dist, preds) && Preds(preds, source) == []
    requires Rooted(dist, p) && |p.nodes| == |p.edges| + 1 && AllCloser(dist, p.nodes[0], steps) && i <= |steps|
    requires Distinct(steps) && forall j :: 0 <= j < |steps| ==> steps[j] in Preds(preds, p.nodes[0])
    ensures CompleteBy(source, preds, p, steps[i..], CompletionsFrom(source, dist, preds, p, steps, i))
    decreases dist[p.nodes[0]], 0, |steps| - i
  {
    if i < |steps| {
      assert Closer(dist, p.nodes[0], steps[i]);
      var first := Completions(source, dist, preds, Grow(p, steps[i]));
      assert CompleteBy(source, preds, p, [steps[i]], first) by {
        CompletionsExact(source, dist, preds, Grow(p, steps[i]));
        OneStep(source, preds, p, steps[i], first);
      }
      var rest := CompletionsFrom(source, dist, preds, p, steps, i + 1);
      assert CompleteBy(source, preds, p, steps[i + 1..], rest) by {
        CompletionsFromExact(source, dist, preds, p, steps, i + 1);
      }
      OneStepMore(source, preds, p, steps, i, first, rest);
    }
  }

  lemma OneStep(source: NodeId, preds: Predecessors, p: Path, step: (NodeId, EdgeId), qs: seq<Path>)
    requires |p.nodes| == |p.edges| + 1 && step in Preds(preds, p.nodes[0]) && Distinct(qs)
    requires forall q :: q in qs <==> Completes(source, preds, q, Grow(p, step))
    ensures CompleteBy(source, preds, p, [step], qs)
  {
    forall q ensures q in qs <==> |p.edges| < |q.edges| && Completes(source, preds, q, p) && LastStep(q, p) in [step] {
      GrowCompletes(source, preds, q, p, step);
    }
  }

  lemma OneStepMore(source: NodeId, preds: Predecessors, p: Path, steps: seq<(NodeId, EdgeId)>, i: nat,
                    first: seq<Path>, rest: seq<Path>)
    requires i < |steps| && Distinct(steps)
    requires CompleteBy(source, preds, p, [steps[i]], first) && CompleteBy(source, preds, p, steps[i + 1..], rest)
    ensures CompleteBy(source, preds, p, steps[i..], first + rest)
  {
    var later := steps[i + 1..];
    assert steps[i..] == [steps[i]] + later;
    assert steps[i] !in later;
    DisjointStaysDistinct(first, rest);
  }

  lemma DisjointStaysDistinct(a: seq<Path>, b: seq<Path>)
    requires Distinct(a) && Distinct(b) && forall q :: q in a ==> q !in b
    ensures Distinct(a + b)
  {
    var s := a + b;
    forall i, j | 0 <= i < j < |s| ensures s[i] != s[j] {
      assert s[i] in a || i >= |a|;
      assert s[j] in b || j < |a|;
    }
  }

  lemma CompletesIsRecorded(source: NodeId, preds: Predecessors, q: Path, target: NodeId)
    ensures Completes(source, preds, q, Path([target], [])) <==> Recorded(preds, q, source, target)
  {
  }

  lemma CompletionsAreRecorded(source: NodeId, target: NodeId, dist: map<NodeId, nat>, preds: Predecessors)
    requires Descends(source, dist, preds) && Preds(preds, source) == [] && target in dist
    ensures Rooted(dist, Path([target], []))
    ensures var all := Completions(source, dist, preds, Path([target], []));
            Distinct(all) && |all| > 0 && forall q :: q in all <==> Recorded(preds, q, source, target)
  {
    var all := Completions(source, dist, preds, Path([target], []));
    CompletionsExact(source, dist, preds, Path([target], []));
    Completable(source, dist, preds, Path([target], []));
    forall q ensures q in all <==> Recorded(preds, q, source, target) {
      CompletesIsRecorded(source, preds, q, target);
    }
  }

  // ----- walks along the adjacency are paths of the graph -----

  /** If there is a path at all there is a shortest one. */
  lemma {:induction false} SomeShortest(g: Snapshot, scope: Scope, directed: bool, p: Path, s: NodeId, t: NodeId)
    requires IsPath(g, scope, directed, p, s, t)
    ensures exists q :: IsShortest(g, scope, directed, q, s, t)
    decreases |p.edges|
  {
    if !IsShortest(g, scope, directed, p, s, t) {
      var q :| IsPath(g, scope, directed, q, s, t) && |q.edges| < |p.edges|;
      SomeShortest(g, scope, directed, q, s, t);
    }
  }

  // ----- the operation -----

  /** Every reported path is a real simple path within the hop limit, all are equally long, none is repeated. */
  ghost predicate Genuine(g: Snapshot, b: Bounds, directed: bool, s: NodeId, t: NodeId, paths: seq<Path>) {
    && Distinct(paths) && |paths| <= b.maxResults
    && (forall i :: 0 <= i < |paths| ==>
          IsPath(g, b.scope, directed, paths[i], s, t) && IsSimple(paths[i]) && |paths[i].edges| <= b.maxHops)
    && (forall i, j :: 0 <= i < j < |paths| ==> |paths[i].edges| == |paths[j].edges|)
  }

  /** The reported paths are all the shortest paths, and nothing else. */
  ghost predicate Exact(g: Snapshot, b: Bounds, directed: bool, s: NodeId, t: NodeId, paths: seq<Path>) {
    && (forall q :: q in paths <==> IsShortest(g, b.scope, directed, q, s, t))
    && (paths == [] ==> forall q :: !IsPath(g, b.scope, directed, q, s, t))
  }

  /** From a node to itself the only shortest path has no edge. */
  lemma TrivialIsExact(g: Snapshot, b: Bounds, directed: bool, s: NodeId)
    requires b.Valid()
    ensures Genuine(g, b, directed, s, s, [Path([s], [])]) && Exact(g, b, directed, s, s, [Path([s], [])])
  {
    var here := Path([s], []);
    assert IsPath(g, b.scope, directed, here, s, s);
    forall q ensures q in [here] <==> IsShortest(g, b.scope, directed, q, s, s) {
      if IsShortest(g, b.scope, directed, q, s, s) {
        assert |q.edges| == 0 && q.nodes == [s];
      }
    }
  }

  lemma EndsAreInScope(g: Snapshot, scope: Scope, directed: bool, p: Path, s: NodeId, t: NodeId)
    requires IsPath(g, scope, directed, p, s, t) && s != t
    ensures s in g.nodes && NodeInScope(g.nodes[s], scope) && t in g.nodes && NodeInScope(g.nodes[t], scope)
  {
    var n := |p.edges|;
    assert Arc(g, scope, directed, p.nodes[0], p.edges[0], p.nodes[0 + 1]);
    assert Arc(g, scope, directed, p.nodes[n - 1], p.edges[n - 1], p.nodes[n - 1 + 1]);
  }

  /** No path leaves or enters a node outside the scope. */
  lemma OutsideIsUnreachable(g: Snapshot, b: Bounds, directed: bool, s: NodeId, t: NodeId)
    requires s != t && s in g.nodes && t in g.nodes
    requires !NodeInScope(g.nodes[s], b.scope) || !NodeInScope(g.nodes[t], b.scope)
    ensures Exact(g, b, directed, s, t, [])
  {
    forall q ensures !IsPath(g, b.scope, directed, q, s, t) {
      if IsPath(g, b.scope, directed, q, s, t) {
        EndsAreInScope(g, b.scope, directed, q, s, t);
      }
    }
  }

  lemma UnreachedIsExact(g: Snapshot, b: Bounds, directed: bool, adj: Adjacency, source: NodeId, target: NodeId, s: Search)
    requires AdjacencyComplete(g, b.scope, directed, adj)
    requires Finished(adj, source, target, s) && !s.truncated && s.depth.None?
    ensures Exact(g, b, directed, source, target, [])
  {
    forall q ensures !IsPath(g, b.scope, directed, q, source, target) {
      if IsPath(g, b.scope, directed, q, source, target) {
        PathIsWalk(g, b.scope, directed, adj, q, source, target);
        NoShorterWalk(adj, source, target, s, q);
      }
    }
  }

  lemma RecordedIsGenuine(g: Snapshot, b: Bounds, directed: bool, adj: Adjacency, source: NodeId, target: NodeId, s: Search,
                          paths: seq<Path>)
    requires AdjacencySound(g, b.scope, directed, adj) && Finished(adj, source, target, s)
    requires (forall x :: x in s.dist ==> s.dist[x] <= b.maxHops) && Distinct(paths) && |paths| <= b.maxResults
    requires forall i :: 0 <= i < |paths| ==> Recorded(s.preds, paths[i], source, target)
    ensures Genuine(g, b, directed, source, target, paths)
  {
    forall i | 0 <= i < |paths|
      ensures IsPath(g, b.scope, directed, paths[i], source, target) && IsSimple(paths[i])
      ensures s.depth == Some(|paths[i].edges|)
    {
      RecordedIsSimpleWalk(adj, source, target, s, paths[i]);
      WalkIsPath(g, b.scope, directed, adj, paths[i], source, target);
    }
  }

  lemma AllRecordedIsExact(g: Snapshot, b: Bounds, directed: bool, adj: Adjacency, source: NodeId, target: NodeId, s: Search,
                           paths: seq<Path>)
    requires AdjacencySound(g, b.scope, directed, adj) && AdjacencyComplete(g, b.scope, directed, adj)
    requires Finished(adj, source, target, s) && !s.truncated && paths != []
    requires forall q :: q in paths <==> Recorded(s.preds, q, source, target)
    ensures Exact(g, b, directed, source, target, paths)
  {
    var first := paths[0];
    RecordedIsSimpleWalk(adj, source, target, s, first);
    WalkIsPath(g, b.scope, directed, adj, first, source, target);
    forall q ensures q in paths <==> IsShortest(g, b.scope, directed, q, source, target) {
      if q in paths {
        RecordedIsSimpleWalk(adj, source, target, s, q);
        WalkIsPath(g, b.scope, directed, adj, q, source, target);
        forall r | IsPath(g, b.scope, directed, r, source, target) ensures |q.edges| <= |r.edges| {
          PathIsWalk(g, b.scope, directed, adj, r, source, target);
          NoShorterWalk(adj, source, target, s, r);
        }
      } else if IsShortest(g, b.scope, directed, q, source, target) {
        PathIsWalk(g, b.scope, directed, adj, q, source, target);
        NoShorterWalk(adj, source, target, s, q);
        assert |q.edges| <= |first.edges|;
        ShortestIsRecorded(adj, source, target, s, q);
      }
    }
  }

  // ----- what the flag means -----

  /** More shortest paths exist than may be reported. */
  ghost predicate TooManyShortest(g: Snapshot, b: Bounds, directed: bool, s: NodeId, t: NodeId) {
    exists qs: seq<Path> :: Distinct(qs) && |qs| > b.maxResults
      && forall i :: 0 <= i < |qs| ==> IsShortest(g, b.scope, directed, qs[i], s, t)
  }

  /** No path reaches the target, and as many nodes as may be visited are within the hop limit: the flag is
      raised although nothing may have been cut. */
  ghost predicate VisitsUsedUp(g: Snapshot, b: Bounds, directed: bool, s: NodeId, t: NodeId) {
    && (forall q :: !IsPath(g, b.scope, directed, q, s, t))
    && |Ball(g, b.scope, directed, s, b.maxHops)| >= b.maxVisited
  }

  /** The graph is too large for some limit other than that on the queue. */
  ghost predicate LimitReached(g: Snapshot, b: Bounds, directed: bool, s: NodeId, t: NodeId) {
    || |EligibleEdges(g, b.scope)| > b.maxEdgesExamined
    || TooManyToVisit(g, b, directed, s, t) || HopsRunOut(g, b, directed, s, t)
    || VisitsUsedUp(g, b, directed, s, t) || TooManyShortest(g, b, directed, s, t)
  }

  /** The flag is raised exactly where a limit is reached. The order in which nodes are found decides how full the
      queue gets, so for that limit there is one condition that suffices and one that is necessary. */
  ghost predicate FlagMeansLimit(g: Snapshot, b: Bounds, directed: bool, s: NodeId, t: NodeId, truncated: bool) {
    && (LimitReached(g, b, directed, s, t) || MustOverflow(g, b, directed, s, t) ==> truncated)
    && (truncated ==> LimitReached(g, b, directed, s, t) || MayOverflow(g, b, directed, s, t))
  }

  /** In a search that was not cut, every node up to one step behind those to expand has been found. */
  lemma BallIsFound(g: Snapshot, b: Bounds, directed: bool, adj: Adjacency, source: NodeId, target: NodeId, s: Search, k: nat)
    requires Faithful(g, b, directed, adj, false) && Finished(adj, source, target, s) && !s.truncated
    requires MustExpand(g, b, directed, source, target, k)
    ensures forall x :: x in Ball(g, b.scope, directed, source, k + 1) ==> x in s.dist && s.dist[x] <= k + 1
  {
    if s.depth.Some? {
      FoundIsWithin(g, b.scope, directed, adj, source, s.dist, s.preds, target);
    }
    FinishedNearer(adj, source, target, s, k + 1);
    forall x | x in Ball(g, b.scope, directed, source, k + 1) ensures x in s.dist && s.dist[x] <= k + 1 {
      WithinIsFound(g, b.scope, directed, adj, source, s.dist, s.preds, k + 1, x, k + 1);
    }
  }

  lemma UncutVisits(g: Snapshot, b: Bounds, directed: bool, adj: Adjacency, source: NodeId, target: NodeId, s: Search)
    requires Faithful(g, b, directed, adj, false) && Finished(adj, source, target, s) && !s.truncated
    requires |s.dist| <= b.maxVisited
    ensures !TooManyToVisit(g, b, directed, source, target)
  {
    forall k: nat | MustExpand(g, b, directed, source, target, k)
      ensures |Ball(g, b.scope, directed, source, k + 1)| <= b.maxVisited
    {
      BallIsFound(g, b, directed, adj, source, target, s, k);
      Cardinality(Ball(g, b.scope, directed, source, k + 1), s.dist.Keys);
      assert |s.dist.Keys| == |s.dist|;
    }
  }

  lemma UncutQueue(g: Snapshot, b: Bounds, directed: bool, adj: Adjacency, source: NodeId, target: NodeId, s: Search)
    requires Faithful(g, b, directed, adj, false) && Finished(adj, source, target, s) && !s.truncated
    requires LayersFit(b, s) && s.dist.Keys <= g.nodes.Keys
    ensures !MustOverflow(g, b, directed, source, target)
  {
    forall k: nat | MustExpand(g, b, directed, source, target, k)
      ensures |Ball(g, b.scope, directed, source, k + 1) - Ball(g, b.scope, directed, source, k)| <= b.maxQueue
    {
      var shell := Ball(g, b.scope, directed, source, k + 1) - Ball(g, b.scope, directed, source, k);
      BallIsFound(g, b, directed, adj, source, target, s, k);
      forall x | x in shell ensures x in Layer(s.dist, k + 1) {
        FoundIsWithin(g, b.scope, directed, adj, source, s.dist, s.preds, x);
        if s.dist[x] <= k {
          WithinMore(g, b.scope, directed, source, x, s.dist[x], k);
        }
      }
      Cardinality(shell, Layer(s.dist, k + 1));
    }
  }

  /** Where the target is out of reach, everything within reach has been found. */
  lemma ReachIsFound(g: Snapshot, b: Bounds, directed: bool, adj: Adjacency, source: NodeId, target: NodeId, s: Search,
                     x: NodeId, k: nat)
    requires Faithful(g, b, directed, adj, false) && Finished(adj, source, target, s) && !s.truncated && s.depth.None?
    requires Within(g, b.scope, directed, source, x, k)
    ensures x in s.dist
  {
    FinishedNearer(adj, source, target, s, k);
    WithinIsFound(g, b.scope, directed, adj, source, s.dist, s.preds, k, x, k);
  }

  lemma UncutHops(g: Snapshot, b: Bounds, directed: bool, adj: Adjacency, source: NodeId, target: NodeId, s: Search)
    requires Faithful(g, b, directed, adj, false) && Finished(adj, source, target, s) && !s.truncated
    requires forall x :: x in s.dist ==> s.dist[x] <= b.maxHops
    ensures !HopsRunOut(g, b, directed, source, target)
  {
    if HopsRunOut(g, b, directed, source, target) {
      if s.depth.Some? {
        FoundIsWithin(g, b.scope, directed, adj, source, s.dist, s.preds, target);
        WithinMore(g, b.scope, directed, source, target, s.dist[target], b.maxHops);
      }
      var p, x :| IsShortest(g, b.scope, directed, p, source, x) && |p.edges| == b.maxHops + 1;
      ReachIsFound(g, b, directed, adj, source, target, s, x, b.maxHops + 1);
      var q := FoundByWalk(adj, source, s.dist, s.preds, x);
      WalkIsPath(g, b.scope, directed, adj, q, source, x);
    }
  }

  lemma UncutResults(g: Snapshot, b: Bounds, directed: bool, s: NodeId, t: NodeId, paths: seq<Path>)
    requires Genuine(g, b, directed, s, t, paths) && Exact(g, b, directed, s, t, paths)
    ensures !TooManyShortest(g, b, directed, s, t)
  {
    forall qs: seq<Path> | Distinct(qs) && forall i :: 0 <= i < |qs| ==> IsShortest(g, b.scope, directed, qs[i], s, t)
      ensures |qs| <= b.maxResults
    {
      DistinctSize(qs);
      DistinctSize(paths);
      Cardinality((set q | q in qs), (set q | q in paths));
    }
  }

  /** What a search that ran to its end without being cut rules out. */
  lemma UncutIsUnlimited(g: Snapshot, b: Bounds, directed: bool, adj: Adjacency, source: NodeId, target: NodeId, s: Search)
    requires Faithful(g, b, directed, adj, false) && Finished(adj, source, target, s) && !s.truncated
    requires LimitsOk(b, target, s) && LayersFit(b, s) && s.dist.Keys <= g.nodes.Keys
    ensures !TooManyToVisit(g, b, directed, source, target) && !MustOverflow(g, b, directed, source, target)
    ensures !HopsRunOut(g, b, directed, source, target)
  {
    UncutVisits(g, b, directed, adj, source, target, s);
    UncutQueue(g, b, directed, adj, source, target, s);
    UncutHops(g, b, directed, adj, source, target, s);
  }

  /** The nodes found by a search that was not cut: those no farther than the target, or all within reach. */
  lemma FoundIsBall(g: Snapshot, b: Bounds, directed: bool, adj: Adjacency, source: NodeId, target: NodeId, s: Search, k: nat)
    requires Faithful(g, b, directed, adj, false) && Finished(adj, source, target, s) && !s.truncated
    requires s.dist.Keys <= g.nodes.Keys && (forall x :: x in s.dist ==> s.dist[x] <= k)
    requires s.depth.Some? ==> k == s.depth.value
    ensures s.dist.Keys == Ball(g, b.scope, directed, source, k) && |s.dist| == |Ball(g, b.scope, directed, source, k)|
  {
    FinishedNearer(adj, source, target, s, k);
    forall x | x in s.dist ensures Within(g, b.scope, directed, source, x, k) {
      FoundIsWithin(g, b.scope, directed, adj, source, s.dist, s.preds, x);
      WithinMore(g, b.scope, directed, source, x, s.dist[x], k);
    }
    forall x | Within(g, b.scope, directed, source, x, k) ensures x in s.dist {
      WithinIsFound(g, b.scope, directed, adj, source, s.dist, s.preds, k, x, k);
    }
    assert s.dist.Keys == Ball(g, b.scope, directed, source, k);
    assert |s.dist.Keys| == |s.dist|;
  }

  /** The relations asked for narrow those the bounds allow. */
  function Narrowed(b: Bounds, relations: Option<set<int>>): Bounds {
    if relations.None? then b else b.(scope := b.scope.(edgeKinds := b.scope.edgeKinds * relations.value))
  }

  /** The number of nodes visited: never more than allowed, and in a search that was not cut, those no farther than
      the target, or all within reach if the target is not. */
  ghost predicate VisitedOk(g: Snapshot, b: Bounds, directed: bool, s: NodeId, paths: seq<Path>, truncated: bool,
                            visited: nat) {
    && visited <= b.maxVisited
    && (!truncated ==>
          visited == |Ball(g, b.scope, directed, s, if paths == [] then b.maxHops else |paths[0].edges|)|)
  }

  /** The target was not reached. */
  lemma Unreached(g: Snapshot, b: Bounds, directed: bool, adj: Adjacency, source: NodeId, target: NodeId, s: Search,
                  scan: bool, truncated: bool)
    requires scan <==> |EligibleEdges(g, b.scope)| > b.maxEdgesExamined
    requires Faithful(g, b, directed, adj, scan) && Justified(g, b, directed, source, target, scan, s) && LayersFit(b, s)
    requires Finished(adj, source, target, s) && LimitsOk(b, target, s) && s.depth.None? && b.Valid()
    requires truncated <==> s.truncated || |s.dist| >= b.maxVisited
    ensures FlagMeansLimit(g, b, directed, source, target, truncated)
    ensures Genuine(g, b, directed, source, target, []) && VisitedOk(g, b, directed, source, [], truncated, |s.dist|)
    ensures !truncated ==> Exact(g, b, directed, source, target, [])
  {
    if !s.truncated {
      UnreachedIsExact(g, b, directed, adj, source, target, s);
      FoundIsBall(g, b, directed, adj, source, target, s, b.maxHops);
      UncutIsUnlimited(g, b, directed, adj, source, target, s);
      UncutResults(g, b, directed, source, target, []);
    }
  }

  /** The target was reached, and its paths reconstructed. */
  lemma Reached(g: Snapshot, b: Bounds, directed: bool, adj: Adjacency, source: NodeId, target: NodeId, s: Search,
                scan: bool, all: seq<Path>, paths: seq<Path>, truncated: bool)
    requires scan <==> |EligibleEdges(g, b.scope)| > b.maxEdgesExamined
    requires Faithful(g, b, directed, adj, scan) && Justified(g, b, directed, source, target, scan, s) && LayersFit(b, s)
    requires Finished(adj, source, target, s) && LimitsOk(b, target, s) && s.depth.Some? && b.Valid()
    requires Distinct(all) && |all| > 0 && forall q :: q in all <==> Recorded(s.preds, q, source, target)
    requires paths <= all && |paths| <= b.maxResults && (|paths| < |all| ==> |paths| == b.maxResults)
    requires truncated <==> s.truncated || |paths| < |all|
    ensures FlagMeansLimit(g, b, directed, source, target, truncated)
    ensures Genuine(g, b, directed, source, target, paths) && VisitedOk(g, b, directed, source, paths, truncated, |s.dist|)
    ensures !truncated ==> Exact(g, b, directed, source, target, paths)
  {
    forall i | 0 <= i < |paths| ensures Recorded(s.preds, paths[i], source, target) {
      assert paths[i] == all[i] && all[i] in all;
    }
    RecordedIsGenuine(g, b, directed, adj, source, target, s, paths);
    if !s.truncated {
      AllRecordedIsExact(g, b, directed, adj, source, target, s, all);
      RecordedIsSimpleWalk(adj, source, target, s, paths[0]);
      FoundIsBall(g, b, directed, adj, source, target, s, s.depth.value);
      UncutIsUnlimited(g, b, directed, adj, source, target, s);
      if |paths| < |all| {
        assert forall i :: 0 <= i < |all| ==> all[i] in all;
        assert TooManyShortest(g, b, directed, source, target);
      } else {
        assert paths == all;
        UncutResults(g, b, directed, source, target, paths);
      }
    }
  }

  /** The search between two distinct nodes of the scope. */
  method SearchPaths(g: Snapshot, source: NodeId, target: NodeId, b: Bounds, directed: bool)
    returns (paths: seq<Path>, truncated: bool, visited: nat)
    requires b.Valid() && source != target && source in g.nodes && target in g.nodes
    ensures FlagMeansLimit(g, b, directed, source, target, truncated)
    ensures Genuine(g, b, directed, source, target, paths) && VisitedOk(g, b, directed, source, paths, truncated, visited)
    ensures !truncated ==> Exact(g, b, directed, source, target, paths)
  {
    var adj, scan := TraversalAdjacency(g, b, directed);
    ghost var d;
    var s;
    s, d := BreadthFirst(g, b, directed, adj, source, target, scan);
    assert Finished(adj, source, target, s);
    visited := if |s.dist| < b.maxVisited then |s.dist| else b.maxVisited;
    if s.depth.None? {
      paths, truncated := [], s.truncated || (|s.dist| >= b.maxVisited && target !in s.dist);
      Unreached(g, b, directed, adj, source, target, s, scan, truncated);
      return;
    }
    TreeDescends(adj, source, s.dist, s.preds);
    var cut;
    paths, cut := ReconstructShortestPaths(source, target, s.dist, s.preds, b.maxResults);
    truncated := s.truncated || cut;
    CompletionsAreRecorded(source, target, s.dist, s.preds);
    Reached(g, b, directed, adj, source, target, s, scan, Completions(source, s.dist, s.preds, Path([target], [])), paths,
            truncated);
  }

  /** A search is only made between two distinct nodes of the scope. */
  predicate Searched(g: Snapshot, bounds: Bounds, source: NodeId, target: NodeId)
    requires source in g.nodes && target in g.nodes
  {
    source != target && NodeInScope(g.nodes[source], bounds.scope) && NodeInScope(g.nodes[target], bounds.scope)
  }

  method FindPaths(g: Snapshot, account: int, source: NodeId, target: NodeId, bounds: Bounds, directed: bool,
                   relations: Option<set<int>>)
    returns (r: PathResult)
    requires bounds.Valid()
    ensures var outside := v => v in g.nodes && !NodeInScope(g.nodes[v], bounds.scope);
            var absent := v => v !in g.nodes || g.nodes[v].partition != account;
            && (r == Failed(AccountMismatch) <==> account != bounds.scope.partition)
            && (r == Failed(NodeUnavailable) <==> account == bounds.scope.partition && (absent(source) || absent(target)))
            && (r == Failed(NodeOutOfScope) <==>
                  account == bounds.scope.partition && !absent(source) && !absent(target)
                  && (outside(source) || outside(target)) && bounds.requireInScope)
    ensures r.Found? ==> source in g.nodes && target in g.nodes
    ensures r.Found? ==> Genuine(g, Narrowed(bounds, relations), directed, source, target, r.paths)
    ensures r.Found? && !r.truncated ==> Exact(g, Narrowed(bounds, relations), directed, source, target, r.paths)
    ensures r.Found? && !Searched(g, bounds, source, target) ==> !r.truncated && r.visited == 1
    ensures r.Found? && Searched(g, bounds, source, target) ==>
              && FlagMeansLimit(g, Narrowed(bounds, relations), directed, source, target, r.truncated)
              && VisitedOk(g, Narrowed(bounds, relations), directed, source, r.paths, r.truncated, r.visited)
  {
    if account != bounds.scope.partition { return Failed(AccountMismatch); }
    if source !in g.nodes || g.nodes[source].partition != account { return Failed(NodeUnavailable); }
    if target !in g.nodes || g.nodes[target].partition != account { return Failed(NodeUnavailable); }
    var b := Narrowed(bounds, relations);
    var sourceInScope := NodeInScope(g.nodes[source], bounds.scope);
    var targetInScope := NodeInScope(g.nodes[target], bounds.scope);
    if !sourceInScope || !targetInScope {
      if bounds.requireInScope { return Failed(NodeOutOfScope); }
      if source == target {
        TrivialIsExact(g, b, directed, source);
        return Found([Path([source], [])], false, 1);
      }
      OutsideIsUnreachable(g, b, directed, source, target);
      return Found([], false, 1);
    }
    if source == target {
      TrivialIsExact(g, b, directed, source);
      return Found([Path([source], [])], false, 1);
    }
    var paths, truncated, visited := SearchPaths(g, source, target, b, directed);
    r := Found(paths, truncated, visited);
  }
}
