/** All shortest paths between two nodes, with four independent cut-offs and one honest `truncated` flag. */
module PathSearch {
  import opened Options
  import opened Sequences
  import opened Graph

  datatype Bounds = Bounds(scope: Scope, maxHops: nat, maxResults: nat, maxVisited: nat, maxQueue: nat,
                           maxEdgesExamined: nat, requireInScope: bool)
  {
    /** The model's field constraints. */
    predicate Valid() { maxResults > 0 && maxVisited > 0 && maxQueue > 0 && maxEdgesExamined > 0 }
  }

  datatype SearchError = AccountMismatch | NodeUnavailable | NodeOutOfScope
  datatype PathResult = Found(paths: seq<Path>, truncated: bool, visited: nat) | Failed(error: SearchError)

  /** Outgoing steps by node: the edge and the node it leads to. */
  type Adjacency = map<NodeId, seq<(EdgeId, NodeId)>>

  predicate Step(adj: Adjacency, u: NodeId, e: EdgeId, v: NodeId) {
    u in adj && (e, v) in adj[u]
  }

  ghost predicate AdjacencySound(g: Snapshot, scope: Scope, directed: bool, adj: Adjacency) {
    && (forall u, e, v :: Step(adj, u, e, v) ==> Arc(g, scope, directed, u, e, v))
    && OnlyLoopsRepeat(adj)
  }

  /** An entry can occur twice only if it is a self-loop followed in both directions. */
  ghost predicate OnlyLoopsRepeat(adj: Adjacency) {
    forall u: NodeId, i: int, j: int :: u in adj && 0 <= i < j < |adj[u]| && adj[u][i] == adj[u][j] ==> adj[u][i].1 == u
  }

  ghost predicate AdjacencyComplete(g: Snapshot, scope: Scope, directed: bool, adj: Adjacency) {
    forall u, e, v :: Arc(g, scope, directed, u, e, v) ==> Step(adj, u, e, v)
  }

  function Neighbours(adj: Adjacency, u: NodeId): seq<(EdgeId, NodeId)> {
    if u in adj then adj[u] else []
  }

  function Append(adj: Adjacency, u: NodeId, e: EdgeId, v: NodeId): Adjacency {
    adj[u := Neighbours(adj, u) + [(e, v)]]
  }

  lemma AppendSteps(adj: Adjacency, u: NodeId, e: EdgeId, v: NodeId)
    ensures forall x, f, y :: Step(Append(adj, u, e, v), x, f, y) <==> Step(adj, x, f, y) || (x == u && f == e && y == v)
  {
  }

  lemma AppendRepeats(adj: Adjacency, u: NodeId, e: EdgeId, v: NodeId)
    requires OnlyLoopsRepeat(adj) && (Step(adj, u, e, v) ==> v == u)
    ensures OnlyLoopsRepeat(Append(adj, u, e, v))
  {
  }

  /** Only the edges examined so far have been entered. */
  ghost predicate EnteredOnly(adj: Adjacency, seen: set<EdgeId>) {
    forall u, e, v :: Step(adj, u, e, v) ==> e in seen
  }

  ghost function EligibleEdges(g: Snapshot, scope: Scope): set<EdgeId> {
    set e | e in g.edges && EdgeInScope(g, scope, e)
  }

  /** The steps entered are those along the eligible edges among `seen`. */
  ghost predicate Scanned(g: Snapshot, scope: Scope, directed: bool, adj: Adjacency, seen: set<EdgeId>) {
    && AdjacencySound(g, scope, directed, adj) && EnteredOnly(adj, seen)
    && (forall u, e, v :: e in seen && Arc(g, scope, directed, u, e, v) ==> Step(adj, u, e, v))
  }

  lemma AllScanned(g: Snapshot, scope: Scope, directed: bool, adj: Adjacency, seen: set<EdgeId>)
    requires Scanned(g, scope, directed, adj, seen) && g.edges.Keys <= seen
    ensures AdjacencyComplete(g, scope, directed, adj)
  {
  }

  lemma SkipScanned(g: Snapshot, scope: Scope, directed: bool, adj: Adjacency, seen: set<EdgeId>, e: EdgeId)
    requires Scanned(g, scope, directed, adj, seen) && !EdgeInScope(g, scope, e)
    ensures Scanned(g, scope, directed, adj, seen + {e})
  {
  }

  ghost function Seen(order: seq<EdgeId>, i: nat): set<EdgeId>
    requires i <= |order|
  {
    set e | e in order[..i]
  }

  /** The number of eligible edges among the first `i`. */
  ghost function Eligible(g: Snapshot, scope: Scope, order: seq<EdgeId>, i: nat): nat
    requires i <= |order|
  {
    |Seen(order, i) * EligibleEdges(g, scope)|
  }

  lemma RisingIsFresh(order: seq<EdgeId>, i: nat)
    requires i < |order| && forall j, k :: 0 <= j < k < |order| ==> order[j] < order[k]
    ensures order[i] !in order[..i]
  {
  }

  lemma CountOneMore(seen: set<EdgeId>, eligible: set<EdgeId>, e: EdgeId)
    requires e !in seen
    ensures |(seen + {e}) * eligible| == |seen * eligible| + if e in eligible then 1 else 0
  {
    if e in eligible {
      assert (seen + {e}) * eligible == seen * eligible + {e};
    } else {
      assert (seen + {e}) * eligible == seen * eligible;
    }
  }

  lemma EligibleNext(g: Snapshot, scope: Scope, order: seq<EdgeId>, i: nat)
    requires i < |order| && order[i] !in order[..i]
    ensures Seen(order, i + 1) == Seen(order, i) + {order[i]} && order[i] !in Seen(order, i)
    ensures Eligible(g, scope, order, i + 1) == Eligible(g, scope, order, i) + if EdgeInScope(g, scope, order[i]) then 1 else 0
  {
    assert order[..i + 1] == order[..i] + [order[i]];
    assert Seen(order, i + 1) == Seen(order, i) + {order[i]};
    CountOneMore(Seen(order, i), EligibleEdges(g, scope), order[i]);
  }

  lemma EligibleAtMost(g: Snapshot, scope: Scope, order: seq<EdgeId>, i: nat)
    requires i <= |order|
    ensures Eligible(g, scope, order, i) <= |EligibleEdges(g, scope)|
  {
    Cardinality(Seen(order, i) * EligibleEdges(g, scope), EligibleEdges(g, scope));
  }

  lemma EligibleInAll(g: Snapshot, scope: Scope, order: seq<EdgeId>)
    requires forall e :: e in order <==> e in g.edges
    ensures Eligible(g, scope, order, |order|) == |EligibleEdges(g, scope)| && Seen(order, |order|) == g.edges.Keys
  {
    assert order[..|order|] == order;
    assert forall e :: e in Seen(order, |order|) <==> e in g.edges.Keys;
    assert Seen(order, |order|) * EligibleEdges(g, scope) == EligibleEdges(g, scope);
  }

  /** Enter the steps along one edge, if it is eligible. */
  method ScanEdge(g: Snapshot, scope: Scope, directed: bool, adj: Adjacency, e: EdgeId, ghost seen: set<EdgeId>)
    returns (adj': Adjacency)
    requires Scanned(g, scope, directed, adj, seen) && e !in seen
    ensures Scanned(g, scope, directed, adj', seen + {e})
  {
    if !EdgeInScope(g, scope, e) {
      SkipScanned(g, scope, directed, adj, seen, e);
      return adj;
    }
    var edge := g.edges[e];
    adj' := Append(adj, edge.source, e, edge.target);
    AppendSteps(adj, edge.source, e, edge.target);
    AppendRepeats(adj, edge.source, e, edge.target);
    if !directed {
      AppendRepeats(adj', edge.target, e, edge.source);
      AppendSteps(adj', edge.target, e, edge.source);
      adj' := Append(adj', edge.target, e, edge.source);
    }
  }

  ghost predicate ScannedUpTo(g: Snapshot, b: Bounds, directed: bool, adj: Adjacency, order: seq<EdgeId>, i: nat, examined: nat) {
    && i <= |order| && Scanned(g, b.scope, directed, adj, Seen(order, i))
    && examined == Eligible(g, b.scope, order, i) <= b.maxEdgesExamined
  }

  lemma ScanStarts(g: Snapshot, b: Bounds, directed: bool, order: seq<EdgeId>)
    ensures ScannedUpTo(g, b, directed, map[], order, 0, 0)
  {
  }

  lemma ScanEnds(g: Snapshot, b: Bounds, directed: bool, adj: Adjacency, order: seq<EdgeId>, examined: nat)
    requires ScannedUpTo(g, b, directed, adj, order, |order|, examined) && forall e :: e in order <==> e in g.edges
    ensures AdjacencySound(g, b.scope, directed, adj) && AdjacencyComplete(g, b.scope, directed, adj)
    ensures |EligibleEdges(g, b.scope)| <= b.maxEdgesExamined
  {
    EligibleInAll(g, b.scope, order);
    AllScanned(g, b.scope, directed, adj, Seen(order, |order|));
  }

  /** Count the next edge if it is eligible, and enter it unless it is one too many. */
  method ScanNext(g: Snapshot, b: Bounds, directed: bool, adj: Adjacency, order: seq<EdgeId>, i: nat, examined: nat)
    returns (adj': Adjacency, examined': nat, cut: bool)
    requires ScannedUpTo(g, b, directed, adj, order, i, examined)
    requires i < |order| && forall j, k :: 0 <= j < k < |order| ==> order[j] < order[k]
    ensures AdjacencySound(g, b.scope, directed, adj')
    ensures if cut then |EligibleEdges(g, b.scope)| > b.maxEdgesExamined
            else ScannedUpTo(g, b, directed, adj', order, i + 1, examined')
  {
    adj', examined', cut := adj, examined, false;
    RisingIsFresh(order, i);
    EligibleNext(g, b.scope, order, i);
    if EdgeInScope(g, b.scope, order[i]) {
      examined' := examined + 1;
      if examined' > b.maxEdgesExamined {
        EligibleAtMost(g, b.scope, order, i + 1);
        cut := true;
        return;
      }
    }
    adj' := ScanEdge(g, b.scope, directed, adj, order[i], Seen(order, i));
  }

  /** Scan the edges in identifier order, up to the examination limit. */
  method TraversalAdjacency(g: Snapshot, bounds: Bounds, directed: bool) returns (adj: Adjacency, truncated: bool)
    ensures AdjacencySound(g, bounds.scope, directed, adj)
    ensures !truncated ==> AdjacencyComplete(g, bounds.scope, directed, adj)
    ensures truncated <==> |EligibleEdges(g, bounds.scope)| > bounds.maxEdgesExamined
  {
    adj, truncated := map[], false;
    var order := Sorted(g.edges.Keys);
    var examined := 0;
    ScanStarts(g, bounds, directed, order);
    for i := 0 to |order|
      invariant ScannedUpTo(g, bounds, directed, adj, order, i, examined)
    {
      adj, examined, truncated := ScanNext(g, bounds, directed, adj, order, i, examined);
      if truncated {
        return;
      }
    }
    ScanEnds(g, bounds, directed, adj, order, examined);
  }

  // ----- breadth-first search -----

  type Predecessors = map<NodeId, seq<(NodeId, EdgeId)>>

  datatype Search = Search(dist: map<NodeId, nat>, preds: Predecessors, queue: seq<NodeId>,
                           depth: Option<nat>, truncated: bool)

  function Preds(preds: Predecessors, x: NodeId): seq<(NodeId, EdgeId)> {
    if x in preds then preds[x] else []
  }

  function Record(s: Search, cur: NodeId, e: EdgeId, y: NodeId): Search {
    s.(preds := s.preds[y := Preds(s.preds, y) + [(cur, e)]])
  }

  function Discover(s: Search, cur: NodeId, y: NodeId): Search
    requires cur in s.dist
  {
    s.(dist := s.dist[y := s.dist[cur] + 1], queue := s.queue + [y])
  }

  /** Look along one step from `cur`. */
  function Visit(s: Search, b: Bounds, target: NodeId, cur: NodeId, e: EdgeId, y: NodeId): Search
    requires cur in s.dist
  {
    var next := s.dist[cur] + 1;
    if y !in s.dist && (|s.dist| >= b.maxVisited || |s.queue| >= b.maxQueue) then s.(truncated := true)
    else
      var s1 := if y in s.dist then s else Discover(s, cur, y);
      var s2 := if s1.dist[y] == next then Record(s1, cur, e, y) else s1;
      if y == target && s2.depth.None? then s2.(depth := Some(next)) else s2
  }

  /** Distances and predecessors fit: predecessors are one step closer to the source. */
  ghost predicate TreeOk(adj: Adjacency, source: NodeId, dist: map<NodeId, nat>, preds: Predecessors) {
    && source in dist && dist[source] == 0
    && (forall x :: x in dist && x != source ==> dist[x] > 0 && x in preds && |preds[x]| > 0)
    && (forall x, u, e :: x in preds && (u, e) in preds[x] ==>
          x in dist && u in dist && dist[x] == dist[u] + 1 && Step(adj, u, e, x))
    && (forall x :: x in preds ==> x in dist && x != source && Distinct(preds[x]))
  }

  /** Every step out of `x` is accounted for. */
  ghost predicate Expanded(adj: Adjacency, dist: map<NodeId, nat>, preds: Predecessors, x: NodeId)
    requires x in dist
  {
    forall e, y :: Step(adj, x, e, y) ==> Accounted(dist, preds, x, e, y)
  }

  ghost predicate Accounted(dist: map<NodeId, nat>, preds: Predecessors, x: NodeId, e: EdgeId, y: NodeId)
    requires x in dist
  {
    && y in dist && dist[y] <= dist[x] + 1
    && (dist[y] == dist[x] + 1 ==> y in preds && (x, e) in preds[y])
  }

  ghost predicate LimitsOk(b: Bounds, target: NodeId, s: Search) {
    && |s.dist| <= b.maxVisited
    && (forall x :: x in s.dist ==> s.dist[x] <= b.maxHops)
    && (s.depth.Some? <==> target in s.dist)
    && (s.depth.Some? ==> s.depth.value == s.dist[target])
  }

  /** The queue holds the frontier: at depth `d` or `d + 1`, in order; everything else is at most at `d`. */
  ghost predicate QueueOk(s: Search, d: nat) {
    && Distinct(s.queue)
    && (forall x :: x in s.queue ==> x in s.dist && d <= s.dist[x])
    && (forall i, j :: 0 <= i < j < |s.queue| && s.queue[i] in s.dist && s.queue[j] in s.dist ==>
          s.dist[s.queue[i]] <= s.dist[s.queue[j]])
    && (forall x :: x in s.dist ==> s.dist[x] <= d + 1)
    && (forall x :: x in s.dist && x !in s.queue ==> s.dist[x] <= d)
    && (forall y, u, e :: y in s.preds && (u, e) in s.preds[y] ==> u !in s.queue)
  }

  ghost predicate DoneOk(adj: Adjacency, s: Search, except: set<NodeId>) {
    !s.truncated ==>
      forall x :: x in s.dist && x !in s.queue && x !in except && (s.depth.Some? ==> s.dist[x] < s.depth.value) ==>
        Expanded(adj, s.dist, s.preds, x)
  }

  /** While `cur` is expanded: the first `k` of its steps are accounted for, and only those. */
  ghost predicate Partial(adj: Adjacency, s: Search, cur: NodeId, k: nat)
    requires cur in s.dist
  {
    var steps := Neighbours(adj, cur);
    && k <= |steps|
    && (!s.truncated ==> forall i :: 0 <= i < k ==> Accounted(s.dist, s.preds, cur, steps[i].0, steps[i].1))
    && (forall y, e :: y in s.preds && (cur, e) in s.preds[y] ==> (e, y) in steps[..k])
  }

  ghost predicate ExpandInv(adj: Adjacency, source: NodeId, target: NodeId, b: Bounds, s: Search, cur: NodeId, k: nat) {
    && cur in s.dist && cur !in s.queue && s.dist[cur] < b.maxHops
    && TreeOk(adj, source, s.dist, s.preds) && LimitsOk(b, target, s) && QueueOk(s, s.dist[cur])
    && DoneOk(adj, s, {cur}) && Partial(adj, s, cur, k)
  }

  lemma DiscoverKeepsTree(adj: Adjacency, source: NodeId, dist: map<NodeId, nat>, preds: Predecessors,
                          cur: NodeId, e: EdgeId, y: NodeId)
    requires TreeOk(adj, source, dist, preds) && cur in dist && y !in dist && Step(adj, cur, e, y)
    ensures TreeOk(adj, source, dist[y := dist[cur] + 1], preds[y := Preds(preds, y) + [(cur, e)]])
  {
  }

  lemma RecordKeepsTree(adj: Adjacency, source: NodeId, dist: map<NodeId, nat>, preds: Predecessors,
                        cur: NodeId, e: EdgeId, y: NodeId)
    requires TreeOk(adj, source, dist, preds) && cur in dist && y in dist && Step(adj, cur, e, y)
    requires dist[y] == dist[cur] + 1 && (cur, e) !in Preds(preds, y)
    ensures TreeOk(adj, source, dist, preds[y := Preds(preds, y) + [(cur, e)]])
  {
  }

  /** The step being looked at has not been recorded yet. */
  lemma NotYetRecorded(adj: Adjacency, s: Search, cur: NodeId, k: nat)
    requires OnlyLoopsRepeat(adj) && cur in s.dist && Partial(adj, s, cur, k) && k < |Neighbours(adj, cur)|
    requires Neighbours(adj, cur)[k].1 != cur
    ensures (cur, Neighbours(adj, cur)[k].0) !in Preds(s.preds, Neighbours(adj, cur)[k].1)
  {
    var steps := Neighbours(adj, cur);
    forall i | 0 <= i < k ensures steps[i] != steps[k] {
      assert adj[cur][i] == steps[i] && adj[cur][k] == steps[k];
    }
    var seen := steps[..k];
    assert steps[k] !in seen;
    var (e, y) := steps[k];
    assert y in s.preds && (cur, e) in s.preds[y] ==> (e, y) in seen;
  }

  /** The three things a visit can do, apart from setting the target's depth. */
  lemma VisitShape(s: Search, b: Bounds, target: NodeId, cur: NodeId, e: EdgeId, y: NodeId)
    requires cur in s.dist
    ensures var s' := Visit(s, b, target, cur, e, y);
            || (s'.dist == s.dist && s'.queue == s.queue && s'.preds == s.preds)
            || (y in s.dist && s.dist[y] == s.dist[cur] + 1 && s'.dist == s.dist && s'.queue == s.queue
                && s'.preds == s.preds[y := Preds(s.preds, y) + [(cur, e)]])
            || (y !in s.dist && s'.dist == s.dist[y := s.dist[cur] + 1] && s'.queue == s.queue + [y]
                && s'.preds == s.preds[y := Preds(s.preds, y) + [(cur, e)]])
  {
  }

  /** The two things that can be written keep the tree. */
  lemma WritesKeepTree(adj: Adjacency, source: NodeId, s: Search, cur: NodeId, k: nat)
    requires OnlyLoopsRepeat(adj) && cur in s.dist && k < |Neighbours(adj, cur)|
    requires TreeOk(adj, source, s.dist, s.preds) && Partial(adj, s, cur, k)
    ensures var (e, y) := Neighbours(adj, cur)[k];
            var preds' := s.preds[y := Preds(s.preds, y) + [(cur, e)]];
            && (y !in s.dist ==> TreeOk(adj, source, s.dist[y := s.dist[cur] + 1], preds'))
            && (y in s.dist && s.dist[y] == s.dist[cur] + 1 ==> TreeOk(adj, source, s.dist, preds'))
  {
    var (e, y) := Neighbours(adj, cur)[k];
    assert Step(adj, cur, e, y);
    if y !in s.dist {
      DiscoverKeepsTree(adj, source, s.dist, s.preds, cur, e, y);
    } else if s.dist[y] == s.dist[cur] + 1 {
      NotYetRecorded(adj, s, cur, k);
      RecordKeepsTree(adj, source, s.dist, s.preds, cur, e, y);
    }
  }

  lemma VisitKeepsTree(adj: Adjacency, source: NodeId, target: NodeId, b: Bounds, s: Search, cur: NodeId, k: nat)
    requires OnlyLoopsRepeat(adj) && cur in s.dist && k < |Neighbours(adj, cur)|
    requires TreeOk(adj, source, s.dist, s.preds) && Partial(adj, s, cur, k)
    ensures var s' := Visit(s, b, target, cur, Neighbours(adj, cur)[k].0, Neighbours(adj, cur)[k].1);
            TreeOk(adj, source, s'.dist, s'.preds)
  {
    var (e, y) := Neighbours(adj, cur)[k];
    VisitShape(s, b, target, cur, e, y);
    WritesKeepTree(adj, source, s, cur, k);
  }

  lemma VisitKeepsLimits(b: Bounds, target: NodeId, s: Search, cur: NodeId, e: EdgeId, y: NodeId)
    requires cur in s.dist && s.dist[cur] < b.maxHops && LimitsOk(b, target, s)
    ensures LimitsOk(b, target, Visit(s, b, target, cur, e, y))
  {
  }

  lemma DiscoverKeepsQueue(s: Search, cur: NodeId, y: NodeId)
    requires cur in s.dist && cur !in s.queue && QueueOk(s, s.dist[cur]) && y !in s.dist
    requires forall x, u, e :: x in s.preds && (u, e) in s.preds[x] ==> u in s.dist
    ensures QueueOk(Discover(s, cur, y), s.dist[cur]) && cur !in Discover(s, cur, y).queue
  {
    var s' := Discover(s, cur, y);
    assert forall i :: 0 <= i < |s.queue| ==> s'.queue[i] == s.queue[i] && s.queue[i] in s.queue;
    assert forall i :: 0 <= i < |s.queue| ==> s'.dist[s.queue[i]] == s.dist[s.queue[i]];
  }

  lemma RecordKeepsQueue(s: Search, cur: NodeId, e: EdgeId, y: NodeId)
    requires cur in s.dist && cur !in s.queue && QueueOk(s, s.dist[cur])
    ensures QueueOk(Record(s, cur, e, y), s.dist[cur])
  {
  }

  lemma VisitKeepsQueue(b: Bounds, target: NodeId, s: Search, cur: NodeId, e: EdgeId, y: NodeId)
    requires cur in s.dist && cur !in s.queue && QueueOk(s, s.dist[cur])
    requires forall x, u, e :: x in s.preds && (u, e) in s.preds[x] ==> u in s.dist
    ensures var s' := Visit(s, b, target, cur, e, y);
            QueueOk(s', s.dist[cur]) && cur in s'.dist && s'.dist[cur] == s.dist[cur] && cur !in s'.queue
  {
    VisitShape(s, b, target, cur, e, y);
    if y !in s.dist {
      DiscoverKeepsQueue(s, cur, y);
      RecordKeepsQueue(Discover(s, cur, y), cur, e, y);
    } else {
      RecordKeepsQueue(s, cur, e, y);
    }
  }

  lemma VisitCounts(s: Search, b: Bounds, target: NodeId, cur: NodeId, e: EdgeId, y: NodeId)
    requires cur in s.dist
    ensures var s' := Visit(s, b, target, cur, e, y);
            |s'.dist| - |s'.queue| == |s.dist| - |s.queue| && |s'.dist| >= |s.dist|
  {
  }

  /** Appending an entry keeps what is accounted for. */
  lemma VisitKeepsAccounted(s: Search, b: Bounds, target: NodeId, cur: NodeId, e: EdgeId, y: NodeId,
                            x: NodeId, f: EdgeId, z: NodeId)
    requires cur in s.dist && x in s.dist && Accounted(s.dist, s.preds, x, f, z)
    ensures var s' := Visit(s, b, target, cur, e, y);
            x in s'.dist && s'.dist[x] == s.dist[x] && Accounted(s'.dist, s'.preds, x, f, z)
  {
  }

  lemma VisitAccounts(s: Search, b: Bounds, target: NodeId, cur: NodeId, e: EdgeId, y: NodeId)
    requires cur in s.dist && (y in s.dist ==> s.dist[y] <= s.dist[cur] + 1)
    ensures var s' := Visit(s, b, target, cur, e, y);
            cur in s'.dist && (!s'.truncated ==> Accounted(s'.dist, s'.preds, cur, e, y))
  {
  }

  lemma VisitKeepsDone(adj: Adjacency, s: Search, b: Bounds, target: NodeId, cur: NodeId, e: EdgeId, y: NodeId)
    requires cur in s.dist && DoneOk(adj, s, {cur}) && LimitsOk(b, target, s)
    ensures DoneOk(adj, Visit(s, b, target, cur, e, y), {cur})
  {
  }

  lemma VisitKeepsPartial(adj: Adjacency, s: Search, b: Bounds, target: NodeId, cur: NodeId, k: nat)
    requires cur in s.dist && Partial(adj, s, cur, k) && k < |Neighbours(adj, cur)|
    requires forall x :: x in s.dist ==> s.dist[x] <= s.dist[cur] + 1
    ensures var s' := Visit(s, b, target, cur, Neighbours(adj, cur)[k].0, Neighbours(adj, cur)[k].1);
            cur in s'.dist && Partial(adj, s', cur, k + 1)
  {
    var steps := Neighbours(adj, cur);
    var (e, y) := steps[k];
    var s' := Visit(s, b, target, cur, e, y);
    VisitAccounts(s, b, target, cur, e, y);
    if !s'.truncated {
      forall i | 0 <= i < k ensures Accounted(s'.dist, s'.preds, cur, steps[i].0, steps[i].1) {
        VisitKeepsAccounted(s, b, target, cur, e, y, cur, steps[i].0, steps[i].1);
      }
    }
    assert steps[..k + 1] == steps[..k] + [steps[k]];
    forall z, f | z in s'.preds && (cur, f) in s'.preds[z] ensures (f, z) in steps[..k + 1] {
      assert (z == y && f == e) || (z in s.preds && (cur, f) in s.preds[z]);
    }
  }

  lemma PredecessorsAreFound(adj: Adjacency, source: NodeId, dist: map<NodeId, nat>, preds: Predecessors)
    requires TreeOk(adj, source, dist, preds)
    ensures forall x, u, e :: x in preds && (u, e) in preds[x] ==> u in dist
  {
  }

  lemma VisitKeepsShape(adj: Adjacency, source: NodeId, target: NodeId, b: Bounds, s: Search, cur: NodeId, k: nat)
    requires OnlyLoopsRepeat(adj) && ExpandInv(adj, source, target, b, s, cur, k) && k < |Neighbours(adj, cur)|
    ensures var s' := Visit(s, b, target, cur, Neighbours(adj, cur)[k].0, Neighbours(adj, cur)[k].1);
            && cur in s'.dist && cur !in s'.queue && s'.dist[cur] == s.dist[cur]
            && TreeOk(adj, source, s'.dist, s'.preds) && LimitsOk(b, target, s') && QueueOk(s', s.dist[cur])
  {
    var (e, y) := Neighbours(adj, cur)[k];
    PredecessorsAreFound(adj, source, s.dist, s.preds);
    VisitKeepsTree(adj, source, target, b, s, cur, k);
    VisitKeepsLimits(b, target, s, cur, e, y);
    VisitKeepsQueue(b, target, s, cur, e, y);
  }

  lemma VisitKeepsProgress(adj: Adjacency, source: NodeId, target: NodeId, b: Bounds, s: Search, cur: NodeId, k: nat)
    requires OnlyLoopsRepeat(adj) && ExpandInv(adj, source, target, b, s, cur, k) && k < |Neighbours(adj, cur)|
    ensures var s' := Visit(s, b, target, cur, Neighbours(adj, cur)[k].0, Neighbours(adj, cur)[k].1);
            cur in s'.dist && DoneOk(adj, s', {cur}) && Partial(adj, s', cur, k + 1)
  {
    var (e, y) := Neighbours(adj, cur)[k];
    VisitKeepsDone(adj, s, b, target, cur, e, y);
    VisitKeepsPartial(adj, s, b, target, cur, k);
  }

  lemma VisitKeepsInv(adj: Adjacency, source: NodeId, target: NodeId, b: Bounds, s: Search, cur: NodeId, k: nat)
    requires OnlyLoopsRepeat(adj) && ExpandInv(adj, source, target, b, s, cur, k) && k < |Neighbours(adj, cur)|
    ensures var s' := Visit(s, b, target, cur, Neighbours(adj, cur)[k].0, Neighbours(adj, cur)[k].1);
            ExpandInv(adj, source, target, b, s', cur, k + 1) && s'.dist[cur] == s.dist[cur]
  {
    VisitKeepsShape(adj, source, target, b, s, cur, k);
    VisitKeepsProgress(adj, source, target, b, s, cur, k);
  }

  // ----- why a search may be cut short -----

  /** A search for `t` has to expand the nodes at distance `k`: the hop limit allows it and `t` lies farther out. */
  ghost predicate MustExpand(g: Snapshot, b: Bounds, directed: bool, s: NodeId, t: NodeId, k: nat) {
    k < b.maxHops && !Within(g, b.scope, directed, s, t, k)
  }

  /** More nodes than may be visited lie no farther than one step behind nodes to expand. */
  ghost predicate TooManyToVisit(g: Snapshot, b: Bounds, directed: bool, s: NodeId, t: NodeId) {
    exists k: nat :: MustExpand(g, b, directed, s, t, k) && |Ball(g, b.scope, directed, s, k + 1)| > b.maxVisited
  }

  /** The nodes at distance `k` or `k + 1`. */
  ghost function TwoLayers(g: Snapshot, scope: Scope, directed: bool, s: NodeId, k: nat): set<NodeId> {
    Ball(g, scope, directed, s, k + 1) - if k == 0 then {} else Ball(g, scope, directed, s, k - 1)
  }

  /** The nodes at distance `k` to expand and those one step behind are too many for the queue. */
  ghost predicate MayOverflow(g: Snapshot, b: Bounds, directed: bool, s: NodeId, t: NodeId) {
    exists k: nat :: MustExpand(g, b, directed, s, t, k) && |TwoLayers(g, b.scope, directed, s, k)| > b.maxQueue + 1
  }

  /** The nodes one step behind those to expand are by themselves too many for the queue. */
  ghost predicate MustOverflow(g: Snapshot, b: Bounds, directed: bool, s: NodeId, t: NodeId) {
    exists k: nat :: MustExpand(g, b, directed, s, t, k)
      && |Ball(g, b.scope, directed, s, k + 1) - Ball(g, b.scope, directed, s, k)| > b.maxQueue
  }

  /** The target is not within the hop limit, and some node is exactly one step farther away than that. */
  ghost predicate HopsRunOut(g: Snapshot, b: Bounds, directed: bool, s: NodeId, t: NodeId) {
    && !Within(g, b.scope, directed, s, t, b.maxHops)
    && exists p, x :: IsShortest(g, b.scope, directed, p, s, x) && |p.edges| == b.maxHops + 1
  }

  ghost predicate CutShort(g: Snapshot, b: Bounds, directed: bool, s: NodeId, t: NodeId) {
    TooManyToVisit(g, b, directed, s, t) || MayOverflow(g, b, directed, s, t) || HopsRunOut(g, b, directed, s, t)
  }

  ghost predicate Walk(adj: Adjacency, p: Path, s: NodeId, t: NodeId) {
    && |p.nodes| == |p.edges| + 1
    && p.nodes[0] == s && p.nodes[|p.edges|] == t
    && (forall i :: 0 <= i < |p.edges| ==> Step(adj, p.nodes[i], p.edges[i], p.nodes[i + 1]))
  }

  lemma WalkIsPath(g: Snapshot, scope: Scope, directed: bool, adj: Adjacency, p: Path, s: NodeId, t: NodeId)
    requires AdjacencySound(g, scope, directed, adj) && Walk(adj, p, s, t)
    ensures IsPath(g, scope, directed, p, s, t)
  {
  }

  lemma PathIsWalk(g: Snapshot, scope: Scope, directed: bool, adj: Adjacency, p: Path, s: NodeId, t: NodeId)
    requires AdjacencyComplete(g, scope, directed, adj) && IsPath(g, scope, directed, p, s, t)
    ensures Walk(adj, p, s, t)
  {
  }

  /** Every node found is at the end of a walk as long as it is deep. */
  lemma {:induction false} FoundByWalk(adj: Adjacency, source: NodeId, dist: map<NodeId, nat>, preds: Predecessors, x: NodeId)
    returns (p: Path)
    requires TreeOk(adj, source, dist, preds) && x in dist
    ensures Walk(adj, p, source, x) && |p.edges| == dist[x]
    decreases dist[x]
  {
    if x == source {
      return Path([x], []);
    }
    var (u, e) := preds[x][0];
    assert (u, e) in preds[x];
    p := FoundByWalk(adj, source, dist, preds, u);
    p := Path(p.nodes + [x], p.edges + [e]);
  }

  lemma FoundIsWithin(g: Snapshot, scope: Scope, directed: bool, adj: Adjacency, source: NodeId, dist: map<NodeId, nat>,
                      preds: Predecessors, x: NodeId)
    requires AdjacencySound(g, scope, directed, adj) && TreeOk(adj, source, dist, preds) && x in dist
    ensures Within(g, scope, directed, source, x, dist[x])
  {
    var p := FoundByWalk(adj, source, dist, preds, x);
    WalkIsPath(g, scope, directed, adj, p, source, x);
  }

  /** One step behind a node found. */
  lemma NextIsWithin(g: Snapshot, scope: Scope, directed: bool, adj: Adjacency, source: NodeId, dist: map<NodeId, nat>,
                     preds: Predecessors, x: NodeId, e: EdgeId, y: NodeId) returns (p: Path)
    requires AdjacencySound(g, scope, directed, adj) && TreeOk(adj, source, dist, preds) && x in dist && Step(adj, x, e, y)
    ensures IsPath(g, scope, directed, p, source, y) && |p.edges| == dist[x] + 1
    ensures Within(g, scope, directed, source, y, dist[x] + 1)
  {
    p := FoundByWalk(adj, source, dist, preds, x);
    p := Path(p.nodes + [y], p.edges + [e]);
    assert Walk(adj, p, source, y);
    WalkIsPath(g, scope, directed, adj, p, source, y);
  }

  /** Every node nearer than `d` has been expanded. */
  ghost predicate NearerExpanded(adj: Adjacency, dist: map<NodeId, nat>, preds: Predecessors, d: nat) {
    forall x :: x in dist && dist[x] < d ==> Expanded(adj, dist, preds, x)
  }

  /** Along a walk, distances grow by at most one a step, as far as nodes were expanded. */
  lemma {:induction false} WalkIsCovered(adj: Adjacency, source: NodeId, dist: map<NodeId, nat>, preds: Predecessors, d: nat,
                                         p: Path, t: NodeId, i: nat)
    requires TreeOk(adj, source, dist, preds) && NearerExpanded(adj, dist, preds, d) && Walk(adj, p, source, t)
    requires i <= |p.edges| && i <= d
    ensures p.nodes[i] in dist && dist[p.nodes[i]] <= i
  {
    if i > 0 {
      WalkIsCovered(adj, source, dist, preds, d, p, t, i - 1);
      assert Expanded(adj, dist, preds, p.nodes[i - 1]);
      assert Step(adj, p.nodes[i - 1], p.edges[i - 1], p.nodes[i - 1 + 1]);
    }
  }

  /** Whatever lies within `k` steps has been found, and is known to. */
  lemma WithinIsFound(g: Snapshot, scope: Scope, directed: bool, adj: Adjacency, source: NodeId, dist: map<NodeId, nat>,
                      preds: Predecessors, d: nat, x: NodeId, k: nat)
    requires AdjacencyComplete(g, scope, directed, adj) && TreeOk(adj, source, dist, preds)
    requires NearerExpanded(adj, dist, preds, d) && k <= d && Within(g, scope, directed, source, x, k)
    ensures x in dist && dist[x] <= k
  {
    var p :| IsPath(g, scope, directed, p, source, x) && |p.edges| <= k;
    PathIsWalk(g, scope, directed, adj, p, source, x);
    WalkIsCovered(adj, source, dist, preds, d, p, x, |p.edges|);
  }

  /** While nodes at distance `cur` are taken up, all nearer ones have been expanded. */
  lemma QueueBehind(adj: Adjacency, s: Search, cur: NodeId)
    requires cur in s.dist && QueueOk(s, s.dist[cur]) && DoneOk(adj, s, {cur}) && !s.truncated
    requires s.depth.Some? ==> s.dist[cur] < s.depth.value
    ensures NearerExpanded(adj, s.dist, s.preds, s.dist[cur])
  {
  }

  /** The adjacency is that of the graph, as far as the search has not been cut short. */
  ghost predicate Faithful(g: Snapshot, b: Bounds, directed: bool, adj: Adjacency, scan: bool) {
    AdjacencySound(g, b.scope, directed, adj) && (!scan ==> AdjacencyComplete(g, b.scope, directed, adj))
  }

  ghost function Layer(dist: map<NodeId, nat>, k: nat): set<NodeId> {
    set x | x in dist && dist[x] == k
  }

  /** A layer fits into the queue, and no node lies behind the target. */
  ghost predicate LayersFit(b: Bounds, s: Search) {
    && |s.queue| <= b.maxQueue
    && (forall k: nat :: |Layer(s.dist, k)| <= b.maxQueue)
    && (s.depth.Some? ==> forall x :: x in s.dist ==> s.dist[x] <= s.depth.value)
  }

  lemma StartFits(b: Bounds, source: NodeId, s: Search)
    requires b.Valid() && s.dist == map[source := 0] && s.queue == [source] && s.depth.None?
    ensures LayersFit(b, s)
  {
    forall k: nat ensures |Layer(s.dist, k)| <= b.maxQueue {
      Cardinality(Layer(s.dist, k), {source});
    }
  }

  lemma DiscoverKeepsLayers(s: Search, cur: NodeId, y: NodeId)
    requires cur in s.dist && QueueOk(s, s.dist[cur]) && y !in s.dist
    ensures |Layer(Discover(s, cur, y).dist, s.dist[cur] + 1)| <= |s.queue| + 1
    ensures forall k: nat :: k != s.dist[cur] + 1 ==> Layer(Discover(s, cur, y).dist, k) == Layer(s.dist, k)
  {
    var queued := set x | x in s.queue;
    DistinctSize(s.queue);
    assert forall x :: x in s.dist && s.dist[x] == s.dist[cur] + 1 ==> x in s.queue;
    Cardinality(Layer(Discover(s, cur, y).dist, s.dist[cur] + 1), queued + {y});
  }

  lemma VisitKeepsLayers(s: Search, b: Bounds, target: NodeId, cur: NodeId, e: EdgeId, y: NodeId)
    requires Ahead(s, cur) && QueueOk(s, s.dist[cur]) && LayersFit(b, s)
    ensures LayersFit(b, Visit(s, b, target, cur, e, y))
  {
    if y !in s.dist && |s.dist| < b.maxVisited && |s.queue| < b.maxQueue {
      DiscoverKeepsLayers(s, cur, y);
      assert Visit(s, b, target, cur, e, y).dist == Discover(s, cur, y).dist;
    }
  }

  /** Only nodes of the graph are found, and the flag is raised only for a reason. */
  ghost predicate Justified(g: Snapshot, b: Bounds, directed: bool, source: NodeId, target: NodeId, scan: bool, s: Search) {
    && s.dist.Keys <= g.nodes.Keys
    && (scan ==> s.truncated) && (s.truncated ==> scan || CutShort(g, b, directed, source, target))
  }

  /** The target has not been found this near. */
  ghost predicate Ahead(s: Search, cur: NodeId) {
    cur in s.dist && (s.depth.Some? ==> s.dist[cur] < s.depth.value)
  }

  lemma TargetIsFarther(g: Snapshot, b: Bounds, directed: bool, adj: Adjacency, source: NodeId, target: NodeId, s: Search,
                        cur: NodeId)
    requires AdjacencyComplete(g, b.scope, directed, adj) && TreeOk(adj, source, s.dist, s.preds) && LimitsOk(b, target, s)
    requires Ahead(s, cur) && NearerExpanded(adj, s.dist, s.preds, s.dist[cur])
    ensures !Within(g, b.scope, directed, source, target, s.dist[cur])
  {
    if Within(g, b.scope, directed, source, target, s.dist[cur]) {
      WithinIsFound(g, b.scope, directed, adj, source, s.dist, s.preds, s.dist[cur], target, s.dist[cur]);
    }
  }

  /** Everything found and the next node are within one step of the node being expanded. */
  lemma FoundIsInBall(g: Snapshot, b: Bounds, directed: bool, adj: Adjacency, source: NodeId, s: Search,
                      cur: NodeId, e: EdgeId, y: NodeId)
    requires AdjacencySound(g, b.scope, directed, adj) && TreeOk(adj, source, s.dist, s.preds)
    requires cur in s.dist && QueueOk(s, s.dist[cur]) && s.dist.Keys <= g.nodes.Keys && Step(adj, cur, e, y)
    ensures s.dist.Keys + {y} <= Ball(g, b.scope, directed, source, s.dist[cur] + 1)
  {
    var d := s.dist[cur];
    forall x | x in s.dist ensures Within(g, b.scope, directed, source, x, d + 1) {
      FoundIsWithin(g, b.scope, directed, adj, source, s.dist, s.preds, x);
      WithinMore(g, b.scope, directed, source, x, s.dist[x], d + 1);
    }
    var p := NextIsWithin(g, b.scope, directed, adj, source, s.dist, s.preds, cur, e, y);
  }

  lemma WithinMore(g: Snapshot, scope: Scope, directed: bool, s: NodeId, t: NodeId, k: nat, n: nat)
    requires Within(g, scope, directed, s, t, k) && k <= n
    ensures Within(g, scope, directed, s, t, n)
  {
  }

  /** The queue, the node being expanded and the next one lie in two adjacent layers. */
  lemma QueueIsInTwoLayers(g: Snapshot, b: Bounds, directed: bool, adj: Adjacency, source: NodeId, s: Search,
                           cur: NodeId, e: EdgeId, y: NodeId)
    requires AdjacencySound(g, b.scope, directed, adj) && AdjacencyComplete(g, b.scope, directed, adj)
    requires TreeOk(adj, source, s.dist, s.preds) && cur in s.dist && NearerExpanded(adj, s.dist, s.preds, s.dist[cur])
    requires QueueOk(s, s.dist[cur]) && s.dist.Keys <= g.nodes.Keys && Step(adj, cur, e, y) && y !in s.dist
    ensures (set x | x in s.queue) + {cur, y} <= TwoLayers(g, b.scope, directed, source, s.dist[cur])
  {
    var d := s.dist[cur];
    FoundIsInBall(g, b, directed, adj, source, s, cur, e, y);
    forall x | x in s.queue || x == cur || x == y
      ensures x in TwoLayers(g, b.scope, directed, source, d)
    {
      assert x in s.dist.Keys + {y};
      if d > 0 && Within(g, b.scope, directed, source, x, d - 1) {
        WithinIsFound(g, b.scope, directed, adj, source, s.dist, s.preds, d, x, d - 1);
      }
    }
  }

  /** The situation in which a step to an unknown node is looked at. */
  ghost predicate AtUnknown(g: Snapshot, b: Bounds, directed: bool, adj: Adjacency, source: NodeId, target: NodeId, s: Search,
                            cur: NodeId, e: EdgeId, y: NodeId) {
    && AdjacencySound(g, b.scope, directed, adj) && AdjacencyComplete(g, b.scope, directed, adj)
    && TreeOk(adj, source, s.dist, s.preds) && LimitsOk(b, target, s) && Ahead(s, cur) && QueueOk(s, s.dist[cur])
    && NearerExpanded(adj, s.dist, s.preds, s.dist[cur]) && s.dist.Keys <= g.nodes.Keys
    && Step(adj, cur, e, y) && y !in s.dist
  }

  /** A node is not visited for want of room only if the graph is too large for the limit. */
  lemma VisitLimitCuts(g: Snapshot, b: Bounds, directed: bool, adj: Adjacency, source: NodeId, target: NodeId, s: Search,
                       cur: NodeId, e: EdgeId, y: NodeId)
    requires AtUnknown(g, b, directed, adj, source, target, s, cur, e, y) && s.dist[cur] < b.maxHops
    requires |s.dist| >= b.maxVisited
    ensures TooManyToVisit(g, b, directed, source, target)
  {
    var d := s.dist[cur];
    TargetIsFarther(g, b, directed, adj, source, target, s, cur);
    FoundIsInBall(g, b, directed, adj, source, s, cur, e, y);
    assert |s.dist.Keys| == |s.dist|;
    LargeBall(g, b, directed, source, target, d, s.dist.Keys, y);
  }

  lemma LargeBall(g: Snapshot, b: Bounds, directed: bool, source: NodeId, target: NodeId, d: nat, found: set<NodeId>, y: NodeId)
    requires MustExpand(g, b, directed, source, target, d) && y !in found && |found| >= b.maxVisited
    requires found + {y} <= Ball(g, b.scope, directed, source, d + 1)
    ensures TooManyToVisit(g, b, directed, source, target)
  {
    Cardinality(found + {y}, Ball(g, b.scope, directed, source, d + 1));
  }

  lemma QueueLimitCuts(g: Snapshot, b: Bounds, directed: bool, adj: Adjacency, source: NodeId, target: NodeId, s: Search,
                       cur: NodeId, e: EdgeId, y: NodeId)
    requires AtUnknown(g, b, directed, adj, source, target, s, cur, e, y) && s.dist[cur] < b.maxHops
    requires |s.queue| >= b.maxQueue && cur !in s.queue
    ensures MayOverflow(g, b, directed, source, target)
  {
    var d := s.dist[cur];
    TargetIsFarther(g, b, directed, adj, source, target, s, cur);
    assert MustExpand(g, b, directed, source, target, d);
    QueueIsInTwoLayers(g, b, directed, adj, source, s, cur, e, y);
    var queued := set x | x in s.queue;
    DistinctSize(s.queue);
    LargeLayers(g, b, directed, source, target, d, queued, cur, y);
  }

  lemma LargeLayers(g: Snapshot, b: Bounds, directed: bool, source: NodeId, target: NodeId, d: nat, queued: set<NodeId>,
                    cur: NodeId, y: NodeId)
    requires MustExpand(g, b, directed, source, target, d) && cur != y && cur !in queued && y !in queued
    requires queued + {cur, y} <= TwoLayers(g, b.scope, directed, source, d) && |queued| >= b.maxQueue
    ensures MayOverflow(g, b, directed, source, target)
  {
    Cardinality(queued + {cur, y}, TwoLayers(g, b.scope, directed, source, d));
    assert |queued + {cur, y}| == |queued| + 2;
  }

  lemma HopLimitCuts(g: Snapshot, b: Bounds, directed: bool, adj: Adjacency, source: NodeId, target: NodeId, s: Search,
                     cur: NodeId, e: EdgeId, y: NodeId)
    requires AtUnknown(g, b, directed, adj, source, target, s, cur, e, y) && s.dist[cur] >= b.maxHops
    ensures HopsRunOut(g, b, directed, source, target)
  {
    TargetIsFarther(g, b, directed, adj, source, target, s, cur);
    var p := NextIsWithin(g, b.scope, directed, adj, source, s.dist, s.preds, cur, e, y);
    forall q | IsPath(g, b.scope, directed, q, source, y) ensures |p.edges| <= |q.edges| {
      if |q.edges| <= b.maxHops {
        assert Within(g, b.scope, directed, source, y, b.maxHops);
        WithinIsFound(g, b.scope, directed, adj, source, s.dist, s.preds, b.maxHops, y, b.maxHops);
      }
    }
    assert IsShortest(g, b.scope, directed, p, source, y);
  }

  lemma VisitStaysJustified(g: Snapshot, b: Bounds, directed: bool, adj: Adjacency, source: NodeId, target: NodeId, scan: bool,
                            s: Search, cur: NodeId, k: nat)
    requires Faithful(g, b, directed, adj, scan) && ExpandInv(adj, source, target, b, s, cur, k) && Ahead(s, cur)
    requires k < |Neighbours(adj, cur)| && Justified(g, b, directed, source, target, scan, s)
    ensures var s' := Visit(s, b, target, cur, Neighbours(adj, cur)[k].0, Neighbours(adj, cur)[k].1);
            Justified(g, b, directed, source, target, scan, s') && Ahead(s', cur)
  {
    var (e, y) := Neighbours(adj, cur)[k];
    assert Step(adj, cur, e, y);
    assert Arc(g, b.scope, directed, cur, e, y);
    if !s.truncated && y !in s.dist {
      QueueBehind(adj, s, cur);
      if |s.dist| >= b.maxVisited {
        VisitLimitCuts(g, b, directed, adj, source, target, s, cur, e, y);
      } else if |s.queue| >= b.maxQueue {
        QueueLimitCuts(g, b, directed, adj, source, target, s, cur, e, y);
      }
    }
  }

  // ----- the search loop -----

  ghost predicate SearchInv(adj: Adjacency, source: NodeId, target: NodeId, b: Bounds, s: Search, d: nat) {
    && TreeOk(adj, source, s.dist, s.preds) && LimitsOk(b, target, s) && QueueOk(s, d) && DoneOk(adj, s, {})
  }

  /** Expand one node: look along each of its steps, in edge order. */
  method Expand(ghost g: Snapshot, b: Bounds, ghost directed: bool, adj: Adjacency, source: NodeId, target: NodeId,
                ghost scan: bool, s: Search, cur: NodeId)
    returns (s': Search)
    requires Faithful(g, b, directed, adj, scan) && ExpandInv(adj, source, target, b, s, cur, 0) && Ahead(s, cur)
    requires Justified(g, b, directed, source, target, scan, s) && LayersFit(b, s)
    ensures Justified(g, b, directed, source, target, scan, s') && LayersFit(b, s')
    ensures ExpandInv(adj, source, target, b, s', cur, |Neighbours(adj, cur)|) && s'.dist[cur] == s.dist[cur]
    ensures |s'.dist| - |s'.queue| == |s.dist| - |s.queue| && |s'.dist| >= |s.dist|
  {
    s' := s;
    var steps := Neighbours(adj, cur);
    for k := 0 to |steps|
      invariant ExpandInv(adj, source, target, b, s', cur, k) && s'.dist[cur] == s.dist[cur]
      invariant |s'.dist| - |s'.queue| == |s.dist| - |s.queue| && |s'.dist| >= |s.dist|
      invariant Justified(g, b, directed, source, target, scan, s') && Ahead(s', cur) && LayersFit(b, s')
    {
      VisitStaysJustified(g, b, directed, adj, source, target, scan, s', cur, k);
      VisitKeepsLayers(s', b, target, cur, steps[k].0, steps[k].1);
      VisitKeepsInv(adj, source, target, b, s', cur, k);
      VisitCounts(s', b, target, cur, steps[k].0, steps[k].1);
      s' := Visit(s', b, target, cur, steps[k].0, steps[k].1);
    }
  }

  lemma PopToExpand(adj: Adjacency, source: NodeId, target: NodeId, b: Bounds, s: Search, d: nat)
    requires SearchInv(adj, source, target, b, s, d) && |s.queue| > 0
    ensures var cur := s.queue[0];
            var popped := s.(queue := s.queue[1..]);
            && cur in s.dist && cur !in popped.queue
            && QueueOk(popped, s.dist[cur]) && LimitsOk(b, target, popped) && DoneOk(adj, popped, {cur})
            && Partial(adj, popped, cur, 0)
  {
  }

  /** The hop limit cuts the search only if an unknown node lies beyond. */
  method BeyondHops(adj: Adjacency, s: Search, cur: NodeId) returns (beyond: bool)
    ensures beyond <==> exists e, y :: Step(adj, cur, e, y) && y !in s.dist
  {
    var steps := Neighbours(adj, cur);
    for k := 0 to |steps|
      invariant forall j :: 0 <= j < k ==> steps[j].1 in s.dist
    {
      if steps[k].1 !in s.dist {
        assert Step(adj, cur, steps[k].0, steps[k].1);
        return true;
      }
    }
    forall e, y | Step(adj, cur, e, y) ensures y in s.dist {
      var i :| 0 <= i < |steps| && steps[i] == (e, y);
    }
    return false;
  }

  lemma BeyondIsCut(g: Snapshot, b: Bounds, directed: bool, adj: Adjacency, source: NodeId, target: NodeId, s: Search,
                    cur: NodeId)
    requires Faithful(g, b, directed, adj, false) && TreeOk(adj, source, s.dist, s.preds) && LimitsOk(b, target, s)
    requires Ahead(s, cur) && QueueOk(s, s.dist[cur]) && DoneOk(adj, s, {cur}) && s.dist.Keys <= g.nodes.Keys
    requires !s.truncated && s.dist[cur] >= b.maxHops && exists e, y :: Step(adj, cur, e, y) && y !in s.dist
    ensures HopsRunOut(g, b, directed, source, target)
  {
    var e, y :| Step(adj, cur, e, y) && y !in s.dist;
    QueueBehind(adj, s, cur);
    HopLimitCuts(g, b, directed, adj, source, target, s, cur, e, y);
  }

  lemma SkipKeepsInv(adj: Adjacency, source: NodeId, target: NodeId, b: Bounds, s: Search, cur: NodeId)
    requires TreeOk(adj, source, s.dist, s.preds) && LimitsOk(b, target, s)
    requires cur in s.dist && cur !in s.queue && QueueOk(s, s.dist[cur]) && DoneOk(adj, s, {cur})
    requires (s.depth.Some? && s.dist[cur] >= s.depth.value)
             || s.truncated || (s.dist[cur] >= b.maxHops && forall e, y :: Step(adj, cur, e, y) ==> y in s.dist)
    ensures SearchInv(adj, source, target, b, s, s.dist[cur])
  {
  }

  lemma ExpandedKeepsInv(adj: Adjacency, source: NodeId, target: NodeId, b: Bounds, s: Search, cur: NodeId)
    requires ExpandInv(adj, source, target, b, s, cur, |Neighbours(adj, cur)|)
    ensures SearchInv(adj, source, target, b, s, s.dist[cur])
  {
  }

  /** One round: take the head of the queue and skip it, cut it at the hop limit, or expand it. */
  method Advance(ghost g: Snapshot, b: Bounds, ghost directed: bool, adj: Adjacency, source: NodeId, target: NodeId,
                 ghost scan: bool, s: Search, ghost d: nat)
    returns (s': Search, ghost d': nat)
    requires Faithful(g, b, directed, adj, scan) && SearchInv(adj, source, target, b, s, d) && |s.queue| > 0
    requires Justified(g, b, directed, source, target, scan, s) && LayersFit(b, s)
    ensures Justified(g, b, directed, source, target, scan, s') && LayersFit(b, s')
    ensures SearchInv(adj, source, target, b, s', d')
    ensures |s'.dist| - |s'.queue| == |s.dist| - |s.queue| + 1 && |s'.dist| >= |s.dist|
  {
    PopToExpand(adj, source, target, b, s, d);
    var cur := s.queue[0];
    var depth := s.dist[cur];
    d' := depth;
    s' := s.(queue := s.queue[1..]);
    if s'.depth.Some? && depth >= s'.depth.value {
      SkipKeepsInv(adj, source, target, b, s', cur);
    } else if depth >= b.maxHops {
      var beyond := BeyondHops(adj, s', cur);
      if beyond && !s'.truncated {
        BeyondIsCut(g, b, directed, adj, source, target, s', cur);
      }
      s' := s'.(truncated := s'.truncated || beyond);
      SkipKeepsInv(adj, source, target, b, s', cur);
    } else {
      s' := Expand(g, b, directed, adj, source, target, scan, s', cur);
      ExpandedKeepsInv(adj, source, target, b, s', cur);
    }
  }

  /** The search loop. A limit on the number of visited nodes could never fire inside it: the same limit
      already stops nodes from being discovered, which is what the assertion shows. */
  method BreadthFirst(ghost g: Snapshot, b: Bounds, ghost directed: bool, adj: Adjacency, source: NodeId, target: NodeId,
                      scanTruncated: bool)
    returns (s: Search, ghost d: nat)
    requires Faithful(g, b, directed, adj, scanTruncated) && source in g.nodes && source != target && b.Valid()
    ensures Justified(g, b, directed, source, target, scanTruncated, s) && LayersFit(b, s)
    ensures SearchInv(adj, source, target, b, s, d) && s.queue == []
  {
    s, d := Search(map[source := 0], map[], [source], None, scanTruncated), 0;
    StartFits(b, source, s);
    var visited := 0;
    while s.queue != []
      invariant SearchInv(adj, source, target, b, s, d)
      invariant visited + |s.queue| == |s.dist|
      invariant Justified(g, b, directed, source, target, scanTruncated, s) && LayersFit(b, s)
      decreases b.maxVisited - |s.dist|, |s.queue|
    {
      s, d := Advance(g, b, directed, adj, source, target, scanTruncated, s, d);
      visited := visited + 1;
      assert visited <= |s.dist| <= b.maxVisited;
    }
  }

  // ----- what a finished search means -----

  /** A path that descends along recorded predecessors. */
  ghost predicate Recorded(preds: Predecessors, p: Path, s: NodeId, t: NodeId) {
    && |p.nodes| == |p.edges| + 1
    && p.nodes[0] == s && p.nodes[|p.edges|] == t
    && (forall i :: 0 <= i < |p.edges| ==> (p.nodes[i], p.edges[i]) in Preds(preds, p.nodes[i + 1]))
  }

  ghost predicate Finished(adj: Adjacency, source: NodeId, target: NodeId, s: Search) {
    && TreeOk(adj, source, s.dist, s.preds) && target != source
    && (s.depth.Some? <==> target in s.dist) && (s.depth.Some? ==> s.depth.value == s.dist[target])
    && (!s.truncated ==>
          forall x :: x in s.dist && (s.depth.Some? ==> s.dist[x] < s.depth.value) ==> Expanded(adj, s.dist, s.preds, x))
  }

  lemma {:induction false} RecordedClimbs(adj: Adjacency, source: NodeId, dist: map<NodeId, nat>, preds: Predecessors,
                                          p: Path, t: NodeId, i: nat)
    requires TreeOk(adj, source, dist, preds) && Recorded(preds, p, source, t) && i <= |p.edges|
    ensures p.nodes[i] in dist && dist[p.nodes[i]] == i
  {
    if i > 0 {
      RecordedClimbs(adj, source, dist, preds, p, t, i - 1);
      var (u, e, x) := (p.nodes[i - 1], p.edges[i - 1], p.nodes[i - 1 + 1]);
      assert x in preds && (u, e) in preds[x];
    }
  }

  /** Recorded paths are simple walks, all as long as the target is deep. */
  lemma RecordedIsSimpleWalk(adj: Adjacency, source: NodeId, target: NodeId, s: Search, p: Path)
    requires Finished(adj, source, target, s) && Recorded(s.preds, p, source, target)
    ensures s.depth == Some(|p.edges|) && Walk(adj, p, source, target) && IsSimple(p)
  {
    forall i | 0 <= i <= |p.edges| ensures p.nodes[i] in s.dist && s.dist[p.nodes[i]] == i {
      RecordedClimbs(adj, source, s.dist, s.preds, p, target, i);
    }
    forall i | 0 <= i < |p.edges| ensures Step(adj, p.nodes[i], p.edges[i], p.nodes[i + 1]) {
      assert (p.nodes[i], p.edges[i]) in Preds(s.preds, p.nodes[i + 1]);
    }
  }

  /** All nodes nearer than the target, or all nodes if it was not found, have been expanded. */
  lemma FinishedNearer(adj: Adjacency, source: NodeId, target: NodeId, s: Search, d: nat)
    requires Finished(adj, source, target, s) && !s.truncated && (s.depth.Some? ==> d <= s.depth.value)
    ensures NearerExpanded(adj, s.dist, s.preds, d)
  {
  }

  /** No walk reaches the target in fewer steps than its depth. */
  lemma NoShorterWalk(adj: Adjacency, source: NodeId, target: NodeId, s: Search, p: Path)
    requires Finished(adj, source, target, s) && !s.truncated && Walk(adj, p, source, target)
    ensures s.depth.Some? && s.depth.value <= |p.edges|
  {
    if s.depth.None? || |p.edges| < s.depth.value {
      FinishedNearer(adj, source, target, s, |p.edges|);
      WalkIsCovered(adj, source, s.dist, s.preds, |p.edges|, p, target, |p.edges|);
    }
  }

  lemma {:induction false} TightFromBehind(adj: Adjacency, source: NodeId, target: NodeId, s: Search, p: Path, i: nat)
    requires Finished(adj, source, target, s) && !s.truncated && Walk(adj, p, source, target)
    requires s.depth == Some(|p.edges|) && i <= |p.edges|
    ensures p.nodes[i] in s.dist && s.dist[p.nodes[i]] == i
    decreases |p.edges| - i
  {
    FinishedNearer(adj, source, target, s, i);
    WalkIsCovered(adj, source, s.dist, s.preds, i, p, target, i);
    if i < |p.edges| {
      TightFromBehind(adj, source, target, s, p, i + 1);
      assert Expanded(adj, s.dist, s.preds, p.nodes[i]);
      assert Step(adj, p.nodes[i], p.edges[i], p.nodes[i + 1]);
    }
  }

  /** Every walk of minimal length is recorded. */
  lemma ShortestIsRecorded(adj: Adjacency, source: NodeId, target: NodeId, s: Search, p: Path)
    requires Finished(adj, source, target, s) && !s.truncated && Walk(adj, p, source, target)
    requires s.depth == Some(|p.edges|)
    ensures Recorded(s.preds, p, source, target)
  {
    forall i | 0 <= i < |p.edges| ensures (p.nodes[i], p.edges[i]) in Preds(s.preds, p.nodes[i + 1]) {
      TightFromBehind(adj, source, target, s, p, i);
      TightFromBehind(adj, source, target, s, p, i + 1);
      assert Expanded(adj, s.dist, s.preds, p.nodes[i]);
      assert Step(adj, p.nodes[i], p.edges[i], p.nodes[i + 1]);
    }
  }

  // ----- reconstruction -----

  predicate PairLeq(a: (NodeId, EdgeId), b: (NodeId, EdgeId)) { a.0 < b.0 || (a.0 == b.0 && a.1 <= b.1) }

  /** A path that is known from some node on to the target; it grows towards the source. */
  function Grow(p: Path, step: (NodeId, EdgeId)): Path {
    Path([step.0] + p.nodes, [step.1] + p.edges)
  }

  /** The predecessor is strictly closer to the source. */
  ghost predicate Closer(dist: map<NodeId, nat>, x: NodeId, step: (NodeId, EdgeId)) {
    x in dist && step.0 in dist && dist[step.0] < dist[x]
  }

  ghost predicate AllCloser(dist: map<NodeId, nat>, x: NodeId, steps: seq<(NodeId, EdgeId)>) {
    forall i :: 0 <= i < |steps| ==> Closer(dist, x, steps[i])
  }

  /** Predecessors lead strictly closer to the source, and there always are some. */
  ghost predicate Descends(source: NodeId, dist: map<NodeId, nat>, preds: Predecessors) {
    && (forall x :: x in dist && x != source ==> |Preds(preds, x)| > 0)
    && (forall x :: AllCloser(dist, x, Preds(preds, x)))
    && (forall x :: Distinct(Preds(preds, x)))
  }

  lemma TreeDescends(adj: Adjacency, source: NodeId, dist: map<NodeId, nat>, preds: Predecessors)
    requires TreeOk(adj, source, dist, preds)
    ensures Descends(source, dist, preds) && Preds(preds, source) == []
  {
    forall x, i | 0 <= i < |Preds(preds, x)| ensures Closer(dist, x, Preds(preds, x)[i]) {
      var (u, e) := Preds(preds, x)[i];
      assert x in preds && (u, e) in preds[x];
    }
  }

  /** The predecessors of `x` in the order they are tried. */
  function Tried(preds: Predecessors, x: NodeId): seq<(NodeId, EdgeId)> { SortBy(Preds(preds, x), PairLeq) }

  lemma TriedIsPreds(source: NodeId, dist: map<NodeId, nat>, preds: Predecessors, x: NodeId)
    requires Descends(source, dist, preds)
    ensures AllCloser(dist, x, Tried(preds, x)) && Distinct(Tried(preds, x))
    ensures forall step :: step in Tried(preds, x) <==> step in Preds(preds, x)
    ensures x in dist && x != source ==> Tried(preds, x) != []
  {
    var (before, tried) := (Preds(preds, x), Tried(preds, x));
    SortByHasTheSame(before, PairLeq);
    forall i | 0 <= i < |tried| ensures Closer(dist, x, tried[i]) {
      assert tried[i] in before;
      var j :| 0 <= j < |before| && before[j] == tried[i];
    }
  }

  ghost predicate Rooted(dist: map<NodeId, nat>, p: Path) { |p.nodes| > 0 && p.nodes[0] in dist }

  /** All completions of `p` to the source, depth first, predecessors in ascending order. */
  ghost function Completions(source: NodeId, dist: map<NodeId, nat>, preds: Predecessors, p: Path): seq<Path>
    requires Descends(source, dist, preds) && Rooted(dist, p)
    decreases dist[p.nodes[0]], 1, 0
  {
    if p.nodes[0] == source then [p]
    else
      TriedIsPreds(source, dist, preds, p.nodes[0]);
      CompletionsFrom(source, dist, preds, p, Tried(preds, p.nodes[0]), 0)
  }

  /** The completions of `p` by way of the steps from index `i` on. */
  ghost function CompletionsFrom(source: NodeId, dist: map<NodeId, nat>, preds: Predecessors, p: Path,
                                 steps: seq<(NodeId, EdgeId)>, i: nat): seq<Path>
    requires Descends(source, dist, preds) && Rooted(dist, p) && AllCloser(dist, p.nodes[0], steps) && i <= |steps|
    decreases dist[p.nodes[0]], 0, |steps| - i
  {
    if i == |steps| then []
    else
      assert Closer(dist, p.nodes[0], steps[i]);
      Completions(source, dist, preds, Grow(p, steps[i])) + CompletionsFrom(source, dist, preds, p, steps, i + 1)
  }

  ghost predicate StackOk(dist: map<NodeId, nat>, stack: seq<Path>) {
    forall i :: 0 <= i < |stack| ==> Rooted(dist, stack[i])
  }

  /** What is still to come: the completions of the stack, top first. */
  ghost function Remaining(source: NodeId, dist: map<NodeId, nat>, preds: Predecessors, stack: seq<Path>): seq<Path>
    requires Descends(source, dist, preds) && StackOk(dist, stack)
  {
    if stack == [] then []
    else Completions(source, dist, preds, stack[|stack| - 1])
         + Remaining(source, dist, preds, stack[..|stack| - 1])
  }

  /** Push the grown paths so that the smallest predecessor ends on top. */
  method PushAll(source: NodeId, ghost dist: map<NodeId, nat>, ghost preds: Predecessors, stack: seq<Path>, p: Path,
                 steps: seq<(NodeId, EdgeId)>) returns (pushed: seq<Path>)
    requires Descends(source, dist, preds) && StackOk(dist, stack) && Rooted(dist, p) && AllCloser(dist, p.nodes[0], steps)
    ensures StackOk(dist, pushed)
    ensures Remaining(source, dist, preds, pushed)
            == CompletionsFrom(source, dist, preds, p, steps, 0) + Remaining(source, dist, preds, stack)
    ensures steps != [] ==> pushed != [] && pushed[|pushed| - 1] == Grow(p, steps[0])
  {
    pushed := stack;
    var i := |steps|;
    assert CompletionsFrom(source, dist, preds, p, steps, i) == [];
    while i > 0
      invariant 0 <= i <= |steps| && StackOk(dist, pushed)
      invariant Remaining(source, dist, preds, pushed)
                == CompletionsFrom(source, dist, preds, p, steps, i) + Remaining(source, dist, preds, stack)
      invariant i < |steps| ==> pushed != [] && pushed[|pushed| - 1] == Grow(p, steps[i])
    {
      i := i - 1;
      PushStep(source, dist, preds, stack, pushed, p, steps, i);
      pushed := pushed + [Grow(p, steps[i])];
    }
  }

  lemma Regroup<T>(a: seq<T>, b: seq<T>, c: seq<T>)
    ensures a + (b + c) == (a + b) + c
  {
  }

  lemma PushStep(source: NodeId, dist: map<NodeId, nat>, preds: Predecessors, stack: seq<Path>, pushed: seq<Path>, p: Path,
                 steps: seq<(NodeId, EdgeId)>, i: nat)
    requires Descends(source, dist, preds) && StackOk(dist, stack) && StackOk(dist, pushed) && Rooted(dist, p)
    requires AllCloser(dist, p.nodes[0], steps) && i < |steps|
    requires Remaining(source, dist, preds, pushed)
             == CompletionsFrom(source, dist, preds, p, steps, i + 1) + Remaining(source, dist, preds, stack)
    ensures StackOk(dist, pushed + [Grow(p, steps[i])])
    ensures Remaining(source, dist, preds, pushed + [Grow(p, steps[i])])
            == CompletionsFrom(source, dist, preds, p, steps, i) + Remaining(source, dist, preds, stack)
  {
    var q := Grow(p, steps[i]);
    assert Closer(dist, p.nodes[0], steps[i]);
    PushOne(source, dist, preds, pushed, q);
    Regroup(Completions(source, dist, preds, q), CompletionsFrom(source, dist, preds, p, steps, i + 1),
            Remaining(source, dist, preds, stack));
  }

  lemma PushOne(source: NodeId, dist: map<NodeId, nat>, preds: Predecessors, stack: seq<Path>, q: Path)
    requires Descends(source, dist, preds) && StackOk(dist, stack) && Rooted(dist, q)
    ensures StackOk(dist, stack + [q])
    ensures Remaining(source, dist, preds, stack + [q])
            == Completions(source, dist, preds, q) + Remaining(source, dist, preds, stack)
  {
  }

  lemma OnlyPath(source: NodeId, dist: map<NodeId, nat>, preds: Predecessors, p: Path)
    requires Descends(source, dist, preds) && Rooted(dist, p)
    ensures StackOk(dist, [p]) && Remaining(source, dist, preds, [p]) == Completions(source, dist, preds, p)
  {
  }

  /** How far the top of the stack is from the source. */
  ghost function TopDistance(dist: map<NodeId, nat>, stack: seq<Path>): nat
    requires StackOk(dist, stack)
  {
    if stack == [] then 0 else dist[stack[|stack| - 1].nodes[0]]
  }

  /** Take the top of the stack: a finished path is a result, any other is grown by one edge. */
  method GrowTop(source: NodeId, ghost dist: map<NodeId, nat>, preds: Predecessors, stack: seq<Path>)
    returns (stack': seq<Path>, found: seq<Path>)
    requires Descends(source, dist, preds) && StackOk(dist, stack) && stack != []
    ensures StackOk(dist, stack') && |found| <= 1
    ensures found + Remaining(source, dist, preds, stack') == Remaining(source, dist, preds, stack)
    ensures found == [] ==> TopDistance(dist, stack') < TopDistance(dist, stack)
  {
    var p := stack[|stack| - 1];
    assert Rooted(dist, p);
    var below := stack[..|stack| - 1];
    if p.nodes[0] == source {
      return below, [p];
    }
    TriedIsPreds(source, dist, preds, p.nodes[0]);
    var steps := Tried(preds, p.nodes[0]);
    assert Closer(dist, p.nodes[0], steps[0]);
    stack' := PushAll(source, dist, preds, below, p, steps);
    found := [];
  }

  /** Depth-first reconstruction from the target back to the source: the first `maxResults` completions. */
  method ReconstructShortestPaths(source: NodeId, target: NodeId, ghost dist: map<NodeId, nat>, preds: Predecessors,
                                  maxResults: nat)
    returns (paths: seq<Path>, truncated: bool)
    requires Descends(source, dist, preds) && target in dist && maxResults > 0
    ensures Rooted(dist, Path([target], []))
    ensures var all := Completions(source, dist, preds, Path([target], []));
            && paths <= all && |paths| <= maxResults && (truncated <==> |paths| < |all|)
            && (truncated ==> |paths| == maxResults)
  {
    ghost var all := Completions(source, dist, preds, Path([target], []));
    var stack := [Path([target], [])];
    paths := [];
    ghost var todo := all;
    OnlyPath(source, dist, preds, stack[0]);
    while stack != [] && |paths| < maxResults
      invariant StackOk(dist, stack) && |paths| <= maxResults
      invariant todo == Remaining(source, dist, preds, stack) && paths + todo == all
      decreases |todo|, TopDistance(dist, stack)
    {
      var found;
      stack, found := GrowTop(source, dist, preds, stack);
      ghost var rest := Remaining(source, dist, preds, stack);
      assert todo == found + rest;
      Regroup(paths, found, rest);
      paths, todo := paths + found, rest;
    }
    truncated := stack != [];
    SomethingRemains(source, dist, preds, stack);
    assert |all| == |paths| + |todo|;
  }

  /** Every unfinished path can be completed, so a non-empty stack means results were cut off. */
  lemma {:induction false} Completable(source: NodeId, dist: map<NodeId, nat>, preds: Predecessors, p: Path)
    requires Descends(source, dist, preds) && Rooted(dist, p)
    ensures |Completions(source, dist, preds, p)| > 0
    decreases dist[p.nodes[0]]
  {
    if p.nodes[0] != source {
      TriedIsPreds(source, dist, preds, p.nodes[0]);
      var steps := Tried(preds, p.nodes[0]);
      assert Closer(dist, p.nodes[0], steps[0]);
      Completable(source, dist, preds, Grow(p, steps[0]));
    }
  }

  lemma SomethingRemains(source: NodeId, dist: map<NodeId, nat>, preds: Predecessors, stack: seq<Path>)
    requires Descends(source, dist, preds) && StackOk(dist, stack)
    ensures stack != [] ==> |Remaining(source, dist, preds, stack)| > 0
  {
    if stack != [] {
      Completable(source, dist, preds, stack[|stack| - 1]);
    }
  }
}
