/** The slice of the graph around one root: layer by layer, within node, edge, queue and hop limits. */
module RootSlice {
  import opened Graph

  datatype Bounds = Bounds(scope: Scope, maxHops: nat, maxNodes: nat, maxEdges: nat, maxQueue: nat, requireInScope: bool)
  {
    predicate Valid() { maxNodes > 0 && maxEdges > 0 && maxQueue > 0 }
  }

  datatype SliceResult = Slice(nodes: set<NodeId>, edges: set<EdgeId>, truncated: bool) | RootUnavailable | RootOutOfScope

  /** The selection so far; the frontier is the layer added last. */
  datatype Selection = Selection(nodes: set<NodeId>, edges: set<EdgeId>, frontier: set<NodeId>, truncated: bool)

  predicate Touches(g: Snapshot, e: EdgeId, nodes: set<NodeId>) {
    e in g.edges && (g.edges[e].source in nodes || g.edges[e].target in nodes)
  }

  /** An edge of the scope at one of `nodes`. */
  predicate Incident(g: Snapshot, b: Bounds, e: EdgeId, nodes: set<NodeId>) {
    EdgeInScope(g, b.scope, e) && Touches(g, e, nodes)
  }

  /** A chain of selected edges, followed in either direction, leads from the root to `x` in at most `d` hops. */
  ghost predicate Within(g: Snapshot, b: Bounds, edges: set<EdgeId>, root: NodeId, x: NodeId, d: nat) {
    exists p :: IsPath(g, b.scope, false, p, root, x) && |p.edges| <= d && forall i :: 0 <= i < |p.edges| ==> p.edges[i] in edges
  }

  ghost predicate EndpointsSelected(g: Snapshot, b: Bounds, nodes: set<NodeId>, edges: set<EdgeId>) {
    forall e :: e in edges ==>
      EdgeInScope(g, b.scope, e) && g.edges[e].source in nodes && g.edges[e].target in nodes
  }

  /** What a finished slice promises whether or not it was cut. */
  ghost predicate WithinLimits(g: Snapshot, b: Bounds, root: NodeId, nodes: set<NodeId>, edges: set<EdgeId>, hops: nat) {
    && root in nodes && |nodes| <= b.maxNodes && |edges| <= b.maxEdges
    && EndpointsSelected(g, b, nodes, edges)
    && (forall x :: x in nodes ==> Within(g, b, edges, root, x, hops))
  }

  /** Every edge at one of `nodes` has been selected. */
  ghost predicate Exhausted(g: Snapshot, b: Bounds, nodes: set<NodeId>, edges: set<EdgeId>) {
    forall e :: Incident(g, b, e, nodes) ==> e in edges
  }

  /** A reason for the flag that stays one: a full slice with an edge left over, or more nodes than the queue may hold. */
  ghost predicate Cut(g: Snapshot, b: Bounds, nodes: set<NodeId>, edges: set<EdgeId>) {
    || |nodes| > b.maxQueue
    || (exists e :: Incident(g, b, e, nodes) && e !in edges
          && (|edges| == b.maxEdges
              || (|nodes| == b.maxNodes && !(g.edges[e].source in nodes && g.edges[e].target in nodes))))
  }

  ghost predicate SelectionOk(g: Snapshot, b: Bounds, root: NodeId, s: Selection, hops: nat) {
    && WithinLimits(g, b, root, s.nodes, s.edges, hops)
    && s.frontier <= s.nodes
    && (!s.truncated ==> Exhausted(g, b, s.nodes - s.frontier, s.edges))
    && (s.truncated ==> Cut(g, b, s.nodes, s.edges))
  }

  /** `s` extends `base`, and its frontier is what was added. */
  predicate Grown(root: NodeId, base: Selection, s: Selection) {
    && root in base.nodes && base.frontier <= base.nodes
    && s.nodes == base.nodes + s.frontier && s.frontier !! base.nodes
    && base.edges <= s.edges
  }

  ghost predicate Each(g: Snapshot, seen: seq<EdgeId>) {
    forall e :: e in g.edges ==> e in seen
  }

  ghost predicate Scanned(g: Snapshot, b: Bounds, base: Selection, s: Selection, seen: seq<EdgeId>) {
    forall e :: e in seen && Incident(g, b, e, base.frontier) ==> e in s.edges
  }

  /** While a layer is scanned: `base` is the selection it started from, `seen` the edges looked at. */
  ghost predicate LayerOk(g: Snapshot, b: Bounds, root: NodeId, base: Selection, s: Selection, seen: seq<EdgeId>, hops: nat) {
    && WithinLimits(g, b, root, s.nodes, s.edges, hops + 1)
    && Grown(root, base, s)
    && (forall x :: x in base.nodes ==> Within(g, b, s.edges, root, x, hops))
    && (!s.truncated ==> !base.truncated && Scanned(g, b, base, s, seen))
    && (s.truncated ==> Cut(g, b, s.nodes, s.edges))
  }

  /** The endpoints of `e` that are not selected yet. */
  function Missing(g: Snapshot, s: Selection, e: EdgeId): set<NodeId>
    requires e in g.edges
  {
    {g.edges[e].source, g.edges[e].target} - s.nodes
  }

  /** Take one more edge, unless its missing endpoint no longer fits. */
  function Consider(g: Snapshot, b: Bounds, s: Selection, e: EdgeId): Selection
    requires e in g.edges
  {
    var missing := Missing(g, s, e);
    if missing != {} && (|s.nodes| + |missing| > b.maxNodes || |s.frontier| + |missing| > b.maxQueue) then
      s.(truncated := true)
    else
      s.(nodes := s.nodes + missing, frontier := s.frontier + missing, edges := s.edges + {e})
  }

  lemma WithinGrows(g: Snapshot, b: Bounds, edges: set<EdgeId>, edges': set<EdgeId>, root: NodeId, x: NodeId, d: nat, d': nat)
    requires Within(g, b, edges, root, x, d) && edges <= edges' && d <= d'
    ensures Within(g, b, edges', root, x, d')
  {
  }

  lemma WithinOneMore(g: Snapshot, b: Bounds, edges: set<EdgeId>, root: NodeId, u: NodeId, e: EdgeId, x: NodeId, d: nat)
    requires Within(g, b, edges, root, u, d) && e in edges && Arc(g, b.scope, false, u, e, x)
    ensures Within(g, b, edges, root, x, d + 1)
  {
    var p :| IsPath(g, b.scope, false, p, root, u) && |p.edges| <= d && forall i :: 0 <= i < |p.edges| ==> p.edges[i] in edges;
    var q := Path(p.nodes + [x], p.edges + [e]);
    assert IsPath(g, b.scope, false, q, root, x);
    assert forall i :: 0 <= i < |q.edges| ==> q.edges[i] in edges;
  }

  /** One endpoint is in the frontier, so at most the other is missing. */
  lemma OneMissing(g: Snapshot, b: Bounds, s: Selection, e: EdgeId, frontier: set<NodeId>)
    requires Incident(g, b, e, frontier) && frontier <= s.nodes
    ensures |Missing(g, s, e)| <= 1
    ensures forall x :: x in Missing(g, s, e) ==> exists u :: u in frontier && Arc(g, b.scope, false, u, e, x)
  {
  }

  lemma ConsiderKeepsWithin(g: Snapshot, b: Bounds, root: NodeId, base: Selection, s: Selection, seen: seq<EdgeId>,
                            hops: nat, e: EdgeId)
    requires LayerOk(g, b, root, base, s, seen, hops) && Incident(g, b, e, base.frontier)
    ensures var s' := Consider(g, b, s, e);
            && (forall x :: x in base.nodes ==> Within(g, b, s'.edges, root, x, hops))
            && (forall x :: x in s'.nodes ==> Within(g, b, s'.edges, root, x, hops + 1))
  {
    var s' := Consider(g, b, s, e);
    OneMissing(g, b, s, e, base.frontier);
    forall x | x in base.nodes ensures Within(g, b, s'.edges, root, x, hops) {
      WithinGrows(g, b, s.edges, s'.edges, root, x, hops, hops);
    }
    forall x | x in s'.nodes ensures Within(g, b, s'.edges, root, x, hops + 1) {
      if x in s.nodes {
        WithinGrows(g, b, s.edges, s'.edges, root, x, hops + 1, hops + 1);
      } else {
        var u :| u in base.frontier && Arc(g, b.scope, false, u, e, x);
        WithinOneMore(g, b, s'.edges, root, u, e, x, hops);
      }
    }
  }

  lemma ConsiderGrows(g: Snapshot, b: Bounds, root: NodeId, base: Selection, s: Selection, e: EdgeId)
    requires e in g.edges && Grown(root, base, s)
    ensures Grown(root, base, Consider(g, b, s, e)) && (s.truncated ==> Consider(g, b, s, e).truncated)
  {
  }

  lemma ConsiderScans(g: Snapshot, b: Bounds, base: Selection, s: Selection, seen: seq<EdgeId>, e: EdgeId)
    requires e in g.edges && Scanned(g, b, base, s, seen)
    ensures var s' := Consider(g, b, s, e);
            !s'.truncated ==> Scanned(g, b, base, s', seen + [e])
  {
  }

  lemma ConsiderFits(g: Snapshot, b: Bounds, s: Selection, e: EdgeId)
    requires e in g.edges && |s.nodes| <= b.maxNodes && |s.edges| < b.maxEdges
    ensures var s' := Consider(g, b, s, e);
            |s'.nodes| <= b.maxNodes && |s'.edges| <= b.maxEdges
  {
  }

  lemma ConsiderKeepsEndpoints(g: Snapshot, b: Bounds, s: Selection, e: EdgeId)
    requires EdgeInScope(g, b.scope, e) && EndpointsSelected(g, b, s.nodes, s.edges)
    ensures var s' := Consider(g, b, s, e);
            EndpointsSelected(g, b, s'.nodes, s'.edges)
  {
  }

  /** What made the flag go up stays true as the slice grows. */
  lemma CutPersists(g: Snapshot, b: Bounds, s: Selection, e: EdgeId)
    requires e in g.edges && Cut(g, b, s.nodes, s.edges) && |s.edges| < b.maxEdges && |s.nodes| <= b.maxNodes
    ensures Cut(g, b, Consider(g, b, s, e).nodes, Consider(g, b, s, e).edges)
  {
    var s' := Consider(g, b, s, e);
    Cardinality(s.nodes, s'.nodes);
    if |s.nodes| <= b.maxQueue {
      var f :| Incident(g, b, f, s.nodes) && f !in s.edges
               && |s.nodes| == b.maxNodes && !(g.edges[f].source in s.nodes && g.edges[f].target in s.nodes);
      assert s'.nodes == s.nodes by {
        FullStaysFull(g, b, s, e);
      }
      assert Incident(g, b, f, s'.nodes) && f !in s'.edges;
    }
  }

  lemma FullStaysFull(g: Snapshot, b: Bounds, s: Selection, e: EdgeId)
    requires e in g.edges && |s.nodes| == b.maxNodes
    ensures Consider(g, b, s, e).nodes == s.nodes
  {
    var missing := Missing(g, s, e);
    if missing != {} {
      assert |missing| > 0;
    }
  }

  /** The flag goes up only when something is left out for a reason that stays one. */
  lemma FlagIsCut(g: Snapshot, b: Bounds, root: NodeId, base: Selection, s: Selection, e: EdgeId)
    requires Grown(root, base, s) && Incident(g, b, e, base.frontier) && e !in s.edges && |s.nodes| <= b.maxNodes
    requires !s.truncated && Consider(g, b, s, e).truncated
    ensures Cut(g, b, s.nodes, s.edges)
  {
    OneMissing(g, b, s, e, base.frontier);
    Cardinality(s.frontier + {root}, s.nodes);
    assert Incident(g, b, e, s.nodes);
  }

  lemma ConsiderKeepsCut(g: Snapshot, b: Bounds, root: NodeId, base: Selection, s: Selection, seen: seq<EdgeId>,
                         hops: nat, e: EdgeId)
    requires LayerOk(g, b, root, base, s, seen, hops) && Incident(g, b, e, base.frontier)
    requires e !in s.edges && |s.edges| < b.maxEdges
    ensures var s' := Consider(g, b, s, e);
            && |s'.nodes| <= b.maxNodes && |s'.edges| <= b.maxEdges && (s'.truncated ==> Cut(g, b, s'.nodes, s'.edges))
  {
    ConsiderFits(g, b, s, e);
    if s.truncated {
      CutPersists(g, b, s, e);
    } else if Consider(g, b, s, e).truncated {
      FlagIsCut(g, b, root, base, s, e);
    }
  }

  lemma ConsiderKeepsLimits(g: Snapshot, b: Bounds, root: NodeId, base: Selection, s: Selection, seen: seq<EdgeId>,
                            hops: nat, e: EdgeId)
    requires LayerOk(g, b, root, base, s, seen, hops) && Incident(g, b, e, base.frontier) && |s.edges| < b.maxEdges
    ensures var s' := Consider(g, b, s, e);
            WithinLimits(g, b, root, s'.nodes, s'.edges, hops + 1)
  {
    ConsiderKeepsWithin(g, b, root, base, s, seen, hops, e);
    ConsiderFits(g, b, s, e);
    ConsiderKeepsEndpoints(g, b, s, e);
  }

  lemma ConsiderKeepsLayer(g: Snapshot, b: Bounds, root: NodeId, base: Selection, s: Selection, seen: seq<EdgeId>,
                           hops: nat, e: EdgeId)
    requires LayerOk(g, b, root, base, s, seen, hops) && Incident(g, b, e, base.frontier)
    requires e !in s.edges && |s.edges| < b.maxEdges
    ensures LayerOk(g, b, root, base, Consider(g, b, s, e), seen + [e], hops)
  {
    ConsiderKeepsLimits(g, b, root, base, s, seen, hops, e);
    ConsiderKeepsWithin(g, b, root, base, s, seen, hops, e);
    ConsiderKeepsCut(g, b, root, base, s, seen, hops, e);
    ConsiderGrows(g, b, root, base, s, e);
    if !s.truncated {
      ConsiderScans(g, b, base, s, seen, e);
    }
  }

  lemma LayerStarts(g: Snapshot, b: Bounds, root: NodeId, s: Selection, hops: nat)
    requires SelectionOk(g, b, root, s, hops)
    ensures LayerOk(g, b, root, s, s.(frontier := {}), [], hops)
  {
  }

  lemma LayerEnds(g: Snapshot, b: Bounds, root: NodeId, base: Selection, s: Selection, seen: seq<EdgeId>, hops: nat)
    requires SelectionOk(g, b, root, base, hops) && LayerOk(g, b, root, base, s, seen, hops)
    requires !s.truncated ==> Each(g, seen)
    ensures SelectionOk(g, b, root, s, hops + 1)
  {
  }

  // ----- which layers fit -----

  /** The edges of the scope at one of `nodes`. */
  ghost function EdgesAt(g: Snapshot, b: Bounds, nodes: set<NodeId>): set<EdgeId> {
    set e | e in g.edges && Incident(g, b, e, nodes)
  }

  /** The nodes at distance `d` or less. */
  ghost function Near(g: Snapshot, b: Bounds, root: NodeId, d: nat): set<NodeId> { Ball(g, b.scope, false, root, d) }

  /** The edges followed to get `d` hops from the root. */
  ghost function EdgesWithin(g: Snapshot, b: Bounds, root: NodeId, d: nat): set<EdgeId> {
    if d == 0 then {} else EdgesAt(g, b, Near(g, b, root, d - 1))
  }

  /** The nodes at distance exactly `d`. */
  ghost function Rim(g: Snapshot, b: Bounds, root: NodeId, d: nat): set<NodeId> {
    Near(g, b, root, d) - if d == 0 then {} else Near(g, b, root, d - 1)
  }

  /** Going from distance `d` to `d + 1` takes more nodes, a wider layer or more edges than allowed. */
  ghost predicate Overfull(g: Snapshot, b: Bounds, root: NodeId, d: nat) {
    || |Near(g, b, root, d + 1)| > b.maxNodes || |Rim(g, b, root, d + 1)| > b.maxQueue
    || |EdgesWithin(g, b, root, d + 1)| > b.maxEdges
  }

  ghost predicate LayerFits(g: Snapshot, b: Bounds, root: NodeId, d: nat) { |Rim(g, b, root, d + 1)| <= b.maxQueue }

  ghost predicate LimitReached(g: Snapshot, b: Bounds, root: NodeId) {
    exists d: nat :: d < b.maxHops && Overfull(g, b, root, d)
  }

  /** There is something beyond the hop limit. */
  ghost predicate ReachesFarther(g: Snapshot, b: Bounds, root: NodeId) {
    EdgesAt(g, b, Near(g, b, root, b.maxHops)) != EdgesWithin(g, b, root, b.maxHops)
  }

  /** A selection that was not cut is everything within so many hops; one that was cut hit a limit of the graph itself. */
  ghost predicate Tracks(g: Snapshot, b: Bounds, root: NodeId, s: Selection, depth: nat) {
    && (s.truncated ==> LimitReached(g, b, root))
    && (!s.truncated ==>
          && s.nodes == Near(g, b, root, depth) && s.edges == EdgesWithin(g, b, root, depth)
          && s.frontier == Rim(g, b, root, depth)
          && (forall d: nat :: d < depth ==> LayerFits(g, b, root, d)))
  }

  /** While the layer behind `base` is added. */
  ghost predicate LayerTracks(g: Snapshot, b: Bounds, root: NodeId, base: Selection, s: Selection) {
    && (s.truncated ==> LimitReached(g, b, root))
    && (!s.truncated ==> !base.truncated && s.edges <= EdgesAt(g, b, base.nodes) && |s.frontier| <= b.maxQueue)
  }

  lemma NearStep(g: Snapshot, b: Bounds, root: NodeId, d: nat, u: NodeId, e: EdgeId, x: NodeId)
    requires u in Near(g, b, root, d) && Arc(g, b.scope, false, u, e, x)
    ensures x in Near(g, b, root, d + 1)
  {
    var p :| IsPath(g, b.scope, false, p, root, u) && |p.edges| <= d;
    var q := Path(p.nodes + [x], p.edges + [e]);
    assert IsPath(g, b.scope, false, q, root, x);
  }

  lemma NearBack(g: Snapshot, b: Bounds, root: NodeId, d: nat, x: NodeId)
    requires root in g.nodes && x in Near(g, b, root, d + 1)
    ensures x in Near(g, b, root, d) || exists u, e :: u in Near(g, b, root, d) && Arc(g, b.scope, false, u, e, x)
  {
    var p :| IsPath(g, b.scope, false, p, root, x) && |p.edges| <= d + 1;
    if |p.edges| == d + 1 {
      var (u, e) := (p.nodes[d], p.edges[d]);
      assert Arc(g, b.scope, false, u, e, p.nodes[d + 1]);
      var q := Path(p.nodes[..d + 1], p.edges[..d]);
      assert IsPath(g, b.scope, false, q, root, u);
      assert u in Near(g, b, root, d);
    }
  }

  lemma NearGrows(g: Snapshot, b: Bounds, root: NodeId, d: nat, d': nat)
    requires d <= d'
    ensures Near(g, b, root, d) <= Near(g, b, root, d')
  {
  }

  lemma SelectedIsNear(g: Snapshot, b: Bounds, root: NodeId, nodes: set<NodeId>, edges: set<EdgeId>, hops: nat)
    requires root in g.nodes && WithinLimits(g, b, root, nodes, edges, hops)
    ensures nodes <= Near(g, b, root, hops)
  {
    forall x | x in nodes ensures x in Near(g, b, root, hops) {
      assert Within(g, b, edges, root, x, hops);
      var p :| IsPath(g, b.scope, false, p, root, x) && |p.edges| <= hops && forall i :: 0 <= i < |p.edges| ==> p.edges[i] in edges;
      if |p.edges| > 0 {
        var n := |p.edges| - 1;
        assert Arc(g, b.scope, false, p.nodes[n], p.edges[n], p.nodes[n + 1]);
      }
    }
  }

  lemma StartTracks(g: Snapshot, b: Bounds, root: NodeId, s: Selection)
    requires root in g.nodes && s == Selection({root}, {}, {root}, false)
    ensures Tracks(g, b, root, s, 0)
  {
    assert IsPath(g, b.scope, false, Path([root], []), root, root);
    assert Graph.Within(g, b.scope, false, root, root, 0);
    assert Near(g, b, root, 0) == {root};
  }

  /** A node that is left out belongs to the next layer. */
  lemma MissingIsNext(g: Snapshot, b: Bounds, root: NodeId, base: Selection, s: Selection, e: EdgeId, d: nat)
    requires Tracks(g, b, root, base, d) && !base.truncated && Grown(root, base, s) && Incident(g, b, e, base.frontier)
    ensures |Missing(g, s, e)| <= 1 && Missing(g, s, e) !! s.nodes
    ensures Missing(g, s, e) <= Near(g, b, root, d + 1)
  {
    OneMissing(g, b, s, e, base.frontier);
    forall x | x in Missing(g, s, e) ensures x in Near(g, b, root, d + 1) {
      var u :| u in base.frontier && Arc(g, b.scope, false, u, e, x);
      NearStep(g, b, root, d, u, e, x);
    }
  }

  lemma NoRoomIsALimit(g: Snapshot, b: Bounds, root: NodeId, base: Selection, s: Selection, e: EdgeId, d: nat)
    requires Tracks(g, b, root, base, d) && !base.truncated && Grown(root, base, s) && Incident(g, b, e, base.frontier)
    requires d < b.maxHops && s.nodes <= Near(g, b, root, d + 1) && Missing(g, s, e) != {}
    requires |s.nodes| + |Missing(g, s, e)| > b.maxNodes || |s.frontier| + |Missing(g, s, e)| > b.maxQueue
    ensures LimitReached(g, b, root)
  {
    var missing := Missing(g, s, e);
    MissingIsNext(g, b, root, base, s, e, d);
    Cardinality(s.nodes + missing, Near(g, b, root, d + 1));
    Cardinality(s.frontier + missing, Rim(g, b, root, d + 1));
    assert |s.nodes + missing| == |s.nodes| + |missing|;
    assert |s.frontier + missing| == |s.frontier| + |missing|;
    assert Overfull(g, b, root, d);
  }

  lemma ConsiderTracks(g: Snapshot, b: Bounds, root: NodeId, base: Selection, s: Selection, e: EdgeId, d: nat)
    requires Grown(root, base, s) && s.nodes <= Near(g, b, root, d + 1)
    requires Incident(g, b, e, base.frontier) && d < b.maxHops
    requires Tracks(g, b, root, base, d) && LayerTracks(g, b, root, base, s) && !s.truncated
    ensures LayerTracks(g, b, root, base, Consider(g, b, s, e))
  {
    if Consider(g, b, s, e).truncated {
      NoRoomIsALimit(g, b, root, base, s, e, d);
    } else {
      TakenStaysNarrow(g, b, base, s, e);
    }
  }

  lemma TakingTracks(g: Snapshot, b: Bounds, root: NodeId, base: Selection, s: Selection, e: EdgeId, d: nat)
    requires root in g.nodes && Grown(root, base, s) && WithinLimits(g, b, root, s.nodes, s.edges, d + 1)
    requires Incident(g, b, e, base.frontier) && d < b.maxHops
    requires Tracks(g, b, root, base, d) && LayerTracks(g, b, root, base, s)
    ensures LayerTracks(g, b, root, base, Consider(g, b, s, e))
  {
    if !s.truncated {
      SelectedIsNear(g, b, root, s.nodes, s.edges, d + 1);
      ConsiderTracks(g, b, root, base, s, e, d);
    }
  }

  lemma TakenStaysNarrow(g: Snapshot, b: Bounds, base: Selection, s: Selection, e: EdgeId)
    requires s.frontier <= s.nodes && base.frontier <= base.nodes && Incident(g, b, e, base.frontier)
    requires |s.frontier| <= b.maxQueue && s.edges <= EdgesAt(g, b, base.nodes)
    ensures var s' := Consider(g, b, s, e);
            s'.truncated == s.truncated || s'.truncated
    ensures var s' := Consider(g, b, s, e);
            s'.edges <= EdgesAt(g, b, base.nodes) && |s'.frontier| <= b.maxQueue
  {
    assert s.frontier !! Missing(g, s, e);
    assert |s.frontier + Missing(g, s, e)| == |s.frontier| + |Missing(g, s, e)|;
  }

  /** The scan meets an edge when the slice already has as many as allowed. */
  lemma NoEdgeLeftIsALimit(g: Snapshot, b: Bounds, root: NodeId, base: Selection, s: Selection, e: EdgeId, d: nat)
    requires Tracks(g, b, root, base, d) && LayerTracks(g, b, root, base, s) && d < b.maxHops
    requires Incident(g, b, e, base.frontier) && base.frontier <= base.nodes && e !in s.edges && |s.edges| >= b.maxEdges
    ensures LimitReached(g, b, root)
  {
    if !s.truncated {
      Cardinality(s.edges + {e}, EdgesAt(g, b, base.nodes));
      assert Overfull(g, b, root, d);
    }
  }

  lemma EndedEdges(g: Snapshot, b: Bounds, base: Selection, s: Selection, seen: seq<EdgeId>)
    requires Exhausted(g, b, base.nodes - base.frontier, s.edges) && Scanned(g, b, base, s, seen) && Each(g, seen)
    ensures EdgesAt(g, b, base.nodes) <= s.edges
  {
    forall e | e in EdgesAt(g, b, base.nodes) ensures e in s.edges {
      assert Incident(g, b, e, base.nodes - base.frontier) || Incident(g, b, e, base.frontier);
    }
  }

  lemma EndedNodes(g: Snapshot, b: Bounds, root: NodeId, nodes: set<NodeId>, edges: set<EdgeId>, d: nat)
    requires root in g.nodes && EndpointsSelected(g, b, nodes, edges)
    requires Near(g, b, root, d) <= nodes && EdgesAt(g, b, Near(g, b, root, d)) <= edges
    ensures Near(g, b, root, d + 1) <= nodes
  {
    forall x | x in Near(g, b, root, d + 1) ensures x in nodes {
      NearBack(g, b, root, d, x);
      if x !in Near(g, b, root, d) {
        var u, e :| u in Near(g, b, root, d) && Arc(g, b.scope, false, u, e, x);
        assert e in EdgesAt(g, b, Near(g, b, root, d));
      }
    }
  }

  lemma LayerEndTracks(g: Snapshot, b: Bounds, root: NodeId, base: Selection, s: Selection, d: nat)
    requires Grown(root, base, s) && !s.truncated && Tracks(g, b, root, base, d) && LayerTracks(g, b, root, base, s)
    requires EdgesAt(g, b, base.nodes) <= s.edges && s.nodes == Near(g, b, root, d + 1)
    ensures Tracks(g, b, root, s, d + 1)
  {
    EndedRim(g, b, root, s.nodes, s.frontier, d);
    EdgesAgree(g, b, root, s.edges, d);
    FitsFarther(g, b, root, d);
  }

  lemma EdgesAgree(g: Snapshot, b: Bounds, root: NodeId, edges: set<EdgeId>, d: nat)
    requires edges <= EdgesAt(g, b, Near(g, b, root, d)) <= edges
    ensures edges == EdgesWithin(g, b, root, d + 1)
  {
  }

  lemma FitsFarther(g: Snapshot, b: Bounds, root: NodeId, d: nat)
    requires LayerFits(g, b, root, d) && forall d': nat :: d' < d ==> LayerFits(g, b, root, d')
    ensures forall d': nat :: d' < d + 1 ==> LayerFits(g, b, root, d')
  {
  }

  lemma EndedRim(g: Snapshot, b: Bounds, root: NodeId, nodes: set<NodeId>, frontier: set<NodeId>, d: nat)
    requires nodes == Near(g, b, root, d + 1) == Near(g, b, root, d) + frontier && frontier !! Near(g, b, root, d)
    ensures frontier == Rim(g, b, root, d + 1)
  {
    var near := Near(g, b, root, d);
    assert nodes - near == frontier;
  }

  /** A layer under construction: what it keeps, and how it follows the graph. */
  ghost predicate Growing(g: Snapshot, b: Bounds, root: NodeId, base: Selection, s: Selection, seen: seq<EdgeId>, hops: nat) {
    LayerOk(g, b, root, base, s, seen, hops) && LayerTracks(g, b, root, base, s)
  }

  lemma GrowingStarts(g: Snapshot, b: Bounds, root: NodeId, base: Selection, d: nat)
    requires SelectionOk(g, b, root, base, d) && Tracks(g, b, root, base, d)
    ensures Growing(g, b, root, base, base.(frontier := {}), [], d)
  {
    LayerStarts(g, b, root, base, d);
    FirstEdgesTrack(g, b, root, base, d);
  }

  lemma GrowingTakes(g: Snapshot, b: Bounds, root: NodeId, base: Selection, s: Selection, seen: seq<EdgeId>, e: EdgeId, d: nat)
    requires root in g.nodes && d < b.maxHops && Tracks(g, b, root, base, d) && Growing(g, b, root, base, s, seen, d)
    requires Incident(g, b, e, base.frontier) && e !in s.edges && |s.edges| < b.maxEdges
    ensures Growing(g, b, root, base, Consider(g, b, s, e), seen + [e], d)
  {
    ConsiderKeepsLayer(g, b, root, base, s, seen, d, e);
    TakingTracks(g, b, root, base, s, e, d);
  }

  lemma GrowingSkips(g: Snapshot, b: Bounds, root: NodeId, base: Selection, s: Selection, seen: seq<EdgeId>, e: EdgeId, d: nat)
    requires Growing(g, b, root, base, s, seen, d) && (e in s.edges || !Incident(g, b, e, base.frontier))
    ensures Growing(g, b, root, base, s, seen + [e], d)
  {
    if !s.truncated {
      assert Scanned(g, b, base, s, seen + [e]);
    }
  }

  /** Once the flag is up it no longer matters which edges were looked at. */
  lemma GrowingStops(g: Snapshot, b: Bounds, root: NodeId, base: Selection, s: Selection, seen: seq<EdgeId>, e: EdgeId, d: nat)
    requires d < b.maxHops && Tracks(g, b, root, base, d) && Growing(g, b, root, base, s, seen, d)
    requires Incident(g, b, e, base.frontier) && e !in s.edges && |s.edges| >= b.maxEdges
    ensures Growing(g, b, root, base, s.(truncated := true), seen + [e], d)
  {
    assert Incident(g, b, e, s.nodes);
    NoEdgeLeftIsALimit(g, b, root, base, s, e, d);
  }

  /** A layer that can go on: the facts about its start, and about what it has become. */
  ghost predicate Going(g: Snapshot, b: Bounds, root: NodeId, base: Selection, s: Selection, seen: seq<EdgeId>, d: nat) {
    && root in g.nodes && d < b.maxHops && Tracks(g, b, root, base, d)
    && Growing(g, b, root, base, s, seen, d)
  }

  lemma GrowingEnds(g: Snapshot, b: Bounds, root: NodeId, base: Selection, s: Selection, seen: seq<EdgeId>, d: nat)
    requires root in g.nodes && SelectionOk(g, b, root, base, d) && Tracks(g, b, root, base, d)
    requires Growing(g, b, root, base, s, seen, d) && (!s.truncated ==> Each(g, seen))
    ensures SelectionOk(g, b, root, s, d + 1) && Tracks(g, b, root, s, d + 1)
  {
    LayerEnds(g, b, root, base, s, seen, d);
    if !s.truncated {
      EndedEdges(g, b, base, s, seen);
      EndingTracks(g, b, root, base, s, d);
    }
  }

  lemma EndingTracks(g: Snapshot, b: Bounds, root: NodeId, base: Selection, s: Selection, d: nat)
    requires root in g.nodes && Grown(root, base, s) && WithinLimits(g, b, root, s.nodes, s.edges, d + 1)
    requires !s.truncated && Tracks(g, b, root, base, d) && LayerTracks(g, b, root, base, s)
    requires EdgesAt(g, b, base.nodes) <= s.edges
    ensures Tracks(g, b, root, s, d + 1)
  {
    SelectedIsNear(g, b, root, s.nodes, s.edges, d + 1);
    EndedNodes(g, b, root, s.nodes, s.edges, d);
    LayerEndTracks(g, b, root, base, s, d);
  }

  /** What looking at one edge comes to. */
  function Look(g: Snapshot, b: Bounds, frontier: set<NodeId>, s: Selection, e: EdgeId): Selection {
    if e in s.edges || !Incident(g, b, e, frontier) then s
    else if |s.edges| >= b.maxEdges then s.(truncated := true)
    else Consider(g, b, s, e)
  }

  /** What looking at the edges of `order` in turn comes to. */
  function Scan(g: Snapshot, b: Bounds, frontier: set<NodeId>, s: Selection, order: seq<EdgeId>): Selection
    decreases |order|
  {
    if order == [] then s else Scan(g, b, frontier, Look(g, b, frontier, s, order[0]), order[1..])
  }

  /** When the edge limit has stopped the scan, the other edges would not change anything. */
  lemma {:induction false} StoppedIsFinal(g: Snapshot, b: Bounds, frontier: set<NodeId>, s: Selection, order: seq<EdgeId>)
    requires |s.edges| >= b.maxEdges && s.truncated
    ensures Scan(g, b, frontier, s, order) == s
    decreases |order|
  {
    if order != [] {
      assert Look(g, b, frontier, s, order[0]) == s;
      StoppedIsFinal(g, b, frontier, s, order[1..]);
    }
  }

  lemma GoingLooks(g: Snapshot, b: Bounds, root: NodeId, base: Selection, s: Selection, seen: seq<EdgeId>, e: EdgeId, d: nat)
    requires Going(g, b, root, base, s, seen, d)
    ensures Going(g, b, root, base, Look(g, b, base.frontier, s, e), seen + [e], d)
  {
    if e in s.edges || !Incident(g, b, e, base.frontier) {
      GrowingSkips(g, b, root, base, s, seen, e, d);
    } else if |s.edges| >= b.maxEdges {
      GrowingStops(g, b, root, base, s, seen, e, d);
    } else {
      GrowingTakes(g, b, root, base, s, seen, e, d);
    }
  }

  /** Whatever every look keeps holds of the whole scan. */
  lemma {:induction false} ScanKeeps(g: Snapshot, b: Bounds, frontier: set<NodeId>, s: Selection, seen: seq<EdgeId>,
                                     order: seq<EdgeId>, keeps: (Selection, seq<EdgeId>) -> bool)
    requires keeps(s, seen)
    requires forall t, n, e :: keeps(t, n) ==> keeps(Look(g, b, frontier, t, e), n + [e])
    ensures keeps(Scan(g, b, frontier, s, order), seen + order)
    decreases |order|
  {
    if order == [] {
      assert seen + [] == seen;
    } else {
      ScanKeeps(g, b, frontier, Look(g, b, frontier, s, order[0]), seen + [order[0]], order[1..], keeps);
      assert (seen + [order[0]]) + order[1..] == seen + order;
    }
  }

  lemma ScanGrows(g: Snapshot, b: Bounds, root: NodeId, base: Selection, s: Selection, order: seq<EdgeId>, d: nat)
    requires Going(g, b, root, base, s, [], d)
    ensures Growing(g, b, root, base, Scan(g, b, base.frontier, s, order), order, d)
  {
    var keeps := (t: Selection, n: seq<EdgeId>) => Going(g, b, root, base, t, n, d);
    forall t, n, e | keeps(t, n) ensures keeps(Look(g, b, base.frontier, t, e), n + [e]) {
      GoingLooks(g, b, root, base, t, n, e, d);
    }
    ScanKeeps(g, b, base.frontier, s, [], order, keeps);
    assert [] + order == order;
    assert keeps(Scan(g, b, base.frontier, s, order), order);
  }

  lemma ScanEnds(g: Snapshot, b: Bounds, root: NodeId, base: Selection, order: seq<EdgeId>, d: nat)
    requires SelectionOk(g, b, root, base, d) && root in g.nodes && d < b.maxHops && Tracks(g, b, root, base, d)
    requires Each(g, order)
    ensures After(g, b, root, Scan(g, b, base.frontier, base.(frontier := {}), order), d + 1)
  {
    GrowingStarts(g, b, root, base, d);
    ScanGrows(g, b, root, base, base.(frontier := {}), order, d);
    GrowingEnds(g, b, root, base, Scan(g, b, base.frontier, base.(frontier := {}), order), order, d);
  }

  /** One layer: every edge at the frontier, in identifier order, until the edge limit stops the scan. */
  method GrowLayer(g: Snapshot, b: Bounds, base: Selection) returns (s: Selection, ghost order: seq<EdgeId>)
    ensures s == Scan(g, b, base.frontier, base.(frontier := {}), order)
    ensures Each(g, order) && forall i, j :: 0 <= i < j < |order| ==> order[i] < order[j]
  {
    s := base.(frontier := {});
    var ids := Sorted(g.edges.Keys);
    order := ids;
    for i := 0 to |ids|
      invariant Scan(g, b, base.frontier, base.(frontier := {}), ids) == Scan(g, b, base.frontier, s, ids[i..])
    {
      var e := ids[i];
      assert ids[i..][1..] == ids[i + 1..];
      if e !in s.edges && Incident(g, b, e, base.frontier) {
        if |s.edges| >= b.maxEdges {
          s := s.(truncated := true);
          StoppedIsFinal(g, b, base.frontier, s, ids[i + 1..]);
          return;
        }
        s := Consider(g, b, s, e);
      }
    }
  }

  lemma FirstEdgesTrack(g: Snapshot, b: Bounds, root: NodeId, base: Selection, d: nat)
    requires Tracks(g, b, root, base, d)
    ensures LayerTracks(g, b, root, base, base.(frontier := {}))
  {
    if !base.truncated && d > 0 {
      NearGrows(g, b, root, d - 1, d);
    }
  }

  /** Is there an eligible edge at the frontier that was not selected? */
  method AlgorithmExtensionExists(g: Snapshot, b: Bounds, frontier: set<NodeId>, selectedEdges: set<EdgeId>) returns (found: bool)
    ensures found <==> exists e :: Incident(g, b, e, frontier) && e !in selectedEdges
  {
    var order := Sorted(g.edges.Keys);
    for i := 0 to |order|
      invariant forall j :: 0 <= j < i ==> !(Incident(g, b, order[j], frontier) && order[j] !in selectedEdges)
    {
      if order[i] !in selectedEdges && Incident(g, b, order[i], frontier) {
        return true;
      }
    }
    return false;
  }

  // ----- an exhausted selection is the root's connected component -----

  ghost predicate Reachable(g: Snapshot, scope: Scope, root: NodeId, x: NodeId) {
    exists p :: IsPath(g, scope, false, p, root, x)
  }

  lemma {:induction false} PathStaysInside(g: Snapshot, b: Bounds, root: NodeId, nodes: set<NodeId>, edges: set<EdgeId>,
                                           p: Path, x: NodeId, i: nat)
    requires root in nodes && EndpointsSelected(g, b, nodes, edges) && Exhausted(g, b, nodes, edges)
    requires IsPath(g, b.scope, false, p, root, x) && i <= |p.edges|
    ensures p.nodes[i] in nodes
  {
    if i > 0 {
      PathStaysInside(g, b, root, nodes, edges, p, x, i - 1);
      assert Arc(g, b.scope, false, p.nodes[i - 1], p.edges[i - 1], p.nodes[i - 1 + 1]);
      assert Incident(g, b, p.edges[i - 1], nodes);
    }
  }

  /** The nodes are exactly those connected to the root, the edges exactly those at them. */
  ghost predicate IsComponent(g: Snapshot, scope: Scope, root: NodeId, nodes: set<NodeId>, edges: set<EdgeId>) {
    && (forall x :: x in nodes <==> Reachable(g, scope, root, x))
    && (forall e :: e in edges <==> EdgeInScope(g, scope, e) && Touches(g, e, nodes))
  }

  lemma ExhaustedIsComponent(g: Snapshot, b: Bounds, root: NodeId, nodes: set<NodeId>, edges: set<EdgeId>, hops: nat)
    requires WithinLimits(g, b, root, nodes, edges, hops) && Exhausted(g, b, nodes, edges)
    ensures IsComponent(g, b.scope, root, nodes, edges)
  {
    forall x ensures x in nodes <==> Reachable(g, b.scope, root, x) {
      if x in nodes {
        assert Within(g, b, edges, root, x, hops);
      } else if p :| IsPath(g, b.scope, false, p, root, x) {
        PathStaysInside(g, b, root, nodes, edges, p, x, |p.edges|);
      }
    }
    forall e ensures e in edges <==> EdgeInScope(g, b.scope, e) && Touches(g, e, nodes) {
      assert EdgeInScope(g, b.scope, e) && Touches(g, e, nodes) ==> Incident(g, b, e, nodes);
    }
  }

  lemma ComponentIsExhausted(g: Snapshot, b: Bounds, root: NodeId, nodes: set<NodeId>, edges: set<EdgeId>, e: EdgeId)
    requires Incident(g, b, e, nodes) && e !in edges
    ensures !IsComponent(g, b.scope, root, nodes, edges)
  {
  }

  // ----- the operation -----

  /** A finished slice: it respects its limits, and the flag says whether it is the whole component -
      except that a component larger than the queue limit may be flagged although it was found whole. */
  ghost predicate Honest(g: Snapshot, b: Bounds, root: NodeId, nodes: set<NodeId>, edges: set<EdgeId>, truncated: bool) {
    && WithinLimits(g, b, root, nodes, edges, b.maxHops)
    && (!truncated ==> IsComponent(g, b.scope, root, nodes, edges))
    && (truncated ==> |nodes| > b.maxQueue || !IsComponent(g, b.scope, root, nodes, edges))
  }

  /** The flag is set exactly if the graph exceeds a limit within the hops allowed, or goes on behind them; and short of
      such a limit the slice is everything within those hops. */
  ghost predicate Exact(g: Snapshot, b: Bounds, root: NodeId, nodes: set<NodeId>, edges: set<EdgeId>, truncated: bool) {
    && (truncated <==> LimitReached(g, b, root) || ReachesFarther(g, b, root))
    && (!LimitReached(g, b, root) ==> nodes == Near(g, b, root, b.maxHops) && edges == EdgesWithin(g, b, root, b.maxHops))
  }

  /** Nothing is left at any selected node, so what lies within any number of hops is selected. */
  lemma {:induction false} AllIsSelected(g: Snapshot, b: Bounds, root: NodeId, nodes: set<NodeId>, edges: set<EdgeId>, d: nat)
    requires root in g.nodes && root in nodes && EndpointsSelected(g, b, nodes, edges) && Exhausted(g, b, nodes, edges)
    ensures Near(g, b, root, d) <= nodes && EdgesAt(g, b, Near(g, b, root, d)) <= edges
  {
    forall x | x in Near(g, b, root, d) ensures x in nodes {
      var p :| IsPath(g, b.scope, false, p, root, x) && |p.edges| <= d;
      PathStaysInside(g, b, root, nodes, edges, p, x, |p.edges|);
    }
  }

  lemma WholeIsExact(g: Snapshot, b: Bounds, root: NodeId, s: Selection, depth: nat)
    requires root in g.nodes && WithinLimits(g, b, root, s.nodes, s.edges, depth) && depth <= b.maxHops
    requires !s.truncated && Tracks(g, b, root, s, depth) && Exhausted(g, b, s.nodes, s.edges)
    ensures Exact(g, b, root, s.nodes, s.edges, false)
  {
    NearGrows(g, b, root, depth, b.maxHops);
    AllIsSelected(g, b, root, s.nodes, s.edges, b.maxHops);
    assert s.nodes == Near(g, b, root, b.maxHops);
    EdgesOfWhole(g, b, root, s, depth);
    forall d: nat | d < b.maxHops ensures !Overfull(g, b, root, d) {
      WholeFits(g, b, root, s, depth, d);
    }
  }

  lemma WholeFits(g: Snapshot, b: Bounds, root: NodeId, s: Selection, depth: nat, d: nat)
    requires root in g.nodes && WithinLimits(g, b, root, s.nodes, s.edges, depth)
    requires !s.truncated && Tracks(g, b, root, s, depth) && Exhausted(g, b, s.nodes, s.edges)
    ensures !Overfull(g, b, root, d)
  {
    AllIsSelected(g, b, root, s.nodes, s.edges, d);
    AllIsSelected(g, b, root, s.nodes, s.edges, d + 1);
    Cardinality(Near(g, b, root, d + 1), s.nodes);
    Cardinality(EdgesWithin(g, b, root, d + 1), s.edges);
    if d < depth {
      assert LayerFits(g, b, root, d);
    } else {
      NearGrows(g, b, root, depth, d);
      assert Rim(g, b, root, d + 1) == {};
    }
  }

  lemma EdgesOfWhole(g: Snapshot, b: Bounds, root: NodeId, s: Selection, depth: nat)
    requires root in g.nodes && WithinLimits(g, b, root, s.nodes, s.edges, depth) && depth <= b.maxHops
    requires !s.truncated && Tracks(g, b, root, s, depth) && Exhausted(g, b, s.nodes, s.edges)
    ensures s.edges == EdgesWithin(g, b, root, b.maxHops) == EdgesAt(g, b, Near(g, b, root, b.maxHops))
  {
    AllIsSelected(g, b, root, s.nodes, s.edges, b.maxHops);
    if b.maxHops > 0 {
      AllIsSelected(g, b, root, s.nodes, s.edges, b.maxHops - 1);
      if depth > 0 {
        NearGrows(g, b, root, depth - 1, b.maxHops - 1);
      }
      NearGrows(g, b, root, b.maxHops - 1, b.maxHops);
    }
  }

  /** An edge is left at the frontier when the hops are used up, or when the edges are. */
  lemma ExtensionIsExact(g: Snapshot, b: Bounds, root: NodeId, s: Selection, depth: nat, e: EdgeId)
    requires root in g.nodes && !s.truncated && Tracks(g, b, root, s, depth) && depth <= b.maxHops
    requires Incident(g, b, e, s.frontier) && e !in s.edges
    requires depth == b.maxHops || |s.edges| >= b.maxEdges
    ensures Exact(g, b, root, s.nodes, s.edges, true)
  {
    assert e in EdgesAt(g, b, Near(g, b, root, depth));
    if depth < b.maxHops {
      if depth > 0 {
        NearGrows(g, b, root, depth - 1, depth);
      }
      Cardinality(s.edges + {e}, EdgesWithin(g, b, root, depth + 1));
      assert Overfull(g, b, root, depth);
    }
  }

  /** Close a selection: unless it was cut already, ask whether the frontier could still be extended. */
  method Finish(g: Snapshot, b: Bounds, root: NodeId, s: Selection, ghost hops: nat) returns (r: SliceResult)
    requires SelectionOk(g, b, root, s, hops) && hops <= b.maxHops && root in g.nodes && Tracks(g, b, root, s, hops)
    requires hops == b.maxHops || |s.edges| >= b.maxEdges || s.frontier == {}
    ensures r.Slice? && Honest(g, b, root, r.nodes, r.edges, r.truncated) && Exact(g, b, root, r.nodes, r.edges, r.truncated)
  {
    var extension := false;
    if !s.truncated && s.frontier != {} {
      extension := AlgorithmExtensionExists(g, b, s.frontier, s.edges);
    }
    r := Slice(s.nodes, s.edges, s.truncated || extension);
    forall x | x in s.nodes ensures Within(g, b, s.edges, root, x, b.maxHops) {
      WithinGrows(g, b, s.edges, s.edges, root, x, hops, b.maxHops);
    }
    if !r.truncated {
      forall e | Incident(g, b, e, s.nodes) ensures e in s.edges {
        assert Incident(g, b, e, s.nodes - s.frontier) || Incident(g, b, e, s.frontier);
      }
      ExhaustedIsComponent(g, b, root, s.nodes, s.edges, b.maxHops);
      WholeIsExact(g, b, root, s, hops);
    } else if |s.nodes| <= b.maxQueue {
      var e :| Incident(g, b, e, s.nodes) && e !in s.edges;
      ComponentIsExhausted(g, b, root, s.nodes, s.edges, e);
    }
    if extension {
      var e :| Incident(g, b, e, s.frontier) && e !in s.edges;
      ExtensionIsExact(g, b, root, s, hops, e);
    }
  }

  lemma RootAlone(g: Snapshot, b: Bounds, root: NodeId, s: Selection)
    requires b.Valid() && s == Selection({root}, {}, {root}, false)
    ensures SelectionOk(g, b, root, s, 0)
  {
    assert IsPath(g, b.scope, false, Path([root], []), root, root);
  }

  /** No edge of the scope touches a root outside it. */
  lemma RootOnly(g: Snapshot, b: Bounds, root: NodeId)
    requires b.Valid() && root in g.nodes && !NodeInScope(g.nodes[root], b.scope)
    ensures Honest(g, b, root, {root}, {}, false)
  {
    RootAlone(g, b, root, Selection({root}, {}, {root}, false));
    ExhaustedIsComponent(g, b, root, {root}, {}, 0);
    WithinGrows(g, b, {}, {}, root, root, 0, b.maxHops);
  }

  /** A selection after so many layers. */
  ghost predicate After(g: Snapshot, b: Bounds, root: NodeId, s: Selection, depth: nat) {
    SelectionOk(g, b, root, s, depth) && Tracks(g, b, root, s, depth)
  }

  /** One more layer, whatever the selection. */
  ghost predicate Advances(g: Snapshot, b: Bounds, after: (Selection, nat) -> bool) {
    forall s, order, d: nat ::
      after(s, d) && d < b.maxHops && Each(g, order) ==>
        after(Scan(g, b, s.frontier, s.(frontier := {}), order), d + 1)
  }

  ghost predicate Means(g: Snapshot, b: Bounds, root: NodeId, after: (Selection, nat) -> bool) {
    forall s, d: nat {:trigger after(s, d)} :: after(s, d) <==> After(g, b, root, s, d)
  }

  lemma FirstLayer(g: Snapshot, b: Bounds, root: NodeId, after: (Selection, nat) -> bool)
    requires b.Valid() && root in g.nodes && Means(g, b, root, after)
    ensures after(Selection({root}, {}, {root}, false), 0)
  {
    RootAlone(g, b, root, Selection({root}, {}, {root}, false));
    StartTracks(g, b, root, Selection({root}, {}, {root}, false));
  }

  lemma OneMoreLayer(g: Snapshot, b: Bounds, root: NodeId, after: (Selection, nat) -> bool,
                     s: Selection, order: seq<EdgeId>, d: nat)
    requires root in g.nodes && Means(g, b, root, after) && after(s, d) && d < b.maxHops && Each(g, order)
    ensures after(Scan(g, b, s.frontier, s.(frontier := {}), order), d + 1)
  {
    ScanEnds(g, b, root, s, order, d);
  }

  lemma LayersAdvance(g: Snapshot, b: Bounds, root: NodeId) returns (after: (Selection, nat) -> bool)
    requires b.Valid() && root in g.nodes
    ensures Means(g, b, root, after) && Advances(g, b, after) && after(Selection({root}, {}, {root}, false), 0)
  {
    after := (s: Selection, d: nat) => After(g, b, root, s, d);
    FirstLayer(g, b, root, after);
    forall s, order, d: nat | after(s, d) && d < b.maxHops && Each(g, order)
      ensures after(Scan(g, b, s.frontier, s.(frontier := {}), order), d + 1)
    {
      OneMoreLayer(g, b, root, after, s, order, d);
    }
  }

  /** Layer after layer, until the hops, the edges or the frontier are used up. */
  method GrowLayers(g: Snapshot, b: Bounds, root: NodeId) returns (s: Selection, ghost depth: nat)
    requires b.Valid() && root in g.nodes
    ensures After(g, b, root, s, depth) && depth <= b.maxHops
    ensures depth == b.maxHops || |s.edges| >= b.maxEdges || s.frontier == {}
  {
    s := Selection({root}, {}, {root}, false);
    ghost var after := LayersAdvance(g, b, root);
    var hops := 0;
    depth := 0;
    while hops < b.maxHops && s.frontier != {}
      invariant hops == depth <= b.maxHops && after(s, depth)
    {
      ghost var order;
      s, order := GrowLayer(g, b, s);
      hops := hops + 1;
      depth := depth + 1;
      if |s.edges| >= b.maxEdges {
        return;
      }
    }
  }

  method BoundedRootSubgraph(g: Snapshot, root: NodeId, b: Bounds) returns (r: SliceResult)
    requires b.Valid()
    ensures r == RootUnavailable <==> root !in g.nodes || g.nodes[root].partition != b.scope.partition
    ensures r == RootOutOfScope <==>
              root in g.nodes && g.nodes[root].partition == b.scope.partition
              && !NodeInScope(g.nodes[root], b.scope) && b.requireInScope
    ensures r.Slice? ==> Honest(g, b, root, r.nodes, r.edges, r.truncated)
    ensures r.Slice? && NodeInScope(g.nodes[root], b.scope) ==> Exact(g, b, root, r.nodes, r.edges, r.truncated)
    ensures r.Slice? && !NodeInScope(g.nodes[root], b.scope) ==> r == Slice({root}, {}, false)
  {
    if root !in g.nodes || g.nodes[root].partition != b.scope.partition { return RootUnavailable; }
    if !NodeInScope(g.nodes[root], b.scope) {
      if b.requireInScope { return RootOutOfScope; }
      RootOnly(g, b, root);
      return Slice({root}, {}, false);
    }
    var s, depth := GrowLayers(g, b, root);
    r := Finish(g, b, root, s, depth);
  }
}
