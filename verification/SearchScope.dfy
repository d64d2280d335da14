/** What the scope of a search or a slice lets through, by the fields of the stored nodes and edges. */
module SearchScope {
  import opened Options
  import opened Graph
  import RootSlice
  import PathSearch
  import PathResults

  /** A time inside the window, both ends included; no time at all only where that is allowed. */
  predicate Timely(t: Option<int>, scope: Scope) {
    match t
    case None => scope.includeTimeless
    case Some(at) => !(at < scope.start) && !(scope.end < at)
  }

  predicate Suits(n: Node, scope: Scope) { n.kind in scope.nodeKinds && Timely(n.occurredAt, scope) }

  /** The stored edge `e` is of the account, of a wanted relation, timely, and so are the nodes at its ends. */
  predicate Admits(g: Snapshot, scope: Scope, relations: Option<set<int>>, e: EdgeId) {
    && e in g.edges
    && (var edge := g.edges[e];
        && edge.partition == scope.partition && edge.relation in scope.edgeKinds && Timely(edge.occurredAt, scope)
        && (relations.Some? ==> edge.relation in relations.value)
        && (forall x :: x in {edge.source, edge.target} ==> x in g.nodes && Suits(g.nodes[x], scope)))
  }

  /** From the source of an admitted edge to its target, or back where direction does not matter. */
  predicate Goes(g: Snapshot, scope: Scope, relations: Option<set<int>>, directed: bool, u: NodeId, e: EdgeId, v: NodeId) {
    && Admits(g, scope, relations, e)
    && (var (from, to) := (g.edges[e].source, g.edges[e].target);
        (u, v) == (from, to) || (!directed && (u, v) == (to, from)))
  }

  predicate Follows(g: Snapshot, scope: Scope, relations: Option<set<int>>, directed: bool, p: Path, s: NodeId, t: NodeId) {
    && |p.nodes| == |p.edges| + 1 && p.nodes[0] == s && p.nodes[|p.edges|] == t
    && forall i :: 0 <= i < |p.edges| ==> Goes(g, scope, relations, directed, p.nodes[i], p.edges[i], p.nodes[i + 1])
  }

  lemma AdmitsIsInScope(g: Snapshot, b: PathSearch.Bounds, relations: Option<set<int>>, e: EdgeId)
    ensures EdgeInScope(g, PathResults.Narrowed(b, relations).scope, e) <==> Admits(g, b.scope, relations, e)
  {
    if e in g.edges {
      var (from, to) := (g.edges[e].source, g.edges[e].target);
      assert from in {from, to} && to in {from, to};
    }
  }

  lemma FollowsIsPath(g: Snapshot, b: PathSearch.Bounds, relations: Option<set<int>>, directed: bool, p: Path, s: NodeId, t: NodeId)
    ensures IsPath(g, PathResults.Narrowed(b, relations).scope, directed, p, s, t)
            <==> Follows(g, b.scope, relations, directed, p, s, t)
  {
    var narrowed := PathResults.Narrowed(b, relations).scope;
    forall u, e, v ensures Arc(g, narrowed, directed, u, e, v) <==> Goes(g, b.scope, relations, directed, u, e, v) {
      AdmitsIsInScope(g, b, relations, e);
    }
  }

  /** Every reported path follows the scope field by field; and if nothing was cut the reported paths are all those that
      follow it with the fewest edges. */
  lemma FoundByField(g: Snapshot, b: PathSearch.Bounds, relations: Option<set<int>>, directed: bool,
                     s: NodeId, t: NodeId, paths: seq<Path>, truncated: bool)
    requires PathResults.Genuine(g, PathResults.Narrowed(b, relations), directed, s, t, paths)
    requires !truncated ==> PathResults.Exact(g, PathResults.Narrowed(b, relations), directed, s, t, paths)
    ensures forall p :: p in paths ==> Follows(g, b.scope, relations, directed, p, s, t) && IsSimple(p) && |p.edges| <= b.maxHops
    ensures !truncated ==>
              forall p :: p in paths <==>
                Follows(g, b.scope, relations, directed, p, s, t)
                && forall q :: Follows(g, b.scope, relations, directed, q, s, t) ==> |p.edges| <= |q.edges|
    ensures !truncated && paths == [] ==> forall q :: !Follows(g, b.scope, relations, directed, q, s, t)
  {
    forall q ensures IsPath(g, PathResults.Narrowed(b, relations).scope, directed, q, s, t)
                     <==> Follows(g, b.scope, relations, directed, q, s, t)
    {
      FollowsIsPath(g, b, relations, directed, q, s, t);
    }
  }

  lemma SliceAdmits(g: Snapshot, b: RootSlice.Bounds, e: EdgeId)
    ensures EdgeInScope(g, b.scope, e) <==> Admits(g, b.scope, None, e)
  {
    if e in g.edges {
      var (from, to) := (g.edges[e].source, g.edges[e].target);
      assert from in {from, to} && to in {from, to};
    }
  }

  /** Every edge of a slice is admitted field by field, and so is every node it brought in; a slice that was not cut holds
      every admitted edge at its nodes. */
  lemma SliceByField(g: Snapshot, b: RootSlice.Bounds, root: NodeId, nodes: set<NodeId>, edges: set<EdgeId>, truncated: bool)
    requires RootSlice.Honest(g, b, root, nodes, edges, truncated)
    ensures forall e :: e in edges ==>
              Admits(g, b.scope, None, e) && g.edges[e].source in nodes && g.edges[e].target in nodes
    ensures forall x :: x in nodes && x != root ==> x in g.nodes && Suits(g.nodes[x], b.scope)
    ensures !truncated ==>
              forall e :: Admits(g, b.scope, None, e) && (g.edges[e].source in nodes || g.edges[e].target in nodes) ==> e in edges
  {
    forall e ensures EdgeInScope(g, b.scope, e) <==> Admits(g, b.scope, None, e) {
      SliceAdmits(g, b, e);
    }
    forall x | x in nodes && x != root ensures x in g.nodes && Suits(g.nodes[x], b.scope) {
      assert RootSlice.Within(g, b, edges, root, x, b.maxHops);
      var p :| IsPath(g, b.scope, false, p, root, x) && |p.edges| <= b.maxHops;
      assert Arc(g, b.scope, false, p.nodes[|p.edges| - 1], p.edges[|p.edges| - 1], p.nodes[|p.edges| - 1 + 1]);
    }
  }

  /** The nodes within so many hops, by field: those a chain of admitted edges leads to. */
  lemma NearByField(g: Snapshot, b: RootSlice.Bounds, root: NodeId, d: nat, x: NodeId)
    ensures x in RootSlice.Near(g, b, root, d) <==>
              x in g.nodes && exists p :: Follows(g, b.scope, None, false, p, root, x) && |p.edges| <= d
  {
    var any := PathSearch.Bounds(b.scope, 0, 1, 1, 1, 1, false);
    assert PathResults.Narrowed(any, None).scope == b.scope;
    forall p ensures IsPath(g, b.scope, false, p, root, x) <==> Follows(g, b.scope, None, false, p, root, x) {
      FollowsIsPath(g, any, None, false, p, root, x);
    }
  }
}
