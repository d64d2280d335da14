/** Every public operation of the graph repository keeps its invariant, over every run. */
module GraphHistory {
  import opened Options
  import opened Sequences
  import opened Graph
  import opened GraphGenerations

  datatype Op = BeginOp(id: GenerationId, partition: int, revision: int, owner: Owner, now: int, lease: int)
              | UpsertNodeOp(handle: Handle, n: NodeId, node: Node, t: Clock)
              | UpsertEdgeOp(handle: Handle, e: EdgeId, edge: Edge, t: Clock)
              | ReplaceOp(handle: Handle, nodes: seq<(NodeId, Node)>, edges: seq<(EdgeId, Edge)>, t: Clock)
              | RefreshOp(handle: Handle, t: Clock)
              | ValidateOp(handle: Handle, t: Clock)
              | DiscardOp(id: GenerationId, owner: Owner, now: int)
              | ReclaimOp(id: GenerationId, now: int)
              | ActivateOp(id: GenerationId, expected: Option<GenerationId>, claimed: Option<Owner>, now: int)

  function Apply(s: Repo, op: Op, keep: Retention): Result {
    match op
    case BeginOp(id, partition, revision, owner, now, lease) => Begin(s, id, partition, revision, owner, now, lease)
    case UpsertNodeOp(h, n, node, t) => UpsertNode(s, h, n, node, t)
    case UpsertEdgeOp(h, e, edge, t) => UpsertEdge(s, h, e, edge, t)
    case ReplaceOp(h, nodes, edges, t) => Replace(s, h, nodes, edges, t)
    case RefreshOp(h, t) => Refresh(s, h, t)
    case ValidateOp(h, t) => Validate(s, h, t)
    case DiscardOp(id, owner, now) => Discard(s, id, owner, now, keep)
    case ReclaimOp(id, now) => Reclaim(s, id, now, keep)
    case ActivateOp(id, expected, claimed, now) => Activate(s, id, expected, claimed, now, keep)
  }

  // ----- writes to a building generation -----

  lemma PutNodeKeepsFlat(s: Repo, id: GenerationId, n: NodeId, node: Node)
    requires FlatAgrees(s) && id in s.generations
    ensures FlatAgrees(PutNode(s, id, n, node))
  {
    var s' := PutNode(s, id, n, node);
    forall x | x in s'.generations
      ensures TableAgrees(s'.nodes, s'.generations[x].partition, x, s'.generations[x].nodes)
      ensures TableAgrees(s'.edges, s'.generations[x].partition, x, s'.generations[x].edges)
    {
      assert TableAgrees(s.nodes, s.generations[x].partition, x, s.generations[x].nodes);
      assert TableAgrees(s.edges, s.generations[x].partition, x, s.generations[x].edges);
    }
  }

  lemma PutEdgeKeepsFlat(s: Repo, id: GenerationId, e: EdgeId, edge: Edge)
    requires FlatAgrees(s) && id in s.generations
    ensures FlatAgrees(PutEdge(s, id, e, edge))
  {
    var s' := PutEdge(s, id, e, edge);
    forall x | x in s'.generations
      ensures TableAgrees(s'.nodes, s'.generations[x].partition, x, s'.generations[x].nodes)
      ensures TableAgrees(s'.edges, s'.generations[x].partition, x, s'.generations[x].edges)
    {
      assert TableAgrees(s.nodes, s.generations[x].partition, x, s.generations[x].nodes);
      assert TableAgrees(s.edges, s.generations[x].partition, x, s.generations[x].edges);
    }
  }

  lemma FlatTable<V>(flat: map<Key, V>, partition: int, id: GenerationId, table: map<int, V>)
    ensures TableAgrees(Without(flat, id) + Flat(partition, id, table), partition, id, table)
  {
  }

  lemma OtherTable<V>(flat: map<Key, V>, partition: int, id: GenerationId, table: map<int, V>,
                      p: int, x: GenerationId, other: map<int, V>)
    requires x != id && TableAgrees(flat, p, x, other)
    ensures TableAgrees(Without(flat, id) + Flat(partition, id, table), p, x, other)
  {
  }

  lemma ReplaceKeepsFlat(s: Repo, id: GenerationId, nodes: map<NodeId, Node>, edges: map<EdgeId, Edge>)
    requires FlatAgrees(s) && id in s.generations
    ensures FlatAgrees(ReplaceRecords(s, id, nodes, edges))
  {
    var p := s.generations[id].partition;
    var s' := ReplaceRecords(s, id, nodes, edges);
    forall x | x in s'.generations
      ensures TableAgrees(s'.nodes, s'.generations[x].partition, x, s'.generations[x].nodes)
      ensures TableAgrees(s'.edges, s'.generations[x].partition, x, s'.generations[x].edges)
    {
      if x == id {
        FlatTable(s.nodes, p, id, nodes);
        FlatTable(s.edges, p, id, edges);
      } else {
        OtherTable(s.nodes, p, id, nodes, s.generations[x].partition, x, s.generations[x].nodes);
        OtherTable(s.edges, p, id, edges, s.generations[x].partition, x, s.generations[x].edges);
      }
    }
    assert forall k: Key :: k in Flat(p, id, nodes) ==> k.generation == id;
    assert forall k: Key :: k in Flat(p, id, edges) ==> k.generation == id;
  }

  lemma {:induction false} ValidatedNodesBelong(partition: int, records: seq<(NodeId, Node)>)
    ensures ValidatedNodes(partition, records).Good? ==>
              forall n :: n in ValidatedNodes(partition, records).table ==>
                ValidatedNodes(partition, records).table[n].partition == partition
  {
    if records != [] {
      ValidatedNodesBelong(partition, records[..|records| - 1]);
    }
  }

  lemma {:induction false} ValidatedEdgesBelong(partition: int, records: seq<(EdgeId, Edge)>, nodes: map<NodeId, Node>)
    ensures ValidatedEdges(partition, records, nodes).Good? ==>
              forall e :: e in ValidatedEdges(partition, records, nodes).table ==>
                var edge := ValidatedEdges(partition, records, nodes).table[e];
                edge.partition == partition && edge.source in nodes && edge.target in nodes
  {
    if records != [] {
      ValidatedEdgesBelong(partition, records[..|records| - 1], nodes);
    }
  }

  /** A step that changes one pending generation in place and leaves its status alone, or validates it. */
  ghost predicate Touched(s: Repo, s': Repo, id: GenerationId) {
    && id in s.generations && s'.generations.Keys == s.generations.Keys && s'.active == s.active && s'.issued == s.issued
    && (forall x :: x in s.generations && x != id ==> s'.generations[x] == s.generations[x])
    && s.generations[id].status == Building && s'.generations[id].status in {Building, Validated}
    && s'.generations[id].partition == s.generations[id].partition
    && s'.generations[id].revision == s.generations[id].revision
    && s'.generations[id].owner == s.generations[id].owner
  }

  /** Nothing became active or stopped being it. */
  lemma SameActiveKeepsPointers(s: Repo, s': Repo)
    requires PointersOk(s) && s'.active == s.active && s.generations.Keys <= s'.generations.Keys
    requires forall x :: x in s.generations ==>
               && s'.generations[x].partition == s.generations[x].partition
               && (s'.generations[x].status == Active <==> s.generations[x].status == Active)
    requires forall x :: x in s'.generations && x !in s.generations ==> s'.generations[x].status != Active
    ensures PointersOk(s')
  {
    forall p | p in s'.active
      ensures s'.active[p] in s'.generations && s'.generations[s'.active[p]].partition == p
      ensures s'.generations[s'.active[p]].status == Active
    {
      var id := s.active[p];
      assert id in s.generations.Keys && id in s'.generations;
      assert s'.generations[id].partition == s.generations[id].partition;
    }
  }

  lemma SameRetired(s: Repo, s': Repo, p: int)
    requires forall x :: x in s.generations ==> x in s'.generations
    requires forall x :: x in s'.generations ==>
               (s'.generations[x].partition == p && s'.generations[x].status == Retired
                <==> x in s.generations && s.generations[x].partition == p && s.generations[x].status == Retired)
    ensures RetiredOf(s', p) == RetiredOf(s, p)
  {
    forall x ensures x in RetiredOf(s', p) <==> x in RetiredOf(s, p) {
      if x in s.generations {
        assert x in s'.generations;
      }
    }
  }

  lemma SameRetiredKeepBounds(s: Repo, s': Repo, keep: Retention)
    requires Bounded(s, keep) && forall x :: x in s.generations ==> x in s'.generations
    requires forall x :: x in s'.generations ==>
               if x in s.generations then
                 && s'.generations[x].partition == s.generations[x].partition
                 && (s'.generations[x].status == Retired <==> s.generations[x].status == Retired)
               else s'.generations[x].status != Retired
    ensures Bounded(s', keep)
  {
    forall p ensures |RetiredOf(s', p)| <= keep.rollback {
      SameRetired(s, s', p);
    }
  }

  lemma TouchedIsOnward(s: Repo, s': Repo, id: GenerationId)
    requires Touched(s, s', id) && GenerationsOk(s) && GenerationOk(s'.generations[id])
    ensures GenerationsOk(s') && Onward(s, s')
  {
    forall x | x in s'.generations ensures GenerationOk(s'.generations[x]) && Frozen(s.generations[x], s'.generations[x]) {
      assert GenerationOk(s.generations[x]);
      assert x != id ==> s'.generations[x] == s.generations[x];
    }
  }

  lemma TouchedKeepsSound(s: Repo, s': Repo, id: GenerationId, keep: Retention)
    requires Sound(s, keep) && Touched(s, s', id) && FlatAgrees(s') && GenerationOk(s'.generations[id])
    ensures Sound(s', keep) && Onward(s, s')
  {
    TouchedIsOnward(s, s', id);
    SameActiveKeepsPointers(s, s');
    SameRetiredKeepBounds(s, s', keep);
  }

  lemma PutNodeKeepsOk(g: Generation, n: NodeId, node: Node)
    requires GenerationOk(g) && g.status == Building && node.partition == g.partition
    ensures GenerationOk(g.(nodes := g.nodes[n := node]))
  {
  }

  lemma PutEdgeKeepsOk(g: Generation, e: EdgeId, edge: Edge)
    requires GenerationOk(g) && g.status == Building && edge.partition == g.partition && EdgeError(edge, g.nodes).None?
    ensures GenerationOk(g.(edges := g.edges[e := edge]))
  {
  }

  lemma PutNodeKeepsSound(s: Repo, id: GenerationId, n: NodeId, node: Node, keep: Retention)
    requires Sound(s, keep) && id in s.generations && s.generations[id].status == Building
    requires node.partition == s.generations[id].partition
    ensures Sound(PutNode(s, id, n, node), keep) && Onward(s, PutNode(s, id, n, node))
  {
    PutNodeKeepsOk(s.generations[id], n, node);
    PutNodeKeepsFlat(s, id, n, node);
    TouchedKeepsSound(s, PutNode(s, id, n, node), id, keep);
  }

  lemma PutEdgeKeepsSound(s: Repo, id: GenerationId, e: EdgeId, edge: Edge, keep: Retention)
    requires Sound(s, keep) && id in s.generations && s.generations[id].status == Building
    requires edge.partition == s.generations[id].partition && EdgeError(edge, s.generations[id].nodes).None?
    ensures Sound(PutEdge(s, id, e, edge), keep) && Onward(s, PutEdge(s, id, e, edge))
  {
    assert GenerationOk(s.generations[id]);
    PutEdgeKeepsOk(s.generations[id], e, edge);
    PutEdgeKeepsFlat(s, id, e, edge);
    PutEdgeTouches(s, id, e, edge);
    TouchedKeepsSound(s, PutEdge(s, id, e, edge), id, keep);
  }

  lemma PutEdgeTouches(s: Repo, id: GenerationId, e: EdgeId, edge: Edge)
    requires id in s.generations && s.generations[id].status == Building
    ensures Touched(s, PutEdge(s, id, e, edge), id)
    ensures var g := s.generations[id];
            PutEdge(s, id, e, edge).generations[id] == g.(edges := g.edges[e := edge])
  {
  }

  lemma UpsertNodeKeepsSound(s: Repo, h: Handle, n: NodeId, node: Node, t: Clock, keep: Retention)
    requires Sound(s, keep)
    ensures var s' := UpsertNode(s, h, n, node, t).repo;
            Sound(s', keep) && Onward(s, s')
  {
    var s' := UpsertNode(s, h, n, node, t).repo;
    if s' != s {
      assert s' == PutNode(s, h.generation, n, node);
      PutNodeKeepsSound(s, h.generation, n, node, keep);
    }
  }

  lemma UpsertEdgeKeepsSound(s: Repo, h: Handle, e: EdgeId, edge: Edge, t: Clock, keep: Retention)
    requires Sound(s, keep)
    ensures var s' := UpsertEdge(s, h, e, edge, t).repo;
            Sound(s', keep) && Onward(s, s')
  {
    var s' := UpsertEdge(s, h, e, edge, t).repo;
    if s' != s {
      assert s' == PutEdge(s, h.generation, e, edge);
      PutEdgeKeepsSound(s, h.generation, e, edge, keep);
    }
  }

  lemma ReplaceKeepsSound(s: Repo, h: Handle, nodes: seq<(NodeId, Node)>, edges: seq<(EdgeId, Edge)>, t: Clock, keep: Retention)
    requires Sound(s, keep)
    ensures var s' := Replace(s, h, nodes, edges, t).repo;
            Sound(s', keep) && Onward(s, s')
  {
    var s' := Replace(s, h, nodes, edges, t).repo;
    if s' != s {
      var g := s.generations[h.generation];
      var nodeTable := ValidatedNodes(g.partition, nodes).table;
      ValidatedNodesBelong(g.partition, nodes);
      ValidatedEdgesBelong(g.partition, edges, nodeTable);
      ReplaceKeepsFlat(s, h.generation, nodeTable, ValidatedEdges(g.partition, edges, nodeTable).table);
      TouchedKeepsSound(s, s', h.generation, keep);
    }
  }

  /** The records stay as they are. */
  lemma SameRecordsKeepFlat(s: Repo, s': Repo)
    requires FlatAgrees(s) && s'.nodes == s.nodes && s'.edges == s.edges && s'.generations.Keys == s.generations.Keys
    requires forall x :: x in s.generations ==>
               && s'.generations[x].partition == s.generations[x].partition
               && s'.generations[x].nodes == s.generations[x].nodes && s'.generations[x].edges == s.generations[x].edges
    ensures FlatAgrees(s')
  {
  }

  /** A pending generation is rewritten with the same records. */
  lemma RewriteKeepsSound(s: Repo, id: GenerationId, g: Generation, keep: Retention)
    requires Sound(s, keep) && id in s.generations && s.generations[id].status == Building
    requires g.status in {Building, Validated} && GenerationOk(g)
    requires g == s.generations[id].(status := g.status, snapshot := g.snapshot, leaseUntil := g.leaseUntil)
    ensures var s' := s.(generations := s.generations[id := g]);
            Sound(s', keep) && Onward(s, s')
  {
    var s' := s.(generations := s.generations[id := g]);
    SameRecordsKeepFlat(s, s');
    TouchedKeepsSound(s, s', id, keep);
  }

  /** The generation that is rewritten, if any. */
  lemma RefreshRewrites(s: Repo, h: Handle, t: Clock)
    ensures var s' := Refresh(s, h, t).repo;
            s' == s || (&& h.generation in s.generations && s.generations[h.generation].status == Building
                        && var g := s.generations[h.generation].(leaseUntil := t.mid + h.lease);
                           s' == s.(generations := s.generations[h.generation := g]))
  {
  }

  lemma RefreshKeepsSound(s: Repo, h: Handle, t: Clock, keep: Retention)
    requires Sound(s, keep)
    ensures Sound(Refresh(s, h, t).repo, keep) && Onward(s, Refresh(s, h, t).repo)
  {
    RefreshRewrites(s, h, t);
    if Refresh(s, h, t).repo != s {
      var g := s.generations[h.generation];
      assert GenerationOk(g);
      RewriteKeepsSound(s, h.generation, g.(leaseUntil := t.mid + h.lease), keep);
    }
  }

  lemma ValidateRewrites(s: Repo, h: Handle, t: Clock)
    ensures var s' := Validate(s, h, t).repo;
            s' == s || (&& h.generation in s.generations && s.generations[h.generation].status == Building
                        && var g := s.generations[h.generation];
                           s' == s.(generations := s.generations[h.generation :=
                                      g.(snapshot := Some(Snapshot(g.nodes, g.edges)), status := Validated)]))
  {
  }

  lemma ValidateKeepsSound(s: Repo, h: Handle, t: Clock, keep: Retention)
    requires Sound(s, keep)
    ensures Sound(Validate(s, h, t).repo, keep) && Onward(s, Validate(s, h, t).repo)
  {
    ValidateRewrites(s, h, t);
    if Validate(s, h, t).repo != s {
      var g := s.generations[h.generation];
      assert GenerationOk(g);
      RewriteKeepsSound(s, h.generation, g.(snapshot := Some(Snapshot(g.nodes, g.edges)), status := Validated), keep);
    }
  }

  lemma AddKeepsFlat(s: Repo, id: GenerationId, g: Generation)
    requires FlatAgrees(s) && id !in s.generations && g.nodes == map[] && g.edges == map[]
    ensures FlatAgrees(s.(generations := s.generations[id := g], issued := s.issued + {id}))
  {
  }

  lemma AddIsOnward(s: Repo, id: GenerationId, g: Generation)
    requires GenerationsOk(s) && id !in s.issued && g.nodes == map[] && g.edges == map[] && g.status == Building
    ensures var s' := s.(generations := s.generations[id := g], issued := s.issued + {id});
            GenerationsOk(s') && Onward(s, s')
  {
  }

  lemma BeginKeepsSound(s: Repo, id: GenerationId, partition: int, revision: int, owner: Owner, now: int, lease: int,
                        keep: Retention)
    requires Sound(s, keep) && id !in s.issued
    ensures var s' := Begin(s, id, partition, revision, owner, now, lease).repo;
            Sound(s', keep) && Onward(s, s')
  {
    var s' := Begin(s, id, partition, revision, owner, now, lease).repo;
    if s' != s {
      AddKeepsFlat(s, id, s'.generations[id]);
      AddIsOnward(s, id, s'.generations[id]);
      SameActiveKeepsPointers(s, s');
      SameRetiredKeepBounds(s, s', keep);
    }
  }

  // ----- collecting keeps the newest retired generations -----

  /** The least element has everyone else before it. */
  lemma LeastHasFullRank(retired: set<GenerationId>, m: GenerationId)
    requires m in retired && forall x :: x in retired ==> m <= x
    ensures Rank(retired, m) == |retired| - 1
  {
    assert (set x | x in retired && x > m) == retired - {m};
  }

  lemma {:induction false} LeastExists(a: set<int>) returns (m: int)
    requires |a| > 0
    ensures m in a && forall x :: x in a ==> m <= x
  {
    m := SomeElement(a);
    var rest := a - {m};
    if rest != {} {
      var other := LeastExists(rest);
      assert forall x :: x in a ==> x == m || x in rest;
      if other < m {
        m := other;
      }
    }
  }

  /** With at most one retired generation too many, collecting restores the bound. */
  lemma CollectRestoresBound(s: Repo, p: int, keep: Retention)
    requires keep.Valid() && |RetiredOf(s, p)| <= keep.rollback + 1
    ensures |RetiredOf(s, p) - Doomed(s, p, keep)| <= keep.rollback
  {
    var retired := RetiredOf(s, p);
    var doomed := Doomed(s, p, keep);
    if |retired| == keep.rollback + 1 {
      var m := LeastExists(retired);
      LeastHasFullRank(retired, m);
      assert m in doomed;
      Cardinality(retired - doomed, retired - {m});
    } else {
      Cardinality(retired - doomed, retired);
    }
  }

  lemma DropKeepsFlat(s: Repo, ids: set<GenerationId>)
    requires FlatAgrees(s)
    ensures FlatAgrees(Drop(s, ids))
  {
    var s' := Drop(s, ids);
    forall x | x in s'.generations
      ensures TableAgrees(s'.nodes, s'.generations[x].partition, x, s'.generations[x].nodes)
      ensures TableAgrees(s'.edges, s'.generations[x].partition, x, s'.generations[x].edges)
    {
      assert TableAgrees(s.nodes, s.generations[x].partition, x, s.generations[x].nodes);
      assert TableAgrees(s.edges, s.generations[x].partition, x, s.generations[x].edges);
    }
  }

  /** The retired generations are within bounds, except that partition `p` may have one too many. */
  ghost predicate OneTooMany(s: Repo, p: int, keep: Retention) {
    forall q :: |RetiredOf(s, q)| <= keep.rollback + (if q == p then 1 else 0)
  }

  lemma CollectKeepsBounds(s: Repo, p: int, keep: Retention, q: int)
    requires keep.Valid() && OneTooMany(s, p, keep)
    ensures |RetiredOf(Collect(s, p, keep), q)| <= keep.rollback
  {
    var doomed := Doomed(s, p, keep);
    if q == p {
      assert RetiredOf(Collect(s, p, keep), p) == RetiredOf(s, p) - doomed;
      CollectRestoresBound(s, p, keep);
    } else {
      assert RetiredOf(Collect(s, p, keep), q) == RetiredOf(s, q);
    }
  }

  /** Everything but the bound on retired generations, which one partition may exceed by one. */
  ghost predicate AlmostSound(s: Repo, p: int, keep: Retention) {
    FlatAgrees(s) && PointersOk(s) && GenerationsOk(s) && OneTooMany(s, p, keep)
  }

  lemma CollectKeepsSound(s: Repo, p: int, keep: Retention)
    requires keep.Valid() && AlmostSound(s, p, keep)
    ensures Sound(Collect(s, p, keep), keep)
    ensures Collect(s, p, keep).active == s.active && Collect(s, p, keep).issued == s.issued
    ensures forall id :: id in Collect(s, p, keep).generations ==>
              id in s.generations && Collect(s, p, keep).generations[id] == s.generations[id]
  {
    var doomed := Doomed(s, p, keep);
    DropKeepsFlat(s, doomed);
    assert forall id :: id in doomed ==> s.generations[id].status == Retired;
    forall q ensures |RetiredOf(Collect(s, p, keep), q)| <= keep.rollback {
      CollectKeepsBounds(s, p, keep, q);
    }
  }

  // ----- retiring and activating -----

  lemma RetiredAfter(s: Repo, s': Repo, ids: set<GenerationId>, p: int, keep: Retention)
    requires forall q :: |RetiredOf(s, q)| <= keep.rollback
    requires |ids| <= 1 && forall id :: id in ids ==> id in s.generations && s.generations[id].partition == p
    requires forall q :: RetiredOf(s', q) <= RetiredOf(s, q) + (if q == p then ids else {})
    ensures OneTooMany(s', p, keep)
  {
    forall q ensures |RetiredOf(s', q)| <= keep.rollback + (if q == p then 1 else 0) {
      Cardinality(RetiredOf(s', q), RetiredOf(s, q) + (if q == p then ids else {}));
    }
  }

  /** Only the status of some generations changed, and only from pending or active to retired or active. */
  ghost predicate Relabelled(s: Repo, s': Repo) {
    && s'.nodes == s.nodes && s'.edges == s.edges && s'.generations.Keys == s.generations.Keys && s'.issued == s.issued
    && (forall x :: x in s.generations ==>
          && s'.generations[x] == s.generations[x].(status := s'.generations[x].status)
          && StatusRank(s.generations[x].status) <= StatusRank(s'.generations[x].status)
          && (s'.generations[x].status in {Validated, Active} ==> s.generations[x].status in {Validated, Active}))
  }

  lemma RelabelledThenCollected(s: Repo, s1: Repo, p: int, keep: Retention)
    requires keep.Valid() && Sound(s, keep) && Relabelled(s, s1) && PointersOk(s1) && OneTooMany(s1, p, keep)
    requires s.active.Keys <= s1.active.Keys
    ensures Sound(Collect(s1, p, keep), keep) && Onward(s, Collect(s1, p, keep))
  {
    SameRecordsKeepFlat(s, s1);
    forall id | id in s1.generations ensures GenerationOk(s1.generations[id]) && Frozen(s.generations[id], s1.generations[id]) {
      assert GenerationOk(s.generations[id]);
    }
    CollectKeepsSound(s1, p, keep);
  }

  lemma SetRetires(s: Repo, id: GenerationId, q: int)
    requires id in s.generations
    ensures RetiredOf(SetStatus(s, id, Retired), q) <= RetiredOf(s, q) + (if q == s.generations[id].partition then {id} else {})
  {
  }

  lemma SetKeepsPointers(s: Repo, id: GenerationId)
    requires PointersOk(s) && id in s.generations && Pending(s.generations[id])
    ensures PointersOk(SetStatus(s, id, Retired)) && Relabelled(s, SetStatus(s, id, Retired))
  {
  }

  lemma RetireKeepsSound(s: Repo, id: GenerationId, keep: Retention)
    requires keep.Valid() && Sound(s, keep) && id in s.generations && Pending(s.generations[id])
    ensures Sound(RetireAndCollect(s, id, keep), keep) && Onward(s, RetireAndCollect(s, id, keep))
  {
    var p := s.generations[id].partition;
    var s1 := SetStatus(s, id, Retired);
    SetKeepsPointers(s, id);
    forall q ensures RetiredOf(s1, q) <= RetiredOf(s, q) + (if q == p then {id} else {}) {
      SetRetires(s, id, q);
    }
    RetiredAfter(s, s1, {id}, p, keep);
    RelabelledThenCollected(s, s1, p, keep);
  }

  /** The swap itself: the former active generation is retired, the new one takes the pointer. */
  function Swap(s: Repo, id: GenerationId, expected: Option<GenerationId>): Repo
    requires id in s.generations && (expected.Some? ==> expected.value in s.generations)
  {
    var s1 := if expected.Some? then SetStatus(s, expected.value, Retired) else s;
    SetStatus(s1, id, Active).(active := s.active[s.generations[id].partition := id])
  }

  lemma ActiveIsActive(s: Repo, p: int)
    requires PointersOk(s)
    ensures ActiveOf(s, p).Some? ==>
              var id := ActiveOf(s, p).value;
              id in s.generations && s.generations[id].status == Active && s.generations[id].partition == p
  {
  }

  lemma SwapRelabels(s: Repo, id: GenerationId, expected: Option<GenerationId>)
    requires id in s.generations && s.generations[id].status == Validated
    requires expected.Some? ==> expected.value in s.generations && s.generations[expected.value].status == Active
    ensures Relabelled(s, Swap(s, id, expected))
  {
  }

  lemma SwapKeepsPointers(s: Repo, id: GenerationId, expected: Option<GenerationId>)
    requires PointersOk(s) && id in s.generations && s.generations[id].status == Validated
    requires ActiveOf(s, s.generations[id].partition) == expected
    requires expected.Some? ==> expected.value in s.generations && s.generations[expected.value].status == Active
    ensures PointersOk(Swap(s, id, expected))
  {
    var s' := Swap(s, id, expected);
    var p := s.generations[id].partition;
    forall q | q in s'.active
      ensures s'.active[q] in s'.generations && s'.generations[s'.active[q]].partition == q
      ensures s'.generations[s'.active[q]].status == Active
    {
      assert q != p ==> s'.active[q] == s.active[q] && Some(s.active[q]) != expected && s.active[q] != id;
    }
    forall x | x in s'.generations && s'.generations[x].status == Active
      ensures s'.generations[x].partition in s'.active && s'.active[s'.generations[x].partition] == x
    {
      assert x != id ==> x in s.generations && s.generations[x].status == Active && Some(x) != expected;
    }
  }

  lemma SwapRetires(s: Repo, id: GenerationId, expected: Option<GenerationId>, q: int)
    requires id in s.generations && (expected.Some? ==> expected.value in s.generations)
    requires expected.Some? ==> s.generations[expected.value].partition == s.generations[id].partition
    ensures RetiredOf(Swap(s, id, expected), q)
            <= RetiredOf(s, q) + (if q == s.generations[id].partition && expected.Some? then {expected.value} else {})
  {
  }

  lemma SwapKeepsSound(s: Repo, id: GenerationId, keep: Retention)
    requires keep.Valid() && Sound(s, keep) && id in s.generations && s.generations[id].status == Validated
    ensures var p := s.generations[id].partition;
            var expected := ActiveOf(s, p);
            && (expected.Some? ==> expected.value in s.generations)
            && Sound(Collect(Swap(s, id, expected), p, keep), keep) && Onward(s, Collect(Swap(s, id, expected), p, keep))
  {
    var p := s.generations[id].partition;
    var expected := ActiveOf(s, p);
    ActiveIsActive(s, p);
    SwapRelabels(s, id, expected);
    SwapKeepsPointers(s, id, expected);
    var s2 := Swap(s, id, expected);
    var ids := if expected.Some? then {expected.value} else {};
    forall q ensures RetiredOf(s2, q) <= RetiredOf(s, q) + (if q == p then ids else {}) {
      SwapRetires(s, id, expected, q);
    }
    RetiredAfter(s, s2, ids, p, keep);
    RelabelledThenCollected(s, s2, p, keep);
  }

  /** An activation swaps the pointer it expects and collects, or changes nothing. */
  lemma ActivateIsSwap(s: Repo, id: GenerationId, expected: Option<GenerationId>, claimed: Option<Owner>, now: int,
                       keep: Retention)
    ensures var r := Activate(s, id, expected, claimed, now, keep);
            if r.answer.Done? then
              && id in s.generations && s.generations[id].status == Validated
              && ActiveOf(s, s.generations[id].partition) == expected
              && ((expected.Some? ==> expected.value in s.generations) ==>
                    r.repo == Collect(Swap(s, id, expected), s.generations[id].partition, keep))
            else r.repo == s
  {
  }

  lemma ActivateKeepsSound(s: Repo, id: GenerationId, expected: Option<GenerationId>, claimed: Option<Owner>, now: int,
                           keep: Retention)
    requires keep.Valid() && Sound(s, keep)
    ensures var s' := Activate(s, id, expected, claimed, now, keep).repo;
            Sound(s', keep) && Onward(s, s')
    ensures Activate(s, id, expected, claimed, now, keep).answer.Done? ==>
              var s' := Activate(s, id, expected, claimed, now, keep).repo;
              ActiveOf(s', s.generations[id].partition) == Some(id)
  {
    ActivateIsSwap(s, id, expected, claimed, now, keep);
    if Activate(s, id, expected, claimed, now, keep).answer.Done? {
      SwapKeepsSound(s, id, keep);
    }
  }

  // ----- every run -----

  /** Fresh identifiers are the one thing a caller owes: `uuid4` never repeats. */
  predicate Legal(s: Repo, op: Op) { op.BeginOp? ==> op.id !in s.issued }

  lemma DiscardKeepsSound(s: Repo, id: GenerationId, owner: Owner, now: int, keep: Retention)
    requires keep.Valid() && Sound(s, keep)
    ensures Sound(Discard(s, id, owner, now, keep).repo, keep) && Onward(s, Discard(s, id, owner, now, keep).repo)
  {
    if Discard(s, id, owner, now, keep).answer.Done? {
      RetireKeepsSound(s, id, keep);
    }
  }

  lemma ReclaimKeepsSound(s: Repo, id: GenerationId, now: int, keep: Retention)
    requires keep.Valid() && Sound(s, keep)
    ensures Sound(Reclaim(s, id, now, keep).repo, keep) && Onward(s, Reclaim(s, id, now, keep).repo)
  {
    if Reclaim(s, id, now, keep).answer.Done? {
      RetireKeepsSound(s, id, keep);
    }
  }

  /** Operations of a writer on the generation it builds. */
  lemma WritingKeepsSound(s: Repo, op: Op, keep: Retention)
    requires Sound(s, keep) && (op.UpsertNodeOp? || op.UpsertEdgeOp? || op.ReplaceOp? || op.RefreshOp? || op.ValidateOp?)
    ensures Sound(Apply(s, op, keep).repo, keep) && Onward(s, Apply(s, op, keep).repo)
  {
    match op
    case UpsertNodeOp(h, n, node, t) => UpsertNodeKeepsSound(s, h, n, node, t, keep);
    case UpsertEdgeOp(h, e, edge, t) => UpsertEdgeKeepsSound(s, h, e, edge, t, keep);
    case ReplaceOp(h, nodes, edges, t) => ReplaceKeepsSound(s, h, nodes, edges, t, keep);
    case RefreshOp(h, t) => RefreshKeepsSound(s, h, t, keep);
    case ValidateOp(h, t) => ValidateKeepsSound(s, h, t, keep);
  }

  lemma ApplyKeepsSound(s: Repo, op: Op, keep: Retention)
    requires keep.Valid() && Sound(s, keep) && Legal(s, op)
    ensures Sound(Apply(s, op, keep).repo, keep) && Onward(s, Apply(s, op, keep).repo)
  {
    match op
    case BeginOp(id, partition, revision, owner, now, lease) =>
      BeginKeepsSound(s, id, partition, revision, owner, now, lease, keep);
    case DiscardOp(id, owner, now) => DiscardKeepsSound(s, id, owner, now, keep);
    case ReclaimOp(id, now) => ReclaimKeepsSound(s, id, now, keep);
    case ActivateOp(id, expected, claimed, now) => ActivateKeepsSound(s, id, expected, claimed, now, keep);
    case _ => WritingKeepsSound(s, op, keep);
  }

  const EMPTY: Repo := Repo(map[], map[], map[], map[], {})

  /** A run: the states it goes through, one operation at a time. */
  ghost predicate IsRun(states: seq<Repo>, ops: seq<Op>, keep: Retention) {
    && |states| == |ops| + 1 && states[0] == EMPTY
    && (forall i :: 0 <= i < |ops| ==> IsStep(states, ops, keep, i))
  }

  ghost predicate IsStep(states: seq<Repo>, ops: seq<Op>, keep: Retention, i: nat)
    requires |states| == |ops| + 1 && i < |ops|
  {
    Legal(states[i], ops[i]) && states[i + 1] == Apply(states[i], ops[i], keep).repo
  }

  lemma EmptyIsSound(keep: Retention)
    ensures Sound(EMPTY, keep)
  {
    forall p ensures RetiredOf(EMPTY, p) == {} {
    }
  }

  /** One step of a run, as the inductions use it. */
  lemma StepKeepsSound(states: seq<Repo>, ops: seq<Op>, keep: Retention, i: nat)
    requires keep.Valid() && IsRun(states, ops, keep) && i < |ops| && Sound(states[i], keep)
    ensures Sound(states[i + 1], keep) && Onward(states[i], states[i + 1])
  {
    assert IsStep(states, ops, keep, i);
    ApplyKeepsSound(states[i], ops[i], keep);
  }

  lemma {:induction false} RunKeepsSound(states: seq<Repo>, ops: seq<Op>, keep: Retention, i: nat)
    requires keep.Valid() && IsRun(states, ops, keep) && i <= |ops|
    ensures Sound(states[i], keep)
  {
    EmptyIsSound(keep);
    if i > 0 {
      RunKeepsSound(states, ops, keep, i - 1);
      StepKeepsSound(states, ops, keep, i - 1);
    }
  }

  /** From any moment of a run to any later one: a validated generation is the same or gone, and does not come back. */
  lemma {:induction false} RunGoesOnward(states: seq<Repo>, ops: seq<Op>, keep: Retention, i: nat, j: nat)
    requires keep.Valid() && IsRun(states, ops, keep) && i <= j <= |ops|
    ensures Onward(states[i], states[j])
    decreases j - i
  {
    if i < j {
      RunGoesOnward(states, ops, keep, i, j - 1);
      RunKeepsSound(states, ops, keep, j - 1);
      StepKeepsSound(states, ops, keep, j - 1);
      OnwardIsTransitive(states[i], states[j - 1], states[j]);
    } else {
      RunKeepsSound(states, ops, keep, i);
    }
  }

  /** What a reader gets: the snapshot of the visible active generation. */
  function ReadActive(s: Repo, partition: int, visible: bool): Option<(GenerationId, Snapshot)> {
    if partition !in s.active || !visible then None
    else if s.active[partition] !in s.generations then None
    else
      var g := s.generations[s.active[partition]];
      if g.status != Active || g.snapshot.None? then None else Some((s.active[partition], g.snapshot.value))
  }

  /** At any moment of a run, an active pointer that is visible resolves to a snapshot that is closed under endpoints,
      belongs to the partition, and is the very graph its builder validated - now and at every earlier moment since. */
  lemma ActivePointerResolves(states: seq<Repo>, ops: seq<Op>, keep: Retention, i: nat, j: nat, partition: int)
    requires keep.Valid() && IsRun(states, ops, keep) && i <= j <= |ops| && partition in states[j].active
    ensures var read := ReadActive(states[j], partition, true);
            && read.Some? && read.value.0 == states[j].active[partition]
            && (forall n :: n in read.value.1.nodes ==> read.value.1.nodes[n].partition == partition)
            && (forall e :: e in read.value.1.edges ==>
                  read.value.1.edges[e].source in read.value.1.nodes && read.value.1.edges[e].target in read.value.1.nodes)
            && (read.value.0 in states[i].generations && states[i].generations[read.value.0].status != Building ==>
                  states[i].generations[read.value.0].snapshot == Some(read.value.1))
  {
    RunKeepsSound(states, ops, keep, j);
    RunKeepsSound(states, ops, keep, i);
    RunGoesOnward(states, ops, keep, i, j);
    var id := states[j].active[partition];
    if id in states[i].generations {
      assert Frozen(states[i].generations[id], states[j].generations[id]);
    }
  }
}
