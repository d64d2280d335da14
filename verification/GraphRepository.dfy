/** The repository of graph generations and its writers, as the objects that are updated in place. */
module GraphRepository {
  import opened Options
  import opened Sequences
  import opened Graph
  import opened GraphGenerations
  import G = GraphGenerations
  import H = GraphHistory

  // ----- building the tables of a replacement -----

  method CheckNodes(partition: int, records: seq<(NodeId, Node)>) returns (r: Records<Node>)
    ensures r == ValidatedNodes(partition, records)
  {
    var table: map<NodeId, Node> := map[];
    for i := 0 to |records|
      invariant ValidatedNodes(partition, records[..i]) == Good(table)
    {
      var (n, node) := records[i];
      assert records[..i + 1][..i] == records[..i];
      if node.partition != partition {
        NodesStayBad(partition, records, i + 1, AccountMismatch);
        return Bad(AccountMismatch);
      }
      if n in table && table[n] != node {
        NodesStayBad(partition, records, i + 1, NodeConflict);
        return Bad(NodeConflict);
      }
      table := table[n := node];
    }
    assert records[..|records|] == records;
    r := Good(table);
  }

  lemma {:induction false} NodesStayBad(partition: int, records: seq<(NodeId, Node)>, i: nat, error: Error)
    requires i <= |records| && ValidatedNodes(partition, records[..i]) == Bad(error)
    ensures ValidatedNodes(partition, records) == Bad(error)
    decreases |records|
  {
    if i < |records| {
      assert records[..|records| - 1][..i] == records[..i];
      NodesStayBad(partition, records[..|records| - 1], i, error);
    } else {
      assert records[..i] == records;
    }
  }

  method CheckEdges(partition: int, records: seq<(EdgeId, Edge)>, nodes: map<NodeId, Node>) returns (r: Records<Edge>)
    ensures r == ValidatedEdges(partition, records, nodes)
  {
    var table: map<EdgeId, Edge> := map[];
    for i := 0 to |records|
      invariant ValidatedEdges(partition, records[..i], nodes) == Good(table)
    {
      var (e, edge) := records[i];
      assert records[..i + 1][..i] == records[..i];
      if edge.partition != partition {
        EdgesStayBad(partition, records, nodes, i + 1, AccountMismatch);
        return Bad(AccountMismatch);
      }
      var bad := EdgeError(edge, nodes);
      if bad.Some? {
        EdgesStayBad(partition, records, nodes, i + 1, bad.value);
        return Bad(bad.value);
      }
      if e in table && table[e] != edge {
        EdgesStayBad(partition, records, nodes, i + 1, EdgeConflict);
        return Bad(EdgeConflict);
      }
      table := table[e := edge];
    }
    assert records[..|records|] == records;
    r := Good(table);
  }

  lemma {:induction false} EdgesStayBad(partition: int, records: seq<(EdgeId, Edge)>, nodes: map<NodeId, Node>, i: nat, error: Error)
    requires i <= |records| && ValidatedEdges(partition, records[..i], nodes) == Bad(error)
    ensures ValidatedEdges(partition, records, nodes) == Bad(error)
    decreases |records|
  {
    if i < |records| {
      assert records[..|records| - 1][..i] == records[..i];
      EdgesStayBad(partition, records[..|records| - 1], nodes, i, error);
    } else {
      assert records[..i] == records;
    }
  }

  /** Remove a generation's records from a flat table and enter the new ones, one by one. */
  method Install<V>(flat: map<Key, V>, partition: int, id: GenerationId, table: map<int, V>) returns (m: map<Key, V>)
    ensures m == Without(flat, id) + Flat(partition, id, table)
  {
    m := map k | k in flat && k.generation != id :: flat[k];
    ghost var done: set<int> := {};
    var rest := table.Keys;
    while rest != {}
      invariant rest + done == table.Keys && rest !! done
      invariant forall k: Key :: k in m <==>
                  (k in flat && k.generation != id) || (k.generation == id && k.partition == partition && k.id in done)
      invariant forall k: Key :: k in m ==> m[k] == if k.generation == id then table[k.id] else flat[k]
      decreases |rest|
    {
      var n := Pick(rest);
      m := m[Key(partition, id, n) := table[n]];
      rest := rest - {n};
      done := done + {n};
    }
    InstalledIsFlat(m, flat, partition, id, table);
  }

  lemma InstalledIsFlat<V>(m: map<Key, V>, flat: map<Key, V>, partition: int, id: GenerationId, table: map<int, V>)
    requires forall k: Key :: k in m <==>
               (k in flat && k.generation != id) || (k.generation == id && k.partition == partition && k.id in table)
    requires forall k: Key :: k in m ==> m[k] == if k.generation == id then table[k.id] else flat[k]
    ensures m == Without(flat, id) + Flat(partition, id, table)
  {
  }

  // ----- sorting for collection -----

  /** Strictly falling, with exactly the elements of `s`. */
  ghost predicate Falling(r: seq<int>, s: set<int>) {
    && (forall x :: x in r <==> x in s)
    && (forall i, j :: 0 <= i < j < |r| ==> r[i] > r[j])
  }

  method SortedFalling(s: set<int>) returns (r: seq<int>)
    ensures Falling(r, s)
  {
    var up := Sorted(s);
    r := seq(|up|, i requires 0 <= i < |up| => up[|up| - 1 - i]);
    forall x ensures x in r <==> x in s {
      if x in s {
        var i :| 0 <= i < |up| && up[i] == x;
        assert r[|up| - 1 - i] == x;
      }
    }
  }

  ghost function Elements(r: seq<int>): set<int> { set x | x in r }

  lemma FallingCounts(r: seq<int>, i: nat)
    requires i <= |r| && forall i, j :: 0 <= i < j < |r| ==> r[i] > r[j]
    ensures |Elements(r[..i])| == i
  {
    DistinctSize(r[..i]);
  }

  /** In falling order an element's position is its rank. */
  lemma PositionIsRank(r: seq<int>, s: set<int>, i: nat)
    requires Falling(r, s) && i < |r|
    ensures Rank(s, r[i]) == i
  {
    FallingCounts(r, i);
    forall x ensures (x in s && x > r[i]) <==> x in Elements(r[..i]) {
      if x in s && x > r[i] {
        var j :| 0 <= j < |r| && r[j] == x;
        assert j < i && r[..i][j] == x;
      }
    }
    assert (set x | x in s && x > r[i]) == Elements(r[..i]);
  }

  /** The slice of the falling order is what collection takes. */
  lemma SliceIsBand(retired: set<int>, keep: Retention, r: seq<int>, j: nat)
    requires Falling(r, retired) && keep.rollback <= j <= |r|
    requires j == keep.rollback + keep.batch || (j == |r| && j <= keep.rollback + keep.batch)
    ensures Elements(r[keep.rollback..j]) == Band(retired, keep)
  {
    forall x ensures x in Elements(r[keep.rollback..j]) <==> x in Band(retired, keep) {
      if x in r {
        var i :| 0 <= i < |r| && r[i] == x;
        PositionIsRank(r, retired, i);
        SlicePosition(r, keep.rollback, j, i);
      }
    }
  }

  lemma SlicePosition(r: seq<int>, a: nat, j: nat, i: nat)
    requires (forall m, n :: 0 <= m < n < |r| ==> r[m] > r[n]) && a <= j <= |r| && i < |r|
    ensures r[i] in r[a..j] <==> a <= i < j
  {
    if a <= i < j {
      assert r[a..j][i - a] == r[i];
    }
  }

  lemma DropOneMore(s: Repo, ids: set<GenerationId>, id: GenerationId)
    ensures Drop(Drop(s, ids), {id}) == Drop(s, ids + {id})
  {
  }

  // ----- the repository -----

  class InMemoryGraphRepository {
    var nodes: map<Key, Node>
    var edges: map<Key, Edge>
    var generations: map<GenerationId, Generation>
    var active: map<int, GenerationId>
    ghost var issued: set<GenerationId>
    const keep: Retention

    ghost function State(): Repo
      reads this
    {
      Repo(nodes, edges, generations, active, issued)
    }

    constructor (keep: Retention)
      requires keep.Valid()
      ensures State() == H.EMPTY && this.keep == keep
    {
      nodes, edges, generations, active, issued := map[], map[], map[], map[], {};
      this.keep := keep;
    }

    /** Hand out a writer for a fresh generation. */
    method BeginGeneration(id: GenerationId, partition: int, revision: int, owner: Owner, now: int, lease: int)
      returns (writer: InMemoryGraphGenerationWriter?, answer: Answer)
      requires id !in issued
      modifies this
      ensures Result(State(), answer) == G.Begin(old(State()), id, partition, revision, owner, now, lease)
      ensures answer.Done? <==> writer != null
      ensures writer != null ==> fresh(writer) && writer.repository == this && writer.Handle() == Handle(id, owner, lease, true)
    {
      if revision < 0 || lease <= 0 { return null, Raised(InputInvalid); }
      generations := generations[id := Generation(partition, revision, owner, now + lease, Building, None, map[], map[])];
      issued := issued + {id};
      writer := new InMemoryGraphGenerationWriter(this, id, owner, lease);
      answer := Done;
    }

    /** Swap the partition's pointer, if it still is what the caller expects. */
    method Activate(id: GenerationId, expected: Option<GenerationId>, owner: Option<Owner>, now: int) returns (answer: Answer)
      modifies this
      ensures Result(State(), answer) == G.Activate(old(State()), id, expected, owner, now, keep)
    {
      if id !in generations { return Raised(GenerationMissing); }
      var g := generations[id];
      if g.status != Validated { return Raised(NotValidated); }
      if owner.None? || g.owner != owner.value || g.leaseUntil <= now { return Raised(OwnershipLost); }
      if (if g.partition in active then Some(active[g.partition]) else None) != expected { return Raised(ActiveChanged); }
      if expected.Some? {
        if expected.value !in generations { return Raised(GenerationMissing); }
        generations := generations[expected.value := generations[expected.value].(status := Retired)];
      }
      generations := generations[id := generations[id].(status := Active)];
      active := active[g.partition := id];
      CollectLocked(g.partition);
      answer := Done;
    }

    method DiscardGeneration(id: GenerationId, owner: Owner, now: int) returns (answer: Answer)
      modifies this
      ensures Result(State(), answer) == G.Discard(old(State()), id, owner, now, keep)
    {
      if id !in generations { return Raised(GenerationMissing); }
      var g := generations[id];
      if !Pending(g) || g.owner != owner || g.leaseUntil <= now { return Raised(OwnershipLost); }
      generations := generations[id := g.(status := Retired)];
      CollectLocked(g.partition);
      answer := Done;
    }

    method ReclaimExpiredGeneration(id: GenerationId, now: int) returns (answer: Answer)
      modifies this
      ensures Result(State(), answer) == G.Reclaim(old(State()), id, now, keep)
    {
      if id !in generations { return Raised(GenerationMissing); }
      var g := generations[id];
      if !Pending(g) || g.leaseUntil > now { return Raised(NotReclaimable); }
      generations := generations[id := g.(status := Retired)];
      CollectLocked(g.partition);
      answer := Done;
    }

    /** Remove one generation with all its records. */
    method DropGeneration(id: GenerationId)
      modifies this
      ensures State() == Drop(old(State()), {id})
    {
      generations := generations - {id};
      nodes := map k | k in nodes && k.generation != id :: nodes[k];
      edges := map k | k in edges && k.generation != id :: edges[k];
    }

    /** Drop retired generations beyond the newest `rollback` ones, at most a batch of them. */
    method CollectLocked(partition: int)
      modifies this
      ensures State() == G.Collect(old(State()), partition, keep)
    {
      ghost var start := State();
      var retired := SortedFalling(set id | id in generations && generations[id].partition == partition
                                            && generations[id].status == Retired);
      assert Falling(retired, RetiredOf(start, partition));
      if |retired| <= keep.rollback {
        EmptyBand(RetiredOf(start, partition), keep, retired);
        assert Drop(start, {}) == start;
        return;
      }
      var i := keep.rollback;
      ghost var dropped: set<GenerationId> := {};
      assert retired[keep.rollback..i] == [] && Drop(start, {}) == start;
      while i < |retired| && i < keep.rollback + keep.batch
        invariant keep.rollback <= i <= |retired| && i <= keep.rollback + keep.batch
        invariant dropped == Elements(retired[keep.rollback..i]) && State() == Drop(start, dropped)
      {
        DropOneMore(start, dropped, retired[i]);
        ElementsOfMore(retired[keep.rollback..i], retired[i]);
        assert retired[keep.rollback..i + 1] == retired[keep.rollback..i] + [retired[i]];
        DropGeneration(retired[i]);
        dropped := dropped + {retired[i]};
        i := i + 1;
      }
      SliceIsBand(RetiredOf(start, partition), keep, retired, i);
    }

    /** The reader's view: the snapshot of the active generation, if it is visible. */
    method ReadSnapshot(partition: int, visible: bool) returns (r: Option<(GenerationId, Snapshot)>)
      ensures r == H.ReadActive(State(), partition, visible)
    {
      if partition !in active || !visible { return None; }
      var id := active[partition];
      if id !in generations { return None; }
      var g := generations[id];
      if g.status != Active || g.snapshot.None? { return None; }
      r := Some((id, g.snapshot.value));
    }
  }

  lemma ElementsOfMore(r: seq<int>, x: int)
    ensures Elements(r + [x]) == Elements(r) + {x}
  {
    forall y ensures y in Elements(r + [x]) <==> y in Elements(r) || y == x {
      if y in Elements(r) {
        var i :| 0 <= i < |r| && r[i] == y;
        assert (r + [x])[i] == y;
      }
      assert (r + [x])[|r|] == x;
    }
  }

  lemma EmptyBand(retired: set<int>, keep: Retention, r: seq<int>)
    requires Falling(r, retired) && |r| <= keep.rollback
    ensures Band(retired, keep) == {}
  {
    forall x | x in retired ensures Rank(retired, x) < keep.rollback {
      var i :| 0 <= i < |r| && r[i] == x;
      PositionIsRank(r, retired, i);
    }
  }

  // ----- the writer -----

  class InMemoryGraphGenerationWriter {
    const repository: InMemoryGraphRepository
    const generation: GenerationId
    const owner: Owner
    const lease: int
    var valid: bool

    constructor (repository: InMemoryGraphRepository, generation: GenerationId, owner: Owner, lease: int)
      ensures this.repository == repository && Handle() == G.Handle.Handle(generation, owner, lease, true)
    {
      this.repository, this.generation, this.owner, this.lease, valid := repository, generation, owner, lease, true;
    }

    function Handle(): G.Handle
      reads this
    {
      G.Handle.Handle(generation, owner, lease, valid)
    }

    /** The lease check made before and after every write. */
    method Owned(now: int) returns (lost: Option<Error>)
      ensures lost == OwnedBuild(repository.State(), Handle(), now)
    {
      if !valid { return Some(WriterInvalid); }
      if generation !in repository.generations { return Some(GenerationMissing); }
      var g := repository.generations[generation];
      if g.status != Building || g.owner != owner || g.leaseUntil <= now { return Some(OwnershipLost); }
      lost := None;
    }

    method UpsertNode(n: NodeId, node: Node, t: Clock) returns (answer: Answer)
      modifies repository
      ensures Result(repository.State(), answer) == G.UpsertNode(old(repository.State()), Handle(), n, node, t)
    {
      var lost := Owned(t.enter);
      if lost.Some? { return Raised(lost.value); }
      var g := repository.generations[generation];
      if node.partition != g.partition { return Raised(AccountMismatch); }
      var key := Key(g.partition, generation, n);
      var known := key in repository.nodes;
      if known && repository.nodes[key].kind != node.kind { return Raised(NodeConflict); }
      if known && repository.nodes[key] == node { return Unchanged; }
      repository.nodes := repository.nodes[key := node];
      repository.generations := repository.generations[generation := g.(nodes := g.nodes[n := node])];
      lost := Owned(t.leave);
      if lost.Some? { return Raised(lost.value); }
      answer := if known then Updated else Created;
    }

    method UpsertEdge(e: EdgeId, edge: Edge, t: Clock) returns (answer: Answer)
      modifies repository
      ensures Result(repository.State(), answer) == G.UpsertEdge(old(repository.State()), Handle(), e, edge, t)
    {
      var lost := Owned(t.enter);
      if lost.Some? { return Raised(lost.value); }
      var g := repository.generations[generation];
      if edge.partition != g.partition { return Raised(AccountMismatch); }
      var bad := EdgeError(edge, g.nodes);
      if bad.Some? { return Raised(bad.value); }
      var key := Key(g.partition, generation, e);
      var known := key in repository.edges;
      if known && !SameEdgeIdentity(repository.edges[key], edge) { return Raised(EdgeConflict); }
      if known && repository.edges[key] == edge { return Unchanged; }
      repository.edges := repository.edges[key := edge];
      repository.generations := repository.generations[generation := g.(edges := g.edges[e := edge])];
      lost := Owned(t.leave);
      if lost.Some? { return Raised(lost.value); }
      answer := if known then Updated else Created;
    }

    method Replace(nodes: seq<(NodeId, Node)>, edges: seq<(EdgeId, Edge)>, t: Clock) returns (answer: Answer)
      modifies repository
      ensures Result(repository.State(), answer) == G.Replace(old(repository.State()), Handle(), nodes, edges, t)
    {
      var lost := Owned(t.enter);
      if lost.Some? { return Raised(lost.value); }
      var g := repository.generations[generation];
      var nodeTable := CheckNodes(g.partition, nodes);
      if nodeTable.Bad? { return Raised(nodeTable.error); }
      var edgeTable := CheckEdges(g.partition, edges, nodeTable.table);
      if edgeTable.Bad? { return Raised(edgeTable.error); }
      repository.generations := repository.generations[generation := g.(nodes := nodeTable.table, edges := edgeTable.table)];
      var flatNodes := Install(repository.nodes, g.partition, generation, nodeTable.table);
      var flatEdges := Install(repository.edges, g.partition, generation, edgeTable.table);
      repository.nodes, repository.edges := flatNodes, flatEdges;
      lost := Owned(t.leave);
      if lost.Some? { return Raised(lost.value); }
      answer := Done;
    }

    method Refresh(t: Clock) returns (answer: Answer)
      modifies repository
      ensures Result(repository.State(), answer) == G.Refresh(old(repository.State()), Handle(), t)
    {
      var lost := Owned(t.enter);
      if lost.Some? { return Raised(lost.value); }
      var g := repository.generations[generation];
      repository.generations := repository.generations[generation := g.(leaseUntil := t.mid + lease)];
      lost := Owned(t.leave);
      if lost.Some? { return Raised(lost.value); }
      answer := Done;
    }

    /** Freeze the build; the writer is dead afterwards. */
    method Validate(t: Clock) returns (answer: Answer)
      modifies this, repository
      ensures Result(repository.State(), answer) == G.Validate(old(repository.State()), old(Handle()), t)
      ensures valid == (old(valid) && !answer.Done?)
    {
      var lost := Owned(t.enter);
      if lost.Some? { return Raised(lost.value); }
      var g := repository.generations[generation];
      var snapshot := Snapshot(g.nodes, g.edges);
      lost := Owned(t.leave);
      if lost.Some? { return Raised(lost.value); }
      repository.generations := repository.generations[generation := g.(snapshot := Some(snapshot), status := Validated)];
      valid := false;
      answer := Done;
    }

    method Discard(now: int) returns (answer: Answer)
      modifies this, repository
      ensures Result(repository.State(), answer) ==
              if old(valid) then G.Discard(old(repository.State()), generation, owner, now, repository.keep)
              else Result(old(repository.State()), Raised(WriterInvalid))
      ensures valid == (old(valid) && !answer.Done?)
    {
      if !valid { return Raised(WriterInvalid); }
      answer := repository.DiscardGeneration(generation, owner, now);
      if answer.Done? { valid := false; }
    }
  }
}
