/** What each operation on graph generations answers and stores, and that a reader gets the records that were written. */
module GraphOutcomes {
  import opened Options
  import opened Sequences
  import opened Graph
  import opened GraphGenerations
  import opened GraphHistory

  // ----- records and tables -----

  /** The table holds exactly these records. */
  ghost predicate Holds<V(!new)>(table: map<int, V>, records: seq<(int, V)>) {
    forall i, v :: (i in table && table[i] == v) <==> (i, v) in records
  }

  ghost predicate Contradictory<V(!new)>(records: seq<(int, V)>) {
    exists a, b :: a in records && b in records && a.0 == b.0 && a.1 != b.1
  }

  /** Some node is foreign, or two nodes of one identifier differ. */
  ghost predicate NodesRefused(partition: int, records: seq<(NodeId, Node)>) {
    (exists a :: a in records && a.1.partition != partition) || Contradictory(records)
  }

  /** The edge is foreign, or an endpoint of it is missing or foreign. */
  predicate EdgeRefused(partition: int, edge: Edge, nodes: map<NodeId, Node>) {
    || edge.partition != partition || edge.source !in nodes || edge.target !in nodes
    || nodes[edge.source].partition != partition || nodes[edge.target].partition != partition
  }

  ghost predicate EdgesRefused(partition: int, records: seq<(EdgeId, Edge)>, nodes: map<NodeId, Node>) {
    (exists a :: a in records && EdgeRefused(partition, a.1, nodes)) || Contradictory(records)
  }

  lemma HeldExactly<V(!new)>(table: map<int, V>, records: seq<(int, V)>, i: int, v: V)
    requires Holds(table, records)
    ensures (i in table && table[i] == v) <==> (i, v) in records
  {
  }

  lemma OneMoreHeld<V(!new)>(table: map<int, V>, records: seq<(int, V)>, i: int, v: V)
    requires Holds(table, records) && (i in table ==> table[i] == v)
    ensures Holds(table[i := v], records + [(i, v)])
  {
    forall j, w ensures (j in table[i := v] && table[i := v][j] == w) <==> (j, w) in records + [(i, v)] {
      assert (j in table && table[j] == w) <==> (j, w) in records;
    }
  }

  lemma OneMoreConsistent<V(!new)>(table: map<int, V>, records: seq<(int, V)>, i: int, v: V)
    requires Holds(table, records)
    ensures Contradictory(records + [(i, v)]) <==> i in table && table[i] != v
  {
    var more := records + [(i, v)];
    if i in table && table[i] != v {
      assert (i, table[i]) in records;
      assert (i, table[i]) in more && (i, v) in more;
    }
    if Contradictory(more) {
      var a, b :| a in more && b in more && a.0 == b.0 && a.1 != b.1;
      if a !in records || b !in records {
        var other := if a in records then a else b;
        assert other in records && other.0 == i && other.1 != v;
        assert (other.0, other.1) == other;
        assert i in table && table[i] == other.1;
      }
    }
  }

  lemma {:induction false} NodesOutcome(partition: int, records: seq<(NodeId, Node)>)
    ensures var r := ValidatedNodes(partition, records);
            (r.Bad? <==> NodesRefused(partition, records)) && (r.Good? ==> Holds(r.table, records))
  {
    if records != [] {
      var n := |records| - 1;
      var (before, (i, node)) := (records[..n], records[n]);
      assert records == before + [(i, node)];
      NodesOutcome(partition, before);
      match ValidatedNodes(partition, before)
      case Bad(_) => MoreStaysRefused(partition, before, (i, node));
      case Good(table) =>
        OneMoreConsistent(table, before, i, node);
        if node.partition != partition {
          assert (i, node) in records;
        } else if i in table ==> table[i] == node {
          OneMoreHeld(table, before, i, node);
        }
    }
  }

  lemma MoreStaysRefused(partition: int, records: seq<(NodeId, Node)>, last: (NodeId, Node))
    requires NodesRefused(partition, records)
    ensures NodesRefused(partition, records + [last])
  {
    if a :| a in records && a.1.partition != partition {
      assert a in records + [last];
    } else {
      var a, b :| a in records && b in records && a.0 == b.0 && a.1 != b.1;
      assert a in records + [last] && b in records + [last];
    }
  }

  lemma {:induction false} EdgesOutcome(partition: int, records: seq<(EdgeId, Edge)>, nodes: map<NodeId, Node>)
    ensures var r := ValidatedEdges(partition, records, nodes);
            (r.Bad? <==> EdgesRefused(partition, records, nodes)) && (r.Good? ==> Holds(r.table, records))
  {
    if records != [] {
      var n := |records| - 1;
      var (before, (i, edge)) := (records[..n], records[n]);
      assert records == before + [(i, edge)];
      EdgesOutcome(partition, before, nodes);
      match ValidatedEdges(partition, before, nodes)
      case Bad(_) => MoreEdgesStayRefused(partition, before, nodes, (i, edge));
      case Good(table) =>
        OneMoreConsistent(table, before, i, edge);
        if EdgeRefused(partition, edge, nodes) {
          assert (i, edge) in records;
        } else if i in table ==> table[i] == edge {
          OneMoreHeld(table, before, i, edge);
        }
    }
  }

  lemma MoreEdgesStayRefused(partition: int, records: seq<(EdgeId, Edge)>, nodes: map<NodeId, Node>, last: (EdgeId, Edge))
    requires EdgesRefused(partition, records, nodes)
    ensures EdgesRefused(partition, records + [last], nodes)
  {
    if a :| a in records && EdgeRefused(partition, a.1, nodes) {
      assert a in records + [last];
    } else {
      var a, b :| a in records && b in records && a.0 == b.0 && a.1 != b.1;
      assert a in records + [last] && b in records + [last];
    }
  }

  // ----- who may write -----

  /** The writer is alive, and holds an unexpired lease on a generation that is still being built. */
  predicate MayWrite(s: Repo, h: Handle, now: int) {
    && h.valid && h.generation in s.generations
    && s.generations[h.generation].status == Building && s.generations[h.generation].owner == h.owner
    && now < s.generations[h.generation].leaseUntil
  }

  /** Only this generation differs, and not in who builds it for whom. */
  ghost predicate OnlyGeneration(s: Repo, s': Repo, id: GenerationId) {
    && id in s.generations && id in s'.generations && SameExcept(s.generations, s'.generations, id)
    && s'.active == s.active && s'.issued == s.issued
    && s'.generations[id].partition == s.generations[id].partition && s'.generations[id].owner == s.generations[id].owner
    && s'.generations[id].revision == s.generations[id].revision
  }

  /** The generation's records are these, and nothing else about it changed. */
  ghost predicate Filled(s: Repo, s': Repo, id: GenerationId, nodes: map<NodeId, Node>, edges: map<EdgeId, Edge>) {
    && OnlyGeneration(s, s', id)
    && s'.generations[id].nodes == nodes && s'.generations[id].edges == edges
    && s'.generations[id].status == s.generations[id].status && s'.generations[id].snapshot == s.generations[id].snapshot
    && s'.generations[id].leaseUntil == s.generations[id].leaseUntil
  }

  // ----- building -----

  lemma BeginOutcome(s: Repo, id: GenerationId, partition: int, revision: int, owner: Owner, now: int, lease: int)
    ensures var r := Begin(s, id, partition, revision, owner, now, lease);
            && (r.answer == Done <==> revision >= 0 && lease > 0) && (r.answer != Done ==> r.answer.Raised? && r.repo == s)
            && (r.answer == Done ==>
                  && SameExcept(s.generations, r.repo.generations, id) && id in r.repo.generations
                  && r.repo.active == s.active && r.repo.issued == s.issued + {id}
                  && var g := r.repo.generations[id];
                     && g.partition == partition && g.revision == revision && g.owner == owner && g.leaseUntil == now + lease
                     && g.status == Building && g.snapshot.None? && g.nodes == map[] && g.edges == map[])
  {
  }

  /** A replacement succeeds exactly for a live writer and records that fit together; the generation then holds exactly
      these records. The only way to raise after writing is a lease that runs out meanwhile. */
  lemma ReplaceOutcome(s: Repo, h: Handle, nodes: seq<(NodeId, Node)>, edges: seq<(EdgeId, Edge)>, t: Clock)
    ensures var r := Replace(s, h, nodes, edges, t);
            if !MayWrite(s, h, t.enter) then r.answer.Raised? && r.repo == s
            else
              var g := s.generations[h.generation];
              if NodesRefused(g.partition, nodes) then r.answer.Raised? && r.repo == s
              else
                exists table :: Holds(table, nodes)
                  && if EdgesRefused(g.partition, edges, table) then r.answer.Raised? && r.repo == s
                     else
                       && h.generation in r.repo.generations
                       && Holds(r.repo.generations[h.generation].edges, edges)
                       && Filled(s, r.repo, h.generation, table, r.repo.generations[h.generation].edges)
                       && (if t.leave < g.leaseUntil then r.answer == Done else r.answer.Raised?)
  {
    if MayWrite(s, h, t.enter) {
      var p := s.generations[h.generation].partition;
      NodesOutcome(p, nodes);
      if ValidatedNodes(p, nodes).Good? {
        EdgesOutcome(p, edges, ValidatedNodes(p, nodes).table);
      }
    }
  }

  /** A replacement that answers it is done leaves exactly its records. */
  lemma ReplaceStores(s: Repo, h: Handle, nodes: seq<(NodeId, Node)>, edges: seq<(EdgeId, Edge)>, t: Clock)
    requires Replace(s, h, nodes, edges, t).answer == Done
    ensures var s' := Replace(s, h, nodes, edges, t).repo;
            && MayWrite(s, h, t.enter) && h.generation in s'.generations
            && Holds(s'.generations[h.generation].nodes, nodes) && Holds(s'.generations[h.generation].edges, edges)
            && Filled(s, s', h.generation, s'.generations[h.generation].nodes, s'.generations[h.generation].edges)
  {
    ReplaceOutcome(s, h, nodes, edges, t);
  }

  /** A node is stored unless it is foreign or the stored one is of another kind. */
  lemma UpsertNodeOutcome(s: Repo, h: Handle, n: NodeId, node: Node, t: Clock)
    requires FlatAgrees(s)
    ensures var r := UpsertNode(s, h, n, node, t);
            if !MayWrite(s, h, t.enter) then r.answer.Raised? && r.repo == s
            else
              var g := s.generations[h.generation];
              if node.partition != g.partition || (n in g.nodes && g.nodes[n].kind != node.kind) then
                r.answer.Raised? && r.repo == s
              else if n in g.nodes && g.nodes[n] == node then r.answer == Unchanged && r.repo == s
              else
                && Filled(s, r.repo, h.generation, g.nodes[n := node], g.edges)
                && (if g.leaseUntil <= t.leave then r.answer.Raised? else r.answer == if n in g.nodes then Updated else Created)
  {
    if MayWrite(s, h, t.enter) {
      var g := s.generations[h.generation];
      assert TableAgrees(s.nodes, g.partition, h.generation, g.nodes);
    }
  }

  /** An edge is stored unless it is foreign, an endpoint is missing, or the stored one joins other nodes or by another relation. */
  lemma UpsertEdgeOutcome(s: Repo, h: Handle, e: EdgeId, edge: Edge, t: Clock)
    requires FlatAgrees(s)
    ensures var r := UpsertEdge(s, h, e, edge, t);
            if !MayWrite(s, h, t.enter) then r.answer.Raised? && r.repo == s
            else
              var g := s.generations[h.generation];
              if EdgeRefused(g.partition, edge, g.nodes)
                 || (e in g.edges && (g.edges[e].source != edge.source || g.edges[e].target != edge.target
                                      || g.edges[e].relation != edge.relation))
              then r.answer.Raised? && r.repo == s
              else if e in g.edges && g.edges[e] == edge then r.answer == Unchanged && r.repo == s
              else
                && Filled(s, r.repo, h.generation, g.nodes, g.edges[e := edge])
                && (if g.leaseUntil <= t.leave then r.answer.Raised? else r.answer == if e in g.edges then Updated else Created)
  {
    if MayWrite(s, h, t.enter) {
      var g := s.generations[h.generation];
      assert TableAgrees(s.edges, g.partition, h.generation, g.edges);
    }
  }

  /** A refresh by a live writer lets the lease run its full length again. */
  lemma RefreshOutcome(s: Repo, h: Handle, t: Clock)
    ensures var r := Refresh(s, h, t);
            if !MayWrite(s, h, t.enter) then r.answer.Raised? && r.repo == s
            else
              && OnlyGeneration(s, r.repo, h.generation)
              && r.repo.generations[h.generation] == s.generations[h.generation].(leaseUntil := t.mid + h.lease)
              && (if t.leave < t.mid + h.lease then r.answer == Done else r.answer.Raised?)
  {
  }

  /** A validation freezes the records as they are into the snapshot. */
  lemma ValidateOutcome(s: Repo, h: Handle, t: Clock)
    ensures var r := Validate(s, h, t);
            && (r.answer == Done <==> MayWrite(s, h, t.enter) && MayWrite(s, h, t.leave))
            && (r.answer != Done ==> r.answer.Raised? && r.repo == s)
            && (r.answer == Done ==>
                  && OnlyGeneration(s, r.repo, h.generation)
                  && var (g, g') := (s.generations[h.generation], r.repo.generations[h.generation]);
                     && g'.status == Validated && g'.nodes == g.nodes && g'.edges == g.edges && g'.leaseUntil == g.leaseUntil
                     && g'.snapshot == Some(Snapshot(g.nodes, g.edges)))
  {
  }

  // ----- retiring, collecting, activating -----

  /** The retired generations of the partition that came later. */
  ghost function NewerRetired(s: Repo, partition: int, id: GenerationId): set<GenerationId> {
    set x | x in s.generations && s.generations[x].partition == partition && s.generations[x].status == Retired && id < x
  }

  /** A collection drops the batch of retired generations after the newest ones it keeps, and nothing else. */
  lemma CollectOutcome(s: Repo, p: int, keep: Retention)
    ensures var s' := Collect(s, p, keep);
            && s'.active == s.active && s'.issued == s.issued
            && (forall id :: id in s.generations ==>
                  (id !in s'.generations <==>
                     && s.generations[id].partition == p && s.generations[id].status == Retired
                     && keep.rollback <= |NewerRetired(s, p, id)| < keep.rollback + keep.batch))
            && (forall id :: id in s'.generations ==> id in s.generations && s'.generations[id] == s.generations[id])
  {
    forall id | id in RetiredOf(s, p) ensures Rank(RetiredOf(s, p), id) == |NewerRetired(s, p, id)| {
      assert (set x | x in RetiredOf(s, p) && x > id) == NewerRetired(s, p, id);
    }
  }

  /** Every generation either is as it was, was collected, or is the one that was retired. */
  ghost predicate OnlyRetired(s: Repo, s': Repo, id: GenerationId) {
    && s'.active == s.active && s'.issued == s.issued
    && (forall x :: x in s'.generations ==>
          x in s.generations
          && if x == id then s'.generations[x] == s.generations[x].(status := Retired) else s'.generations[x] == s.generations[x])
    && (forall x :: x in s.generations && x !in s'.generations ==> x == id || s.generations[x].status == Retired)
  }

  /** The owner may give up what is not active yet while the lease runs; anyone may once it has run out. */
  lemma DiscardOutcome(s: Repo, id: GenerationId, owner: Owner, now: int, keep: Retention)
    ensures var r := Discard(s, id, owner, now, keep);
            && (r.answer == Done <==>
                  && id in s.generations && (s.generations[id].status == Building || s.generations[id].status == Validated)
                  && s.generations[id].owner == owner && now < s.generations[id].leaseUntil)
            && (if r.answer == Done then OnlyRetired(s, r.repo, id) else r.answer.Raised? && r.repo == s)
  {
  }

  lemma ReclaimOutcome(s: Repo, id: GenerationId, now: int, keep: Retention)
    ensures var r := Reclaim(s, id, now, keep);
            && (r.answer == Done <==>
                  && id in s.generations && (s.generations[id].status == Building || s.generations[id].status == Validated)
                  && s.generations[id].leaseUntil <= now)
            && (if r.answer == Done then OnlyRetired(s, r.repo, id) else r.answer.Raised? && r.repo == s)
  {
  }

  /** A validated generation becomes active exactly if its owner asks in time and expects the pointer that is there. */
  lemma ActivateOutcome(s: Repo, id: GenerationId, expected: Option<GenerationId>, claimed: Option<Owner>, now: int, keep: Retention)
    requires PointersOk(s)
    ensures var r := Activate(s, id, expected, claimed, now, keep);
            && (r.answer == Done <==>
                  && id in s.generations && s.generations[id].status == Validated
                  && claimed == Some(s.generations[id].owner) && now < s.generations[id].leaseUntil
                  && expected == (if s.generations[id].partition in s.active then Some(s.active[s.generations[id].partition]) else None))
            && (r.answer != Done ==> r.answer.Raised? && r.repo == s)
            && (r.answer == Done ==>
                  && r.repo.active == s.active[s.generations[id].partition := id] && r.repo.issued == s.issued
                  && id in r.repo.generations && r.repo.generations[id] == s.generations[id].(status := Active)
                  && (forall x :: x in r.repo.generations && x != id ==>
                        x in s.generations
                        && r.repo.generations[x] == (if expected == Some(x) then s.generations[x].(status := Retired)
                                                     else s.generations[x]))
                  && (forall x :: x in s.generations && x !in r.repo.generations ==>
                        expected == Some(x) || s.generations[x].status == Retired))
  {
    if id in s.generations {
      ActiveIsActive(s, s.generations[id].partition);
    }
  }

  // ----- from the writer to the reader -----

  /** The operation writes records of this generation. */
  predicate Writes(op: Op, id: GenerationId) {
    (op.UpsertNodeOp? || op.UpsertEdgeOp? || op.ReplaceOp?) && op.handle.generation == id
  }

  lemma WritersLeaveRecords(s: Repo, op: Op, keep: Retention, id: GenerationId)
    requires FlatAgrees(s) && !Writes(op, id) && id in s.generations
    requires op.UpsertNodeOp? || op.UpsertEdgeOp? || op.ReplaceOp? || op.RefreshOp? || op.ValidateOp?
    ensures id in Apply(s, op, keep).repo.generations
    ensures var (g, g') := (s.generations[id], Apply(s, op, keep).repo.generations[id]);
            g'.nodes == g.nodes && g'.edges == g.edges
  {
    match op
    case UpsertNodeOp(h, n, node, t) => UpsertNodeOutcome(s, h, n, node, t);
    case UpsertEdgeOp(h, e, edge, t) => UpsertEdgeOutcome(s, h, e, edge, t);
    case ReplaceOp(h, nodes, edges, t) => ReplaceOutcome(s, h, nodes, edges, t);
    case RefreshOp(h, t) => RefreshOutcome(s, h, t);
    case ValidateOp(h, t) => ValidateOutcome(s, h, t);
  }

  lemma OthersLeaveRecords(s: Repo, op: Op, keep: Retention, id: GenerationId)
    requires Sound(s, keep) && Legal(s, op) && !Writes(op, id) && id in s.generations && id in Apply(s, op, keep).repo.generations
    ensures var (g, g') := (s.generations[id], Apply(s, op, keep).repo.generations[id]);
            g'.nodes == g.nodes && g'.edges == g.edges
  {
    match op
    case BeginOp(x, partition, revision, owner, now, lease) => BeginOutcome(s, x, partition, revision, owner, now, lease);
    case DiscardOp(x, owner, now) => DiscardOutcome(s, x, owner, now, keep);
    case ReclaimOp(x, now) => ReclaimOutcome(s, x, now, keep);
    case ActivateOp(x, expected, claimed, now) => ActivateOutcome(s, x, expected, claimed, now, keep);
    case _ => WritersLeaveRecords(s, op, keep, id);
  }

  ghost predicate NotWritten(ops: seq<Op>, i: nat, j: nat, id: GenerationId)
    requires j <= |ops|
  {
    forall x :: i <= x < j ==> !Writes(ops[x], id)
  }

  /** A generation that is there at two moments was there in between. */
  lemma StillThere(states: seq<Repo>, ops: seq<Op>, keep: Retention, i: nat, x: nat, j: nat, id: GenerationId)
    requires keep.Valid() && IsRun(states, ops, keep) && i <= x <= j <= |ops|
    requires id in states[i].generations && id in states[j].generations
    ensures id in states[x].generations
  {
    RunKeepsSound(states, ops, keep, i);
    assert id in states[i].issued;
    RunGoesOnward(states, ops, keep, i, x);
    RunGoesOnward(states, ops, keep, x, j);
  }

  lemma StepLeavesRecords(states: seq<Repo>, ops: seq<Op>, keep: Retention, j: nat, id: GenerationId)
    requires keep.Valid() && IsRun(states, ops, keep) && j < |ops| && !Writes(ops[j], id)
    requires id in states[j].generations && id in states[j + 1].generations
    ensures states[j + 1].generations[id].nodes == states[j].generations[id].nodes
    ensures states[j + 1].generations[id].edges == states[j].generations[id].edges
  {
    RunKeepsSound(states, ops, keep, j);
    assert IsStep(states, ops, keep, j);
    OthersLeaveRecords(states[j], ops[j], keep, id);
  }

  lemma {:induction false} RecordsRest(states: seq<Repo>, ops: seq<Op>, keep: Retention, i: nat, j: nat, id: GenerationId)
    requires keep.Valid() && IsRun(states, ops, keep) && i <= j <= |ops| && NotWritten(ops, i, j, id)
    requires id in states[i].generations && id in states[j].generations
    ensures states[j].generations[id].nodes == states[i].generations[id].nodes
    ensures states[j].generations[id].edges == states[i].generations[id].edges
    decreases j - i
  {
    if i < j {
      StillThere(states, ops, keep, i, j - 1, j, id);
      RecordsRest(states, ops, keep, i, j - 1, id);
      StepLeavesRecords(states, ops, keep, j - 1, id);
    }
  }

  lemma ReplacedAs(states: seq<Repo>, ops: seq<Op>, keep: Retention, i: nat)
    requires IsRun(states, ops, keep) && i < |ops| && ops[i].ReplaceOp? && Apply(states[i], ops[i], keep).answer == Done
    ensures var id := ops[i].handle.generation;
            && id in states[i + 1].generations
            && Holds(states[i + 1].generations[id].nodes, ops[i].nodes) && Holds(states[i + 1].generations[id].edges, ops[i].edges)
  {
    assert IsStep(states, ops, keep, i);
    ReplaceStores(states[i], ops[i].handle, ops[i].nodes, ops[i].edges, ops[i].t);
  }

  /** A generation validated at `j` that is active at `m` is read as it was validated. */
  lemma ReadAsValidated(states: seq<Repo>, ops: seq<Op>, keep: Retention, j: nat, m: nat, partition: int, id: GenerationId)
    requires keep.Valid() && IsRun(states, ops, keep) && j <= m <= |ops|
    requires id in states[j].generations && states[j].generations[id].status == Validated
    requires partition in states[m].active && states[m].active[partition] == id
    ensures var read := ReadActive(states[m], partition, true);
            read.Some? && read.value.0 == id && states[j].generations[id].snapshot == Some(read.value.1)
  {
    ActivePointerResolves(states, ops, keep, j, m, partition);
  }

  /** Records replaced at one moment and validated later, with nothing written in between, are what every reader of that
      generation gets from then on. */
  lemma ReaderGetsWhatWasWritten(states: seq<Repo>, ops: seq<Op>, keep: Retention, i: nat, j: nat, m: nat, partition: int)
    requires keep.Valid() && IsRun(states, ops, keep) && i < j < m <= |ops|
    requires ops[i].ReplaceOp? && Apply(states[i], ops[i], keep).answer == Done
    requires ops[j].ValidateOp? && ops[j].handle.generation == ops[i].handle.generation
    requires Apply(states[j], ops[j], keep).answer == Done && NotWritten(ops, i + 1, j, ops[i].handle.generation)
    requires partition in states[m].active && states[m].active[partition] == ops[i].handle.generation
    ensures var read := ReadActive(states[m], partition, true);
            && read.Some? && read.value.0 == ops[i].handle.generation
            && Holds(read.value.1.nodes, ops[i].nodes) && Holds(read.value.1.edges, ops[i].edges)
  {
    var id := ops[i].handle.generation;
    ReplacedAs(states, ops, keep, i);
    ValidatedAs(states, ops, keep, j);
    RecordsRest(states, ops, keep, i + 1, j, id);
    ReadAsValidated(states, ops, keep, j + 1, m, partition, id);
  }

  lemma ValidatedAs(states: seq<Repo>, ops: seq<Op>, keep: Retention, j: nat)
    requires keep.Valid() && IsRun(states, ops, keep) && j < |ops| && ops[j].ValidateOp?
    requires Apply(states[j], ops[j], keep).answer == Done
    ensures var id := ops[j].handle.generation;
            && id in states[j].generations && id in states[j + 1].generations && states[j + 1].generations[id].status == Validated
            && states[j + 1].generations[id].snapshot
               == Some(Snapshot(states[j].generations[id].nodes, states[j].generations[id].edges))
  {
    assert IsStep(states, ops, keep, j);
    ValidateOutcome(states[j], ops[j].handle, ops[j].t);
  }
}
