/** Generations of a property graph: leased while they are built, frozen once validated, one active per partition. */
module GraphGenerations {
  import opened Options
  import opened Graph

  type GenerationId = int
  type Owner = int

  datatype Status = Building | Validated | Active | Retired

  datatype Generation = Generation(partition: int, revision: nat, owner: Owner, leaseUntil: int, status: Status,
                                   snapshot: Option<Snapshot>, nodes: map<NodeId, Node>, edges: map<EdgeId, Edge>)

  /** The flat tables keep every record a second time, under its partition and generation. */
  datatype Key = Key(partition: int, generation: GenerationId, id: int)

  /** `issued` holds the identifiers handed out so far; a fresh one is never among them. */
  datatype Repo = Repo(nodes: map<Key, Node>, edges: map<Key, Edge>, generations: map<GenerationId, Generation>,
                       active: map<int, GenerationId>, issued: set<GenerationId>)

  /** How many retired generations a partition keeps, and how many are collected at a time. */
  datatype Retention = Retention(rollback: nat, batch: nat) {
    predicate Valid() { batch > 0 }
  }

  /** The clock readings of one call, in order. */
  datatype Clock = Clock(enter: int, mid: int, leave: int)

  /** A writer is bound to one generation and dies when that generation is validated or discarded. */
  datatype Handle = Handle(generation: GenerationId, owner: Owner, lease: int, valid: bool)

  datatype Error = InputInvalid | WriterInvalid | GenerationMissing | OwnershipLost | NotValidated | NotReclaimable
                 | AccountMismatch | NodeConflict | EdgeConflict | EndpointAbsent | ActiveChanged

  datatype Answer = Created | Updated | Unchanged | Done | Raised(error: Error)

  /** A call may raise after it has changed something: its last lease check comes after its writes. */
  datatype Result = Result(repo: Repo, answer: Answer)

  // ----- who may write -----

  function OwnedBuild(s: Repo, h: Handle, now: int): Option<Error> {
    if !h.valid then Some(WriterInvalid)
    else if h.generation !in s.generations then Some(GenerationMissing)
    else
      var g := s.generations[h.generation];
      if g.status != Building || g.owner != h.owner || g.leaseUntil <= now then Some(OwnershipLost) else None
  }

  /** The lease check that ends a write. */
  function Leave(s: Repo, h: Handle, now: int, answer: Answer): Result {
    var lost := OwnedBuild(s, h, now);
    Result(s, if lost.Some? then Raised(lost.value) else answer)
  }

  // ----- building -----

  function Begin(s: Repo, id: GenerationId, partition: int, revision: int, owner: Owner, now: int, lease: int): Result {
    if revision < 0 || lease <= 0 then Result(s, Raised(InputInvalid))
    else
      var g := Generation(partition, revision, owner, now + lease, Building, None, map[], map[]);
      Result(s.(generations := s.generations[id := g], issued := s.issued + {id}), Done)
  }

  function PutNode(s: Repo, id: GenerationId, n: NodeId, node: Node): Repo
    requires id in s.generations
  {
    var g := s.generations[id];
    s.(nodes := s.nodes[Key(g.partition, id, n) := node], generations := s.generations[id := g.(nodes := g.nodes[n := node])])
  }

  function PutEdge(s: Repo, id: GenerationId, e: EdgeId, edge: Edge): Repo
    requires id in s.generations
  {
    var g := s.generations[id];
    s.(edges := s.edges[Key(g.partition, id, e) := edge], generations := s.generations[id := g.(edges := g.edges[e := edge])])
  }

  function UpsertNode(s: Repo, h: Handle, n: NodeId, node: Node, t: Clock): Result {
    var lost := OwnedBuild(s, h, t.enter);
    if lost.Some? then Result(s, Raised(lost.value))
    else
      var g := s.generations[h.generation];
      if node.partition != g.partition then Result(s, Raised(AccountMismatch))
      else
        var key := Key(g.partition, h.generation, n);
        if key in s.nodes && s.nodes[key].kind != node.kind then Result(s, Raised(NodeConflict))
        else if key in s.nodes && s.nodes[key] == node then Result(s, Unchanged)
        else Leave(PutNode(s, h.generation, n, node), h, t.leave, if key in s.nodes then Updated else Created)
  }

  function EdgeError(edge: Edge, nodes: map<NodeId, Node>): Option<Error> {
    if edge.source !in nodes || edge.target !in nodes then Some(EndpointAbsent)
    else if nodes[edge.source].partition != edge.partition || nodes[edge.target].partition != edge.partition then
      Some(AccountMismatch)
    else None
  }

  predicate SameEdgeIdentity(a: Edge, b: Edge) { a.source == b.source && a.target == b.target && a.relation == b.relation }

  function UpsertEdge(s: Repo, h: Handle, e: EdgeId, edge: Edge, t: Clock): Result {
    var lost := OwnedBuild(s, h, t.enter);
    if lost.Some? then Result(s, Raised(lost.value))
    else
      var g := s.generations[h.generation];
      var bad := EdgeError(edge, g.nodes);
      if edge.partition != g.partition then Result(s, Raised(AccountMismatch))
      else if bad.Some? then Result(s, Raised(bad.value))
      else
        var key := Key(g.partition, h.generation, e);
        if key in s.edges && !SameEdgeIdentity(s.edges[key], edge) then Result(s, Raised(EdgeConflict))
        else if key in s.edges && s.edges[key] == edge then Result(s, Unchanged)
        else Leave(PutEdge(s, h.generation, e, edge), h, t.leave, if key in s.edges then Updated else Created)
  }

  // ----- replacing a whole build -----

  datatype Records<V> = Good(table: map<int, V>) | Bad(error: Error)

  /** The records as a table; the first one that is foreign or contradicts an earlier one is an error. */
  function ValidatedNodes(partition: int, records: seq<(NodeId, Node)>): Records<Node> {
    if records == [] then Good(map[])
    else
      var (n, node) := records[|records| - 1];
      match ValidatedNodes(partition, records[..|records| - 1])
      case Bad(error) => Bad(error)
      case Good(table) =>
        if node.partition != partition then Bad(AccountMismatch)
        else if n in table && table[n] != node then Bad(NodeConflict)
        else Good(table[n := node])
  }

  function ValidatedEdges(partition: int, records: seq<(EdgeId, Edge)>, nodes: map<NodeId, Node>): Records<Edge> {
    if records == [] then Good(map[])
    else
      var (e, edge) := records[|records| - 1];
      match ValidatedEdges(partition, records[..|records| - 1], nodes)
      case Bad(error) => Bad(error)
      case Good(table) =>
        if edge.partition != partition then Bad(AccountMismatch)
        else if EdgeError(edge, nodes).Some? then Bad(EdgeError(edge, nodes).value)
        else if e in table && table[e] != edge then Bad(EdgeConflict)
        else Good(table[e := edge])
  }

  /** A flat table without the records of one generation. */
  function Without<V>(m: map<Key, V>, id: GenerationId): map<Key, V> {
    map k | k in m && k.generation != id :: m[k]
  }

  function KeysOf<V>(partition: int, id: GenerationId, table: map<int, V>): set<Key> {
    set n | n in table :: Key(partition, id, n)
  }

  /** A generation's records as they stand in the flat table. */
  function Flat<V>(partition: int, id: GenerationId, table: map<int, V>): map<Key, V> {
    map k | k in KeysOf(partition, id, table) :: table[k.id]
  }

  function ReplaceRecords(s: Repo, id: GenerationId, nodes: map<NodeId, Node>, edges: map<EdgeId, Edge>): Repo
    requires id in s.generations
  {
    var g := s.generations[id];
    s.(generations := s.generations[id := g.(nodes := nodes, edges := edges)],
       nodes := Without(s.nodes, id) + Flat(g.partition, id, nodes),
       edges := Without(s.edges, id) + Flat(g.partition, id, edges))
  }

  function Replace(s: Repo, h: Handle, nodes: seq<(NodeId, Node)>, edges: seq<(EdgeId, Edge)>, t: Clock): Result {
    var lost := OwnedBuild(s, h, t.enter);
    if lost.Some? then Result(s, Raised(lost.value))
    else
      var g := s.generations[h.generation];
      match ValidatedNodes(g.partition, nodes)
      case Bad(error) => Result(s, Raised(error))
      case Good(nodeTable) =>
        match ValidatedEdges(g.partition, edges, nodeTable)
        case Bad(error) => Result(s, Raised(error))
        case Good(edgeTable) => Leave(ReplaceRecords(s, h.generation, nodeTable, edgeTable), h, t.leave, Done)
  }

  function Refresh(s: Repo, h: Handle, t: Clock): Result {
    var lost := OwnedBuild(s, h, t.enter);
    if lost.Some? then Result(s, Raised(lost.value))
    else
      var g := s.generations[h.generation];
      Leave(s.(generations := s.generations[h.generation := g.(leaseUntil := t.mid + h.lease)]), h, t.leave, Done)
  }

  function Validate(s: Repo, h: Handle, t: Clock): Result {
    var lost := OwnedBuild(s, h, t.enter);
    var late := OwnedBuild(s, h, t.leave);
    if lost.Some? then Result(s, Raised(lost.value))
    else if late.Some? then Result(s, Raised(late.value))
    else
      var g := s.generations[h.generation];
      var frozen := g.(snapshot := Some(Snapshot(g.nodes, g.edges)), status := Validated);
      Result(s.(generations := s.generations[h.generation := frozen]), Done)
  }

  // ----- retiring and collecting -----

  function RetiredOf(s: Repo, partition: int): set<GenerationId> {
    set id | id in s.generations && s.generations[id].partition == partition && s.generations[id].status == Retired
  }

  /** How many retired generations of the partition come before `id` when the greatest identifier comes first. */
  function Rank(retired: set<GenerationId>, id: GenerationId): nat {
    |set x | x in retired && x > id|
  }

  /** What one collection takes: the next batch after the greatest `rollback` ones. */
  function Band(retired: set<int>, keep: Retention): set<int> {
    set id | id in retired && keep.rollback <= Rank(retired, id) < keep.rollback + keep.batch
  }

  function Doomed(s: Repo, partition: int, keep: Retention): set<GenerationId> {
    Band(RetiredOf(s, partition), keep)
  }

  /** The repository without some generations and their records. */
  function Drop(s: Repo, ids: set<GenerationId>): Repo {
    s.(generations := s.generations - ids,
       nodes := map k | k in s.nodes && k.generation !in ids :: s.nodes[k],
       edges := map k | k in s.edges && k.generation !in ids :: s.edges[k])
  }

  function Collect(s: Repo, partition: int, keep: Retention): Repo {
    Drop(s, Doomed(s, partition, keep))
  }

  function SetStatus(s: Repo, id: GenerationId, status: Status): Repo
    requires id in s.generations
  {
    s.(generations := s.generations[id := s.generations[id].(status := status)])
  }

  function RetireAndCollect(s: Repo, id: GenerationId, keep: Retention): Repo
    requires id in s.generations
  {
    Collect(SetStatus(s, id, Retired), s.generations[id].partition, keep)
  }

  predicate Pending(g: Generation) { g.status == Building || g.status == Validated }

  function Discard(s: Repo, id: GenerationId, owner: Owner, now: int, keep: Retention): Result {
    if id !in s.generations then Result(s, Raised(GenerationMissing))
    else
      var g := s.generations[id];
      if !Pending(g) || g.owner != owner || g.leaseUntil <= now then Result(s, Raised(OwnershipLost))
      else Result(RetireAndCollect(s, id, keep), Done)
  }

  function Reclaim(s: Repo, id: GenerationId, now: int, keep: Retention): Result {
    if id !in s.generations then Result(s, Raised(GenerationMissing))
    else
      var g := s.generations[id];
      if !Pending(g) || g.leaseUntil > now then Result(s, Raised(NotReclaimable))
      else Result(RetireAndCollect(s, id, keep), Done)
  }

  function ActiveOf(s: Repo, partition: int): Option<GenerationId> {
    if partition in s.active then Some(s.active[partition]) else None
  }

  function Activate(s: Repo, id: GenerationId, expected: Option<GenerationId>, owner: Option<Owner>, now: int,
                    keep: Retention): Result
  {
    if id !in s.generations then Result(s, Raised(GenerationMissing))
    else
      var g := s.generations[id];
      if g.status != Validated then Result(s, Raised(NotValidated))
      else if owner != Some(g.owner) || g.leaseUntil <= now then Result(s, Raised(OwnershipLost))
      else if ActiveOf(s, g.partition) != expected then Result(s, Raised(ActiveChanged))
      else if expected.Some? && expected.value !in s.generations then Result(s, Raised(GenerationMissing))
      else
        var s1 := if expected.Some? then SetStatus(s, expected.value, Retired) else s;
        var s2 := SetStatus(s1, id, Active).(active := s.active[g.partition := id]);
        Result(Collect(s2, g.partition, keep), Done)
  }

  // ----- the invariant -----

  ghost predicate TableAgrees<V>(flat: map<Key, V>, partition: int, id: GenerationId, table: map<int, V>) {
    && (forall n :: n in table ==> Key(partition, id, n) in flat && flat[Key(partition, id, n)] == table[n])
    && (forall k: Key :: k in flat && k.generation == id ==> k.partition == partition && k.id in table)
  }

  /** The flat tables and the generations' own tables hold the same records. */
  ghost predicate FlatAgrees(s: Repo) {
    && (forall id :: id in s.generations ==>
          && TableAgrees(s.nodes, s.generations[id].partition, id, s.generations[id].nodes)
          && TableAgrees(s.edges, s.generations[id].partition, id, s.generations[id].edges))
    && (forall k: Key :: k in s.nodes ==> k.generation in s.generations)
    && (forall k: Key :: k in s.edges ==> k.generation in s.generations)
  }

  /** Records belong to the partition, edges have both endpoints, and a validated generation has its snapshot. */
  ghost predicate GenerationOk(g: Generation) {
    && (forall n :: n in g.nodes ==> g.nodes[n].partition == g.partition)
    && (forall e :: e in g.edges ==>
          g.edges[e].partition == g.partition && g.edges[e].source in g.nodes && g.edges[e].target in g.nodes)
    && (g.status == Validated || g.status == Active ==> g.snapshot == Some(Snapshot(g.nodes, g.edges)))
  }

  /** The pointers lead to active generations, and every active generation is pointed to: one per partition. */
  ghost predicate PointersOk(s: Repo) {
    && (forall p :: p in s.active ==>
          && s.active[p] in s.generations && s.generations[s.active[p]].partition == p
          && s.generations[s.active[p]].status == Active)
    && (forall id :: id in s.generations && s.generations[id].status == Active ==>
          s.generations[id].partition in s.active && s.active[s.generations[id].partition] == id)
  }

  ghost predicate GenerationsOk(s: Repo) {
    s.generations.Keys <= s.issued && forall id :: id in s.generations ==> GenerationOk(s.generations[id])
  }

  ghost predicate Bounded(s: Repo, keep: Retention) {
    forall p :: |RetiredOf(s, p)| <= keep.rollback
  }

  ghost predicate Sound(s: Repo, keep: Retention) {
    FlatAgrees(s) && PointersOk(s) && GenerationsOk(s) && Bounded(s, keep)
  }

  // ----- histories -----

  function StatusRank(st: Status): nat {
    match st case Building => 0 case Validated => 1 case Active => 2 case Retired => 3
  }

  /** What never changes in a generation once it is validated. */
  predicate Frozen(a: Generation, b: Generation) {
    && a.partition == b.partition && a.revision == b.revision && a.owner == b.owner
    && StatusRank(a.status) <= StatusRank(b.status)
    && (a.status != Building ==> a.nodes == b.nodes && a.edges == b.edges && a.snapshot == b.snapshot)
  }

  /** From `s` to `s'` a surviving generation only moves forward, a dropped identifier never returns,
      and a partition that had an active generation keeps having one. */
  ghost predicate Onward(s: Repo, s': Repo) {
    && s.issued <= s'.issued
    && (forall id :: id in s'.generations && id in s.issued ==>
          id in s.generations && Frozen(s.generations[id], s'.generations[id]))
    && (forall p :: p in s.active ==> p in s'.active)
  }

  lemma OnwardIsTransitive(a: Repo, b: Repo, c: Repo)
    requires Onward(a, b) && Onward(b, c)
    ensures Onward(a, c)
  {
  }
}
