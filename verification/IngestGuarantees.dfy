/** What ingestion guarantees over whole runs of requests, with repetitions, gaps, reuse and failures. */
module IngestGuarantees {
  import opened Options
  import opened Sequences
  import opened CanonicalModel
  import opened EntityMerge
  import opened SnapshotMerge
  import opened CanonicalRun
  import opened Ingest
  import opened IngestRuns

  datatype Call = IngestCall(stream: StreamId, request: Request) | SettingsCall(op: CanonOp)

  predicate Legal(call: Call) { call.SettingsCall? ==> call.op.Update? || call.op.Bind? || call.op.Applied? }

  function Apply(db: Db, call: Call): Db
    requires Legal(call)
  {
    match call
    case IngestCall(k, r) => Handle(db, k, r).0
    case SettingsCall(op) => HandleSettings(db, op)
  }

  ghost predicate IsRun(states: seq<Db>, calls: seq<Call>) {
    && |states| == |calls| + 1 && states[0] == EMPTY_DB
    && (forall i :: 0 <= i < |calls| ==> IsStep(states, calls, i))
  }

  ghost predicate IsStep(states: seq<Db>, calls: seq<Call>, i: nat)
    requires |states| == |calls| + 1 && i < |calls|
  {
    Legal(calls[i]) && states[i + 1] == Apply(states[i], calls[i])
  }

  // ----- each delivery is applied once -----

  /** How often the event of this epoch was applied. */
  function Applications(ops: seq<CanonOp>, epoch: nat, e: EventId): nat {
    if ops == [] then 0
    else
      var op := ops[|ops| - 1];
      Applications(ops[..|ops| - 1], epoch, e)
      + (if op.Delta? && op.origin.epoch == epoch && op.origin.event == Some(e) then 1 else 0)
  }

  /** Streams have epochs of their own; an event is applied as often as it is stored, and it is stored at most once. */
  ghost predicate AppliedOnce(db: Db) {
    && (forall k :: k in db.streams ==> 1 <= db.streams[k].epoch <= db.lastEpoch)
    && (forall j, k :: j in db.streams && k in db.streams && db.streams[j].epoch == db.streams[k].epoch ==> j == k)
    && (forall k, e :: k in db.streams ==>
          Applications(db.accepted, db.streams[k].epoch, e) == if e in db.streams[k].events then 1 else 0)
    && (forall epoch: nat, e :: db.lastEpoch < epoch ==> Applications(db.accepted, epoch, e) == 0)
  }

  lemma OneMoreApplication(ops: seq<CanonOp>, op: CanonOp, epoch: nat, e: EventId)
    ensures Applications(ops + [op], epoch, e)
            == Applications(ops, epoch, e) + (if op.Delta? && op.origin.epoch == epoch && op.origin.event == Some(e) then 1 else 0)
  {
  }

  lemma RegisterKeepsApplied(db: Db, k: StreamId)
    requires AppliedOnce(db)
    ensures AppliedOnce(Register(db, k))
  {
  }

  /** What a plan does to the events of its stream: nothing, or it stores the one it applies. */
  lemma PlanStoresWhatItApplies(s: Stream, r: Request)
    ensures var plan := PlanFor(s, r);
            && plan.stream.epoch == s.epoch
            && (plan.Answer? ==> plan.stream.events == s.events)
            && (plan.Write? && plan.op.Delta? ==>
                  && plan.op.origin.epoch == s.epoch && plan.op.origin.event.Some?
                  && plan.op.origin.event.value !in s.events
                  && plan.stream.events.Keys == s.events.Keys + {plan.op.origin.event.value})
            && (plan.Write? && !plan.op.Delta? ==> plan.stream.events == s.events)
  {
  }

  lemma AnswerKeepsApplied(db: Db, k: StreamId, s: Stream)
    requires AppliedOnce(db) && k in db.streams && s.epoch == db.streams[k].epoch && s.events == db.streams[k].events
    ensures AppliedOnce(db.(streams := db.streams[k := s]))
  {
  }

  /** The write is to stream `k`, and if it is a delta it stores the event it applies. */
  predicate StoresWhatItApplies(before: Stream, after: Stream, op: CanonOp) {
    && after.epoch == before.epoch
    && if op.Delta? then
         && op.origin.epoch == after.epoch && op.origin.event.Some? && op.origin.event.value !in before.events
         && after.events.Keys == before.events.Keys + {op.origin.event.value}
       else after.events == before.events
  }

  lemma WriteCounts(db: Db, k: StreamId, s: Stream, op: CanonOp, j: StreamId, e: EventId)
    requires AppliedOnce(db) && k in db.streams && StoresWhatItApplies(db.streams[k], s, op) && j in db.streams
    ensures var after := db.streams[k := s][j];
            Applications(db.accepted + [op], after.epoch, e) == if e in after.events then 1 else 0
  {
  }

  lemma WriteKeepsApplied(db: Db, k: StreamId, s: Stream, op: CanonOp, canon: Canon, revision: nat)
    requires AppliedOnce(db) && k in db.streams && StoresWhatItApplies(db.streams[k], s, op)
    ensures AppliedOnce(db.(canon := canon, streams := db.streams[k := s], revision := revision, accepted := db.accepted + [op]))
  {
    var db' := db.(canon := canon, streams := db.streams[k := s], revision := revision, accepted := db.accepted + [op]);
    forall j, e | j in db'.streams
      ensures Applications(db'.accepted, db'.streams[j].epoch, e) == if e in db'.streams[j].events then 1 else 0
    {
      WriteCounts(db, k, s, op, j, e);
    }
    forall epoch: nat, e | db.lastEpoch < epoch ensures Applications(db'.accepted, epoch, e) == 0 {
      OneMoreApplication(db.accepted, op, epoch, e);
    }
  }

  lemma PerformKeepsApplied(db: Db, k: StreamId, r: Request)
    requires AppliedOnce(db) && k in db.streams
    ensures AppliedOnce(Perform(db, k, PlanFor(db.streams[k], r)).0)
  {
    var s := db.streams[k];
    PlanStoresWhatItApplies(s, r);
    match PlanFor(s, r)
    case Answer(stream, _) => AnswerKeepsApplied(db, k, stream);
    case Write(op, stream, _) =>
      var done := Attempt(db.canon, op);
      if done.Done? {
        WriteKeepsApplied(db, k, stream, op, done.state, db.revision + (if done.changed then 1 else 0));
      }
  }

  lemma HandleKeepsApplied(db: Db, k: StreamId, r: Request)
    requires AppliedOnce(db)
    ensures AppliedOnce(Handle(db, k, r).0)
  {
    var db1 := if Registers(r) then Register(db, k) else db;
    RegisterKeepsApplied(db, k);
    if k in db1.streams {
      PerformKeepsApplied(db1, k, r);
    }
  }

  lemma SettingsKeepApplied(db: Db, op: CanonOp)
    requires AppliedOnce(db) && (op.Update? || op.Bind? || op.Applied?)
    ensures AppliedOnce(HandleSettings(db, op))
  {
  }

  lemma SettingsKeepOk(db: Db, op: CanonOp)
    requires DbOk(db) && (op.Update? || op.Bind? || op.Applied?)
    ensures DbOk(HandleSettings(db, op)) && DbOnward(db, HandleSettings(db, op))
  {
    SameDbIsOnward(db);
    if Attempt(db.canon, op).Done? {
      OpStep(db.canon, op);
      AcceptedExtends(db.canon, db.accepted, op);
    }
  }

  lemma ApplyKeeps(db: Db, call: Call)
    requires Legal(call) && DbOk(db) && AppliedOnce(db)
    ensures DbOk(Apply(db, call)) && AppliedOnce(Apply(db, call)) && DbOnward(db, Apply(db, call))
  {
    match call
    case IngestCall(k, r) =>
      HandleKeepsOk(db, k, r);
      HandleKeepsApplied(db, k, r);
    case SettingsCall(op) =>
      SettingsKeepOk(db, op);
      SettingsKeepApplied(db, op);
  }

  lemma StartIsOk(states: seq<Db>, calls: seq<Call>)
    requires IsRun(states, calls)
    ensures DbOk(states[0]) && AppliedOnce(states[0])
  {
  }

  ghost predicate Kept(db: Db) { DbOk(db) && AppliedOnce(db) }

  lemma RunKeeps(states: seq<Db>, calls: seq<Call>, i: nat)
    requires IsRun(states, calls) && i <= |calls|
    ensures DbOk(states[i]) && AppliedOnce(states[i])
  {
    StartIsOk(states, calls);
    forall j | 0 <= j < |states| - 1 ensures Carried(states, Kept, j) {
      assert IsStep(states, calls, j);
      if Kept(states[j]) {
        ApplyKeeps(states[j], calls[j]);
      }
    }
    HoldsAlong(states, Kept, i);
  }

  lemma RunStepsOnward(states: seq<Db>, calls: seq<Call>, i: nat)
    requires IsRun(states, calls) && i < |calls|
    ensures DbOnward(states[i], states[i + 1])
  {
    RunKeeps(states, calls, i);
    assert IsStep(states, calls, i);
    ApplyKeeps(states[i], calls[i]);
  }

  ghost predicate Ascending(states: seq<Db>) {
    forall i :: 0 <= i < |states| - 1 ==> DbOnward(states[i], states[i + 1])
  }

  lemma {:induction false} AscendsFarther(states: seq<Db>, i: nat, j: nat)
    requires Ascending(states) && i <= j < |states|
    ensures DbOnward(states[i], states[j])
    decreases j - i
  {
    if i < j {
      AscendsFarther(states, i, j - 1);
      assert DbOnward(states[j - 1], states[j - 1 + 1]);
      DbOnwardIsTransitive(states[i], states[j - 1], states[j]);
    } else {
      SameDbIsOnward(states[i]);
    }
  }

  lemma RunGoesOnward(states: seq<Db>, calls: seq<Call>, i: nat, j: nat)
    requires IsRun(states, calls) && i <= j <= |calls|
    ensures DbOnward(states[i], states[j])
  {
    forall k | 0 <= k < |states| - 1 ensures DbOnward(states[k], states[k + 1]) {
      RunStepsOnward(states, calls, k);
    }
    AscendsFarther(states, i, j);
  }

  // ----- the guarantees -----

  /** Delivery is gap-free: below the checkpoint every sequence number has exactly one raw event, or lies at or below
      the boundary of a committed snapshot. */
  lemma DeliveryIsGapFree(states: seq<Db>, calls: seq<Call>, i: nat, k: StreamId, n: nat)
    requires IsRun(states, calls) && i <= |calls| && k in states[i].streams
    requires states[i].streams[k].checkpoint.Some? && n <= states[i].streams[k].checkpoint.value
    ensures var s := states[i].streams[k];
            (s.boundary.Some? && n <= s.boundary.value)
            || exists e :: e in s.events && s.events[e].sourceSeq == n
                           && forall f :: f in s.events && s.events[f].sourceSeq == n ==> f == e
  {
    RunKeeps(states, calls, i);
    ExactlyOneEvent(states[i].streams[k], n);
  }

  lemma ExactlyOneEvent(s: Stream, n: nat)
    requires EventsOk(s) && s.checkpoint.Some? && n <= s.checkpoint.value
    ensures (s.boundary.Some? && n <= s.boundary.value)
            || exists e :: e in s.events && s.events[e].sourceSeq == n
                           && forall f :: f in s.events && s.events[f].sourceSeq == n ==> f == e
  {
    if n > s.boundary.value {
      assert Delivered(s, n);
    }
  }

  /** The checkpoint never falls, and no stored event or chunk ever changes. */
  lemma CheckpointNeverFalls(states: seq<Db>, calls: seq<Call>, i: nat, j: nat, k: StreamId)
    requires IsRun(states, calls) && i <= j <= |calls| && k in states[i].streams
    ensures k in states[j].streams && StreamOnward(states[i].streams[k], states[j].streams[k])
    ensures Reached(states[i].streams[k].checkpoint, states[j].streams[k].checkpoint)
  {
    RunGoesOnward(states, calls, i, j);
  }

  /** The account is what the accepted writes make of an empty one, in the order they were accepted; and a stored event
      is among them exactly once. */
  lemma AccountIsFoldOfAccepted(states: seq<Db>, calls: seq<Call>, i: nat, k: StreamId, e: EventId)
    requires IsRun(states, calls) && i <= |calls|
    ensures states[i].canon == ExecAll(EMPTY_ACCOUNT, states[i].accepted) && CanonInvariant(states[i].canon)
    ensures k in states[i].streams ==>
              Applications(states[i].accepted, states[i].streams[k].epoch, e) == if e in states[i].streams[k].events then 1 else 0
  {
    RunKeeps(states, calls, i);
  }

  /** A request that is not accepted writes nothing: no entity, no event, no checkpoint. */
  lemma OnlyAcceptedWrites(db: Db, k: StreamId, r: Request)
    requires !Handle(db, k, r).1.Accepted?
    ensures var db' := Handle(db, k, r).0;
            && db'.canon == db.canon && db'.accepted == db.accepted && db'.revision == db.revision
            && (k in db.streams ==> db'.streams == db.streams)
  {
    var db1 := if Registers(r) then Register(db, k) else db;
    if k in db.streams {
      assert db1 == db;
      assert PlanFor(StreamOf(db1, k), r).Answer? && !Handle(db, k, r).1.Failed? ==>
               PlanFor(StreamOf(db1, k), r).stream == db.streams[k];
    }
  }

  /** An accepted delta is the next one, was not stored before, and is applied with its own change and origin. */
  lemma AcceptedDeltaIsNext(db: Db, k: StreamId, e: EventId, n: nat, change: Change)
    requires DbOk(db) && Handle(db, k, Request.Delta(e, n, change)).1.Accepted?
    ensures var db' := Handle(db, k, Request.Delta(e, n, change)).0;
            && k in db.streams && db.streams[k].checkpoint.Some? && n == db.streams[k].checkpoint.value + 1
            && e !in db.streams[k].events && db'.streams[k].events == db.streams[k].events[e := RawEvent(n, change)]
            && db'.streams[k].checkpoint == Some(n)
            && ApplyChange(db.canon, change, Provenance(db.streams[k].epoch, n, Some(e))).Done?
            && db'.canon == ApplyChange(db.canon, change, Provenance(db.streams[k].epoch, n, Some(e))).state
  {
  }

  /** A delta that was stored once is answered as a duplicate ever after, and changes nothing. */
  lemma RetriedDeltaIsDuplicate(states: seq<Db>, calls: seq<Call>, i: nat, j: nat, k: StreamId, e: EventId)
    requires IsRun(states, calls) && i <= j <= |calls| && k in states[i].streams && e in states[i].streams[k].events
    ensures var stored := states[i].streams[k].events[e];
            var (db, reply) := Handle(states[j], k, Request.Delta(e, stored.sourceSeq, stored.change));
            db == states[j] && reply.Duplicate?
  {
    RunGoesOnward(states, calls, i, j);
    RunKeeps(states, calls, j);
    StoredIsDuplicate(states[j], k, e);
  }

  lemma StoredIsDuplicate(db: Db, k: StreamId, e: EventId)
    requires k in db.streams && EventsOk(db.streams[k]) && e in db.streams[k].events
    ensures var stored := db.streams[k].events[e];
            Handle(db, k, Request.Delta(e, stored.sourceSeq, stored.change)) == (db, Duplicate(At(db.streams[k].checkpoint)))
  {
    assert db.streams[k := db.streams[k]] == db.streams;
  }

  // ----- snapshot uploads -----

  /** So is a chunk that was stored once, before and after its snapshot is committed. */
  lemma RetriedChunkIsDuplicate(states: seq<Db>, calls: seq<Call>, i: nat, j: nat, k: StreamId, id: SnapshotId, index: nat, bytes: nat)
    requires IsRun(states, calls) && i <= j <= |calls| && k in states[i].streams && id in states[i].streams[k].uploads
    requires index in states[i].streams[k].uploads[id].chunks && bytes <= MAX_FRAME_BYTES
    ensures var stored := states[i].streams[k].uploads[id].chunks[index];
            var (db, reply) := Handle(states[j], k, Chunk(id, index, stored, bytes));
            db == states[j] && reply.Duplicate?
  {
    RunGoesOnward(states, calls, i, j);
    StoredChunkIsDuplicate(states[i], states[j], k, id, index, bytes);
  }

  lemma StoredChunkIsDuplicate(db: Db, db': Db, k: StreamId, id: SnapshotId, index: nat, bytes: nat)
    requires DbOnward(db, db') && k in db.streams && id in db.streams[k].uploads && bytes <= MAX_FRAME_BYTES
    requires index in db.streams[k].uploads[id].chunks
    ensures var stored := db.streams[k].uploads[id].chunks[index];
            Handle(db', k, Chunk(id, index, stored, bytes)) == (db', Duplicate(At(db'.streams[k].checkpoint)))
  {
    assert StreamOnward(db.streams[k], db'.streams[k]);
    assert UploadOnward(db.streams[k].uploads[id], db'.streams[k].uploads[id]);
    assert db'.streams[k := db'.streams[k]] == db'.streams;
  }

  predicate IsStaging(s: Stream, id: SnapshotId) { id in s.uploads && s.uploads[id].state == Staging }

  /** At most one upload of a stream is being staged, and every upload's counters match its stored chunks. */
  lemma UploadsMatchTheirChunks(states: seq<Db>, calls: seq<Call>, i: nat, k: StreamId, id: SnapshotId, other: SnapshotId)
    requires IsRun(states, calls) && i <= |calls| && k in states[i].streams && id in states[i].streams[k].uploads
    ensures var u := states[i].streams[k].uploads[id];
            && Contiguous(u.chunks, u.next) && u.next <= u.announced.chunkCount
            && u.received == Received(InOrder(u.chunks, u.next)) && KindsOrdered(InOrder(u.chunks, u.next))
            && (u.state == Staging && IsStaging(states[i].streams[k], other) ==> other == id)
  {
    RunKeeps(states, calls, i);
    assert StreamOk(states[i].streams[k]);
  }

  /** What applying an upload's chunks record by record, in order, makes of the account. */
  ghost function FoldChunks(c: Canon, rs: seq<Records>, origin: Provenance): Outcome<Canon> {
    var first := FoldSnapshot(c, AllChats(rs), AllMessages(rs), origin);
    if first.Raised? then first else Then(first, ApplyAllEvidence(first.state, AllEvidence(rs)))
  }

  lemma StagedMeansChunks(c: Canon, u: Upload, rs: seq<Records>, origin: Provenance)
    requires CanonInvariant(c) && StagedIs(u, rs)
    ensures ApplySnapshot(c, u.chats, u.messages, u.evidence, origin).Raised? <==> FoldChunks(c, rs, origin).Raised?
    ensures FoldChunks(c, rs, origin).Done? ==> ApplySnapshot(c, u.chats, u.messages, u.evidence, origin) == FoldChunks(c, rs, origin)
  {
    SnapshotMergeRefinesFold(c, u.chats, u.messages, AllChats(rs), AllMessages(rs), origin);
  }

  /** An accepted commit applies exactly the chunks 0 to n - 1 of its upload, record by record, complete as announced,
      and moves the checkpoint from where the upload began to the announced sequence. */
  lemma CommitAppliesItsChunks(db: Db, k: StreamId, id: SnapshotId, n: nat)
    requires DbOk(db) && Handle(db, k, Commit(id, n)).1.Accepted?
    ensures k in db.streams && id in db.streams[k].uploads
    ensures var u := db.streams[k].uploads[id];
            var db' := Handle(db, k, Commit(id, n)).0;
            && u.state == Staging && u.next == n == u.announced.chunkCount && u.received == u.announced.counts
            && Contiguous(u.chunks, n)
            && u.starting == db.streams[k].checkpoint && db'.streams[k].checkpoint == Some(u.announced.throughSeq)
            && db'.streams[k].uploads[id].state == Committed
            && var applied := FoldChunks(db.canon, InOrder(u.chunks, n), Provenance(db.streams[k].epoch, u.announced.throughSeq, None));
               applied.Done? && db'.canon == applied.state && db'.revision == db.revision + (if applied.changed then 1 else 0)
  {
    AcceptedCommitIsComplete(db, k, id, n);
    var u := db.streams[k].uploads[id];
    assert StreamOk(db.streams[k]);
    StagedMeansChunks(db.canon, u, InOrder(u.chunks, n), Provenance(db.streams[k].epoch, u.announced.throughSeq, None));
  }

  lemma AcceptedCommitIsComplete(db: Db, k: StreamId, id: SnapshotId, n: nat)
    requires Handle(db, k, Commit(id, n)).1.Accepted?
    ensures k in db.streams && id in db.streams[k].uploads
    ensures var (s, u) := (db.streams[k], db.streams[k].uploads[id]);
            var db' := Handle(db, k, Commit(id, n)).0;
            && u.state == Staging && u.next == n == u.announced.chunkCount && u.received == u.announced.counts
            && u.starting == s.checkpoint && db'.streams[k] == Committing(s, id)
            && var applied := ApplySnapshot(db.canon, u.chats, u.messages, u.evidence, Provenance(s.epoch, u.announced.throughSeq, None));
               applied.Done? && db'.canon == applied.state && db'.revision == db.revision + (if applied.changed then 1 else 0)
  {
  }

  /** Committing twice applies once: a committed upload answers every later commit without writing. */
  lemma CommittedAnswersDuplicate(db: Db, k: StreamId, id: SnapshotId, n: nat)
    requires k in db.streams && id in db.streams[k].uploads && db.streams[k].uploads[id].state == Committed
    ensures Handle(db, k, Commit(id, n)).0 == db
    ensures Handle(db, k, Commit(id, n)).1.Duplicate? || Handle(db, k, Commit(id, n)).1.Rejected?
  {
  }

  /** Between an accepted begin and the accepted commit of a snapshot the stream's checkpoint did not move. */
  lemma CheckpointRestsDuringUpload(states: seq<Db>, calls: seq<Call>, i: nat, m: nat, j: nat, k: StreamId, id: SnapshotId,
                                    a: Announced, n: nat)
    requires IsRun(states, calls) && i < m <= j < |calls|
    requires calls[i] == IngestCall(k, Begin(id, a)) && Handle(states[i], k, Begin(id, a)).1.Accepted?
    requires calls[j] == IngestCall(k, Commit(id, n)) && Handle(states[j], k, Commit(id, n)).1.Accepted?
    ensures k in states[m].streams && k in states[i + 1].streams
    ensures states[m].streams[k].checkpoint == states[i + 1].streams[k].checkpoint == states[j].streams[k].checkpoint
  {
    assert AtStart(states[i + 1], k, id) by {
      BeginStep(states, calls, i, k, id, a);
    }
    assert AtStart(states[j], k, id) by {
      CommitRemembersCheckpoint(states[j], k, id, n);
    }
    RestsInRun(states, calls, i + 1, m, j, k, id);
  }

  predicate AtStart(db: Db, k: StreamId, id: SnapshotId) {
    k in db.streams && id in db.streams[k].uploads && db.streams[k].uploads[id].starting == db.streams[k].checkpoint
  }

  lemma RestsInRun(states: seq<Db>, calls: seq<Call>, i: nat, m: nat, j: nat, k: StreamId, id: SnapshotId)
    requires IsRun(states, calls) && i <= m <= j <= |calls| && AtStart(states[i], k, id) && AtStart(states[j], k, id)
    ensures k in states[m].streams
    ensures states[m].streams[k].checkpoint == states[i].streams[k].checkpoint == states[j].streams[k].checkpoint
  {
    CheckpointReaches(states, calls, i, m, k);
    CheckpointReaches(states, calls, m, j, k);
    UploadGoesOn(states, calls, i, j, k, id);
    RestsBetween(states[i].streams[k], states[m].streams[k], states[j].streams[k], id);
  }

  lemma CheckpointReaches(states: seq<Db>, calls: seq<Call>, i: nat, j: nat, k: StreamId)
    requires IsRun(states, calls) && i <= j <= |calls| && k in states[i].streams
    ensures k in states[j].streams && Reached(states[i].streams[k].checkpoint, states[j].streams[k].checkpoint)
  {
    CheckpointNeverFalls(states, calls, i, j, k);
  }

  lemma UploadGoesOn(states: seq<Db>, calls: seq<Call>, i: nat, j: nat, k: StreamId, id: SnapshotId)
    requires IsRun(states, calls) && i <= j <= |calls| && k in states[i].streams && id in states[i].streams[k].uploads
    ensures k in states[j].streams && id in states[j].streams[k].uploads
    ensures UploadOnward(states[i].streams[k].uploads[id], states[j].streams[k].uploads[id])
  {
    CheckpointNeverFalls(states, calls, i, j, k);
  }

  lemma BeginStep(states: seq<Db>, calls: seq<Call>, i: nat, k: StreamId, id: SnapshotId, a: Announced)
    requires IsRun(states, calls) && i < |calls|
    requires calls[i] == IngestCall(k, Begin(id, a)) && Handle(states[i], k, Begin(id, a)).1.Accepted?
    ensures AtStart(states[i + 1], k, id)
  {
    assert IsStep(states, calls, i);
    BeginRemembersCheckpoint(states[i], k, id, a);
  }

  lemma CommitRemembersCheckpoint(db: Db, k: StreamId, id: SnapshotId, n: nat)
    requires Handle(db, k, Commit(id, n)).1.Accepted?
    ensures AtStart(db, k, id)
  {
  }

  lemma BeginRemembersCheckpoint(db: Db, k: StreamId, id: SnapshotId, a: Announced)
    requires Handle(db, k, Begin(id, a)).1.Accepted?
    ensures AtStart(Handle(db, k, Begin(id, a)).0, k, id)
  {
  }

  lemma RestsBetween(first: Stream, mid: Stream, last: Stream, id: SnapshotId)
    requires Reached(first.checkpoint, mid.checkpoint) && Reached(mid.checkpoint, last.checkpoint)
    requires id in first.uploads && first.uploads[id].starting == first.checkpoint
    requires id in last.uploads && UploadOnward(first.uploads[id], last.uploads[id])
    requires id in last.uploads && last.uploads[id].starting == last.checkpoint
    ensures mid.checkpoint == first.checkpoint == last.checkpoint
  {
  }
}
