/** What was delivered once is still there at the end of any run, and a coverage generation that gets all its evidence
    completes. */
module DeliveryOutcomes {
  import opened Options
  import opened Sequences
  import opened CanonicalModel
  import opened EntityMerge
  import opened CoverageModel
  import opened SnapshotMerge
  import opened CanonicalRun
  import opened Ingest
  import opened IngestRuns
  import opened IngestGuarantees
  import opened EntityOutcomes
  import opened IngestOutcomes
  import opened SnapshotOutcomes
  import Cov = CoverageOutcomes

  // ----- one change stays visible -----

  predicate AtLeast(a: ChatRecord, b: ChatRecord) { !Beats(b, a) }

  /** The change is still visible: a message unless it was removed, a removal as a tombstone, a chat in this or a better
      version unless it was deleted, evidence on record. */
  ghost predicate Kept(c: Canon, change: Change) {
    var e := c.entities;
    match change
    case ChatUpsert(chat) =>
      if chat.id in e.chatTombstones then LiveChat(e, chat.id).None?
      else LiveChat(e, chat.id).Some? && AtLeast(LiveChat(e, chat.id).value, chat)
    case ChatDelete(id) =>
      && id in e.chatTombstones && LiveChat(e, id).None?
      && (forall m :: m in e.messages && e.messages[m].record.chat == id ==> LiveMessage(e, m).None?)
    case MessageUpsert(m) => LiveMessage(e, m.id) == (if RemovedBefore(e, m.id) then None else Some(m))
    case MessageDelete(id, _) => id in e.messageTombstones && LiveMessage(e, id).None?
    case CoverageObserved(ev) => Recorded(c.coverage, ev)
  }

  lemma TakenIsKept(c: Canon, c': Canon, change: Change, origin: Provenance)
    requires CanonInvariant(c) && CanonInvariant(c') && ChangeTaken(c, c', change, origin)
    ensures Kept(c', change)
  {
  }

  /** The live record of a chat is only ever replaced by one that beats it. */
  ghost predicate ChatsRise(e: Entities, e': Entities) {
    forall k :: LiveChat(e, k).Some? && LiveChat(e', k).Some? ==> AtLeast(LiveChat(e', k).value, LiveChat(e, k).value)
  }

  lemma TakenRises(c: Canon, c': Canon, change: Change, origin: Provenance)
    requires CanonInvariant(c) && ChangeTaken(c, c', change, origin)
    ensures ChatsRise(c.entities, c'.entities)
  {
  }

  lemma RisesFurther(a: Entities, b: Entities, c: Entities)
    requires EntitiesInvariant(b) && Permanent(a, b) && Permanent(b, c) && ChatsRise(a, b) && ChatsRise(b, c)
    ensures ChatsRise(a, c)
  {
    forall k | LiveChat(a, k).Some? && LiveChat(c, k).Some? ensures AtLeast(LiveChat(c, k).value, LiveChat(a, k).value) {
      assert k in a.chats && k in b.chats;
      assert LiveChat(b, k).Some?;
    }
  }

  lemma KeptStays(c: Canon, c': Canon, change: Change)
    requires CanonInvariant(c) && CanonInvariant(c') && Onward(c, c') && ChatsRise(c.entities, c'.entities) && Kept(c, change)
    ensures Kept(c', change)
  {
    var (e, e') := (c.entities, c'.entities);
    match change
    case CoverageObserved(ev) => RecordedStays(c.coverage, c'.coverage, ev);
    case ChatUpsert(chat) =>
      if chat.id !in e'.chatTombstones {
        assert chat.id in e.chats && chat.id in e'.chats;
        assert LiveChat(e', chat.id).Some? && LiveChat(e, chat.id).Some?;
      }
    case ChatDelete(id) =>
      forall m | m in e'.messages && e'.messages[m].record.chat == id ensures LiveMessage(e', m).None? {
        assert e'.messages[m].record.chat in e'.chats && e'.chats[id].deleted;
      }
    case MessageUpsert(m) => MessageStays(c, c', m);
    case MessageDelete(id, _) =>
  }

  lemma MessageStays(c: Canon, c': Canon, m: MessageRecord)
    requires CanonInvariant(c') && Permanent(c.entities, c'.entities) && Kept(c, MessageUpsert(m))
    ensures Kept(c', MessageUpsert(m))
  {
    var (e, e') := (c.entities, c'.entities);
    if !RemovedBefore(e', m.id) {
      assert m.id in e.messages ==> !e.messages[m.id].deleted;
    }
  }

  // ----- over operations and runs -----

  lemma {:induction false} StepsRise(trace: seq<Canon>, changes: seq<Change>, origin: Provenance, i: nat, j: nat)
    requires Steps(trace, changes, origin) && i <= j <= |changes| && CanonInvariant(trace[|changes|])
    ensures CanonInvariant(trace[i]) && Onward(trace[i], trace[j]) && ChatsRise(trace[i].entities, trace[j].entities)
    decreases j - i
  {
    assert i < |changes| ==> StepTaken(trace, changes, origin, i);
    if i == j {
      OnwardReflexive(trace[i]);
    } else {
      StepsRise(trace, changes, origin, i + 1, j);
      TakenRises(trace[i], trace[i + 1], changes[i], origin);
      OnwardTransitive(trace[i], trace[i + 1], trace[j]);
      RisesFurther(trace[i].entities, trace[i + 1].entities, trace[j].entities);
    }
  }

  lemma TraceKeeps(c: Canon, changes: seq<Change>, origin: Provenance, c': Canon, changed: bool, x: nat)
    requires ComesTo(c, changes, origin, Done(c', changed)) && x < |changes|
    ensures Kept(c', changes[x])
  {
    var trace :| TakesAll(c, changes, origin, c', changed, trace);
    assert StepTaken(trace, changes, origin, x);
    StepsRise(trace, changes, origin, x + 1, |changes|);
    TakenIsKept(trace[x], trace[x + 1], changes[x], origin);
    KeptStays(trace[x + 1], c', changes[x]);
  }

  lemma TraceRises(c: Canon, changes: seq<Change>, origin: Provenance, c': Canon, changed: bool)
    requires ComesTo(c, changes, origin, Done(c', changed))
    ensures ChatsRise(c.entities, c'.entities)
  {
    var trace :| TakesAll(c, changes, origin, c', changed, trace);
    StepsRise(trace, changes, origin, 0, |changes|);
  }

  lemma SnapshotRises(c: Canon, op: CanonOp)
    requires CanonInvariant(c) && op.Snapshot? && Attempt(c, op).Done?
    ensures ChatsRise(c.entities, Attempt(c, op).state.entities)
  {
    var rs := EnumerateChats(op.chats);
    var ms := EnumerateMessages(op.messages);
    SnapshotMergeRefinesFold(c, op.chats, op.messages, rs, ms, op.origin);
    var mid := MergeSnapshot(c, op.chats, op.messages, op.origin);
    EntitiesAreTaken(c, rs, ms, op.origin);
    TraceRises(c, ChatChanges(rs) + MessageChanges(ms), op.origin, mid.state, mid.changed);
    InvariantAtEnd(c, ChatChanges(rs) + MessageChanges(ms), op.origin, mid);
    AllEvidenceStep(mid.state, op.evidence);
  }

  lemma OpRises(c: Canon, op: CanonOp)
    requires CanonInvariant(c) && Attempt(c, op).Done?
    ensures ChatsRise(c.entities, Attempt(c, op).state.entities)
  {
    match op
    case Delta(change, origin) =>
      ChangeOutcome(c, change, origin);
      TakenRises(c, Attempt(c, op).state, change, origin);
    case Snapshot(_, _, _, _) => SnapshotRises(c, op);
    case _ =>
  }

  lemma {:induction false} RunRises(c: Canon, ops: seq<CanonOp>)
    requires CanonInvariant(c)
    ensures CanonInvariant(ExecAll(c, ops)) && Onward(c, ExecAll(c, ops)) && ChatsRise(c.entities, ExecAll(c, ops).entities)
  {
    CanonicalRun.RunKeeps(c, ops);
    if ops != [] {
      var n := |ops| - 1;
      var mid := ExecAll(c, ops[..n]);
      RunRises(c, ops[..n]);
      if Attempt(mid, ops[n]).Done? {
        OpRises(mid, ops[n]);
        OpStep(mid, ops[n]);
        RisesFurther(c.entities, mid.entities, Exec(mid, ops[n]).entities);
      }
    }
  }

  lemma {:induction false} ExecutedInTwo(c: Canon, a: seq<CanonOp>, b: seq<CanonOp>)
    ensures ExecAll(ExecAll(c, a), b) == ExecAll(c, a + b)
  {
    if b == [] {
      assert a + b == a;
    } else {
      var n := |b| - 1;
      ExecutedInTwo(c, a, b[..n]);
      assert (a + b)[..|a| + n] == a + b[..n] && (a + b)[|a| + n] == b[n];
    }
  }

  /** From one moment of a run of ingestion to a later one. */
  lemma AccountGoesOn(states: seq<Db>, calls: seq<Call>, i: nat, j: nat)
    requires IsRun(states, calls) && i <= j <= |calls|
    ensures CanonInvariant(states[i].canon) && CanonInvariant(states[j].canon)
    ensures Onward(states[i].canon, states[j].canon) && ChatsRise(states[i].canon.entities, states[j].canon.entities)
  {
    IngestGuarantees.RunKeeps(states, calls, i);
    IngestGuarantees.RunKeeps(states, calls, j);
    RunGoesOnward(states, calls, i, j);
    var (a, b) := (states[i].accepted, states[j].accepted);
    assert b == a + b[|a|..];
    ExecutedInTwo(EMPTY_ACCOUNT, a, b[|a|..]);
    RunRises(states[i].canon, b[|a|..]);
  }

  lemma KeptInRun(states: seq<Db>, calls: seq<Call>, i: nat, j: nat, change: Change)
    requires IsRun(states, calls) && i <= j <= |calls| && Kept(states[i].canon, change)
    ensures Kept(states[j].canon, change)
  {
    AccountGoesOn(states, calls, i, j);
    KeptStays(states[i].canon, states[j].canon, change);
  }

  lemma AcceptedDeltaIsKept(db: Db, k: StreamId, e: EventId, n: nat, change: Change)
    requires DbOk(db) && Handle(db, k, Request.Delta(e, n, change)).1.Accepted?
    ensures Kept(Handle(db, k, Request.Delta(e, n, change)).0.canon, change)
  {
    var db' := Handle(db, k, Request.Delta(e, n, change)).0;
    AcceptedDeltaIsTaken(db, k, e, n, change);
    HandleKeepsOk(db, k, Request.Delta(e, n, change));
    TakenIsKept(db.canon, db'.canon, change, Provenance(db.streams[k].epoch, n, Some(e)));
  }

  /** The change is a record of this chunk. */
  ghost predicate InChunk(r: Records, change: Change) {
    match r
    case ChatRecords(cs) => exists x :: x in cs && AsChange(x) == change
    case MessageRecords(ms) => exists x :: x in ms && MessageAsChange(x) == change
    case EvidenceRecords(evs) => exists x :: x in evs && CoverageObserved(x) == change
  }

  /** Some stored chunk of the upload holds the change. */
  ghost predicate Delivers(u: Upload, change: Change) {
    exists i :: i in u.chunks && InChunk(u.chunks[i], change)
  }

  lemma {:induction false} ChunkIsInAll(rs: seq<Records>, i: nat)
    requires i < |rs|
    ensures forall x :: x in rs[i].Chats() ==> x in AllChats(rs)
    ensures forall x :: x in rs[i].Messages() ==> x in AllMessages(rs)
    ensures forall x :: x in rs[i].Evidence() ==> x in AllEvidence(rs)
  {
    if i < |rs| - 1 {
      ChunkIsInAll(rs[..|rs| - 1], i);
    }
  }

  lemma InChunkIsInAll(rs: seq<Records>, i: nat, change: Change)
    requires i < |rs| && InChunk(rs[i], change)
    ensures change in ChangesOf(rs)
  {
    ChunkIsInAll(rs, i);
    match rs[i]
    case ChatRecords(cs) =>
      var x :| x in cs && AsChange(x) == change;
      assert x in rs[i].Chats();
      var n :| 0 <= n < |AllChats(rs)| && AllChats(rs)[n] == x;
      assert ChatChanges(AllChats(rs))[n] == change;
    case MessageRecords(ms) =>
      var x :| x in ms && MessageAsChange(x) == change;
      assert x in rs[i].Messages();
      var n :| 0 <= n < |AllMessages(rs)| && AllMessages(rs)[n] == x;
      assert MessageChanges(AllMessages(rs))[n] == change;
    case EvidenceRecords(evs) =>
      var x :| x in evs && CoverageObserved(x) == change;
      assert x in rs[i].Evidence();
      var n :| 0 <= n < |AllEvidence(rs)| && AllEvidence(rs)[n] == x;
      assert EvidenceChanges(AllEvidence(rs))[n] == change;
  }

  lemma DeliveredIsTaken(db: Db, k: StreamId, id: SnapshotId, change: Change)
    requires DbOk(db) && HasUpload(db, k, id) && Delivers(db.streams[k].uploads[id], change)
    ensures change in Delivery(db, k, id)
  {
    var u := db.streams[k].uploads[id];
    assert StreamOk(db.streams[k]) && UploadOk(u);
    var i :| i in u.chunks && InChunk(u.chunks[i], change);
    InChunkIsInAll(InOrder(u.chunks, u.next), i, change);
  }

  lemma AcceptedRecordsAreKept(db: Db, k: StreamId, id: SnapshotId, n: nat, change: Change)
    requires DbOk(db) && Handle(db, k, Commit(id, n)).1.Accepted?
    requires HasUpload(db, k, id) && Delivers(db.streams[k].uploads[id], change)
    ensures Kept(Handle(db, k, Commit(id, n)).0.canon, change)
  {
    CommitAnswer(db, k, id, n);
    CommitTakesItsRecords(db, k, id, n);
    DeliveredIsTaken(db, k, id, change);
    var db' := Handle(db, k, Commit(id, n)).0;
    var x :| 0 <= x < |Delivery(db, k, id)| && Delivery(db, k, id)[x] == change;
    TraceKeeps(db.canon, Delivery(db, k, id), OriginOf(db, k, id), db'.canon, db'.revision != db.revision, x);
  }

  /** The next state of a run is what the request leaves. */
  lemma NextState(states: seq<Db>, calls: seq<Call>, i: nat, k: StreamId, r: Request)
    requires IsRun(states, calls) && i < |calls| && calls[i] == IngestCall(k, r)
    ensures states[i + 1] == Handle(states[i], k, r).0
  {
    assert IsStep(states, calls, i);
  }

  /** An accepted delta is visible ever after. */
  lemma DeltaStaysVisible(states: seq<Db>, calls: seq<Call>, i: nat, j: nat, k: StreamId, e: EventId, n: nat, change: Change)
    requires IsRun(states, calls) && i < j <= |calls|
    requires calls[i] == IngestCall(k, Request.Delta(e, n, change)) && Handle(states[i], k, Request.Delta(e, n, change)).1.Accepted?
    ensures Kept(states[j].canon, change)
  {
    assert Kept(states[i + 1].canon, change) by {
      IngestGuarantees.RunKeeps(states, calls, i);
      NextState(states, calls, i, k, Request.Delta(e, n, change));
      AcceptedDeltaIsKept(states[i], k, e, n, change);
    }
    KeptInRun(states, calls, i + 1, j, change);
  }

  /** So is every record of an accepted snapshot. */
  lemma SnapshotStaysVisible(states: seq<Db>, calls: seq<Call>, i: nat, j: nat, k: StreamId, id: SnapshotId, n: nat,
                             change: Change)
    requires IsRun(states, calls) && i < j <= |calls|
    requires calls[i] == IngestCall(k, Commit(id, n)) && Handle(states[i], k, Commit(id, n)).1.Accepted?
    requires HasUpload(states[i], k, id) && Delivers(states[i].streams[k].uploads[id], change)
    ensures Kept(states[j].canon, change)
  {
    assert Kept(states[i + 1].canon, change) by {
      IngestGuarantees.RunKeeps(states, calls, i);
      NextState(states, calls, i, k, Commit(id, n));
      AcceptedRecordsAreKept(states[i], k, id, n, change);
    }
    KeptInRun(states, calls, i + 1, j, change);
  }

  // ----- a generation with all its evidence completes -----

  /** The evidence was on record at some moment up to `i`. */
  ghost predicate WasRecorded(states: seq<Db>, i: nat, ev: Evidence)
    requires i < |states|
  {
    exists p :: 0 <= p <= i && Recorded(states[p].canon.coverage, ev)
  }

  lemma StillRecorded(states: seq<Db>, calls: seq<Call>, i: nat, ev: Evidence)
    requires IsRun(states, calls) && i <= |calls| && WasRecorded(states, i, ev)
    ensures Recorded(states[i].canon.coverage, ev)
  {
    var p :| 0 <= p <= i && Recorded(states[p].canon.coverage, ev);
    AccountGoesOn(states, calls, p, i);
    RecordedStays(states[p].canon.coverage, states[i].canon.coverage, ev);
  }

  ghost predicate HistoryWasStarted(states: seq<Db>, i: nat, g: GenerationId, c: ChatId)
    requires i < |states|
  {
    exists earliest, observedAt :: WasRecorded(states, i, HistoryStarted(g, c, earliest, observedAt))
  }

  ghost predicate HeadWasReconciled(states: seq<Db>, i: nat, g: GenerationId, c: ChatId)
    requires i < |states|
  {
    exists through :: WasRecorded(states, i, HeadReconciled(g, c, through))
  }

  /** Every piece of evidence the generation needs was accepted at some moment. */
  ghost predicate AllEvidenceCame(states: seq<Db>, i: nat, g: GenerationId)
    requires i < |states|
  {
    && (exists observedAt :: WasRecorded(states, i, InventoryEnded(g, observedAt)))
    && forall c :: (g, c) in states[i].canon.coverage.members ==>
         HistoryWasStarted(states, i, g, c) && HeadWasReconciled(states, i, g, c)
  }

  lemma AllEvidenceIsThere(states: seq<Db>, calls: seq<Call>, i: nat, g: GenerationId)
    requires IsRun(states, calls) && i <= |calls| && AllEvidenceCame(states, i, g)
    ensures Cov.FullyEvidenced(states[i].canon.coverage, g)
  {
    var cov := states[i].canon.coverage;
    var observedAt :| WasRecorded(states, i, InventoryEnded(g, observedAt));
    StillRecorded(states, calls, i, InventoryEnded(g, observedAt));
    forall c | (g, c) in cov.members
      ensures cov.members[(g, c)].historyStarted.Some? && cov.members[(g, c)].headReconciled.Some?
    {
      assert HistoryWasStarted(states, i, g, c) && HeadWasReconciled(states, i, g, c);
      var earliest, at :| WasRecorded(states, i, HistoryStarted(g, c, earliest, at));
      StillRecorded(states, calls, i, HistoryStarted(g, c, earliest, at));
      var through :| WasRecorded(states, i, HeadReconciled(g, c, through));
      StillRecorded(states, calls, i, HeadReconciled(g, c, through));
    }
  }

  /** An accepted close that is news leaves its generation active, and complete exactly if all of its evidence is there. */
  lemma CloseOutcome(db: Db, k: StreamId, e: EventId, n: nat, g: GenerationId, t: Timestamp)
    requires DbOk(db) && !Recorded(db.canon.coverage, GenerationClosed(g, t))
    requires Handle(db, k, Request.Delta(e, n, CoverageObserved(GenerationClosed(g, t)))).1.Accepted?
    ensures g in db.canon.coverage.generations
    ensures Cov.Closed(db.canon.coverage, Handle(db, k, Request.Delta(e, n, CoverageObserved(GenerationClosed(g, t)))).0.canon.coverage, g, t)
  {
    AcceptedDeltaIsTaken(db, k, e, n, CoverageObserved(GenerationClosed(g, t)));
  }

  /** A generation that gets all its evidence before its close is complete right after it. */
  lemma EvidencedCloseCompletes(states: seq<Db>, calls: seq<Call>, i: nat, k: StreamId, e: EventId, n: nat, g: GenerationId, t: Timestamp)
    requires IsRun(states, calls) && i < |calls| && AllEvidenceCame(states, i, g)
    requires calls[i] == IngestCall(k, Request.Delta(e, n, CoverageObserved(GenerationClosed(g, t))))
    requires Handle(states[i], k, Request.Delta(e, n, CoverageObserved(GenerationClosed(g, t)))).1.Accepted?
    requires !Recorded(states[i].canon.coverage, GenerationClosed(g, t))
    ensures var cov := states[i + 1].canon.coverage;
            && g in cov.generations && cov.generations[g].state == Complete && cov.generations[g].closedAt == Some(t)
            && cov.active == Some(g) && cov.lastComplete == Some(g)
  {
    NextState(states, calls, i, k, Request.Delta(e, n, CoverageObserved(GenerationClosed(g, t))));
    IngestGuarantees.RunKeeps(states, calls, i);
    AllEvidenceIsThere(states, calls, i, g);
    CloseOutcome(states[i], k, e, n, g, t);
  }
}
