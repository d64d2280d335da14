/** Ingestion of one account from several agent streams: snapshot uploads in chunks, and sequenced deltas. */
module Ingest {
  import opened Options
  import opened CanonicalModel
  import opened EntityMerge
  import opened CoverageModel
  import opened SnapshotMerge
  import opened CanonicalRun

  type StreamId = int
  type SnapshotId = int
  type EventId = int

  const MAX_FRAME_BYTES := 512 * 1024

  // ----- uploads -----

  datatype Kind = ChatKind | MessageKind | CoverageKind

  datatype Records = ChatRecords(chats: seq<StagedChat>) | MessageRecords(messages: seq<StagedMessage>)
                   | EvidenceRecords(evidence: seq<Evidence>)
  {
    function Kind(): Kind {
      match this case ChatRecords(_) => ChatKind case MessageRecords(_) => MessageKind case EvidenceRecords(_) => CoverageKind
    }
    function Chats(): seq<StagedChat> { if ChatRecords? then chats else [] }
    function Messages(): seq<StagedMessage> { if MessageRecords? then messages else [] }
    function Evidence(): seq<Evidence> { if EvidenceRecords? then evidence else [] }
  }

  function Order(k: Kind): nat { match k case ChatKind => 0 case MessageKind => 1 case CoverageKind => 2 }

  datatype Counts = Counts(chats: nat, messages: nat, evidence: nat)

  function Add(c: Counts, r: Records): Counts {
    match r
    case ChatRecords(cs) => c.(chats := c.chats + |cs|)
    case MessageRecords(ms) => c.(messages := c.messages + |ms|)
    case EvidenceRecords(evs) => c.(evidence := c.evidence + |evs|)
  }

  /** What the begin of a snapshot announces; its fingerprint is injective, so it is the announcement itself. */
  datatype Announced = Announced(throughSeq: nat, chunkCount: nat, counts: Counts, maxFrameBytes: nat)

  datatype UploadState = Staging | Committed

  datatype Upload = Upload(starting: Option<nat>, announced: Announced, next: nat, received: Counts, state: UploadState,
                           lastKind: Option<Kind>, chunks: map<nat, Records>,
                           chats: StagedChats, messages: StagedMessages, evidence: seq<Evidence>)

  // ----- streams -----

  /** A raw event keeps what its fingerprint covers: the sequence number and the change. */
  datatype RawEvent = RawEvent(sourceSeq: nat, change: Change)

  /** `boundary` is the `through_seq` of the snapshot committed last. */
  datatype Stream = Stream(epoch: nat, checkpoint: Option<nat>, boundary: Option<nat>, events: map<EventId, RawEvent>,
                           uploads: map<SnapshotId, Upload>)

  function NewStream(epoch: nat): Stream { Stream(epoch, None, None, map[], map[]) }

  datatype Request = Begin(snapshot: SnapshotId, announced: Announced)
                   | Chunk(snapshot: SnapshotId, index: nat, records: Records, bytes: nat)
                   | Commit(snapshot: SnapshotId, chunkCount: nat)
                   | Delta(event: EventId, sourceSeq: nat, change: Change)

  datatype Refusal = ChunkConflict | InvariantFailed | SnapshotIncomplete

  datatype Reply = Accepted(checkpoint: nat) | Duplicate(checkpoint: nat) | Gap(checkpoint: nat)
                 | Rejected(checkpoint: nat, refusal: Refusal) | Failed(why: Violation)

  function At(checkpoint: Option<nat>): nat { if checkpoint.Some? then checkpoint.value else 0 }

  /** What a request asks of its stream: an answer that leaves the account alone, or a write to it. */
  datatype Plan = Answer(stream: Stream, reply: Reply) | Write(op: CanonOp, stream: Stream, reply: Reply)

  function PlanBegin(s: Stream, id: SnapshotId, a: Announced): Plan {
    if id in s.uploads then
      Answer(s, if s.uploads[id].announced != a then Rejected(At(s.checkpoint), ChunkConflict) else Duplicate(At(s.checkpoint)))
    else if exists u :: u in s.uploads && s.uploads[u].state == Staging then
      Answer(s, Rejected(At(s.checkpoint), InvariantFailed))
    else
      var upload := Upload(s.checkpoint, a, 0, Counts(0, 0, 0), Staging, None, map[], map[], map[], []);
      Answer(s.(uploads := s.uploads[id := upload]), Accepted(At(s.checkpoint)))
  }

  /** The entity tables of a snapshot have the identifier as their key, so a repeated one is a violation. */
  predicate FitsChats(staged: StagedChats, cs: seq<StagedChat>) {
    && (forall i :: 0 <= i < |cs| ==> cs[i].Key() !in staged)
    && (forall i, j :: 0 <= i < j < |cs| ==> cs[i].Key() != cs[j].Key())
  }

  predicate FitsMessages(staged: StagedMessages, ms: seq<StagedMessage>) {
    && (forall i :: 0 <= i < |ms| ==> ms[i].Key() !in staged)
    && (forall i, j :: 0 <= i < j < |ms| ==> ms[i].Key() != ms[j].Key())
  }

  predicate FitsEvidence(staged: seq<Evidence>, evs: seq<Evidence>) {
    && (forall i :: 0 <= i < |evs| ==> evs[i] !in staged)
    && (forall i, j :: 0 <= i < j < |evs| ==> evs[i] != evs[j])
  }

  predicate Fits(u: Upload, r: Records) {
    FitsChats(u.chats, r.Chats()) && FitsMessages(u.messages, r.Messages()) && FitsEvidence(u.evidence, r.Evidence())
  }

  function PutChats(staged: StagedChats, cs: seq<StagedChat>): StagedChats {
    if cs == [] then staged else PutChats(staged, cs[..|cs| - 1])[cs[|cs| - 1].Key() := cs[|cs| - 1]]
  }

  function PutMessages(staged: StagedMessages, ms: seq<StagedMessage>): StagedMessages {
    if ms == [] then staged else PutMessages(staged, ms[..|ms| - 1])[ms[|ms| - 1].Key() := ms[|ms| - 1]]
  }

  function AddChunk(u: Upload, index: nat, r: Records): Upload {
    u.(next := u.next + 1, lastKind := Some(r.Kind()), received := Add(u.received, r), chunks := u.chunks[index := r],
       chats := PutChats(u.chats, r.Chats()), messages := PutMessages(u.messages, r.Messages()),
       evidence := u.evidence + r.Evidence())
  }

  function PlanChunk(s: Stream, id: SnapshotId, index: nat, r: Records, bytes: nat): Plan {
    var here := At(s.checkpoint);
    if bytes > MAX_FRAME_BYTES then Answer(s, Failed(FrameTooLarge))
    else if id !in s.uploads then Answer(s, Rejected(here, SnapshotIncomplete))
    else
      var u := s.uploads[id];
      if index in u.chunks then
        Answer(s, if u.chunks[index] != r then Rejected(here, ChunkConflict) else Duplicate(here))
      else if u.state == Committed then Answer(s, Rejected(here, ChunkConflict))
      else if index != u.next || index >= u.announced.chunkCount then Answer(s, Gap(here))
      else if u.lastKind.Some? && Order(r.Kind()) < Order(u.lastKind.value) then Answer(s, Rejected(here, InvariantFailed))
      else if !Fits(u, r) then Answer(s, Failed(DuplicateEntity))
      else Answer(s.(uploads := s.uploads[id := AddChunk(u, index, r)]), Accepted(here))
  }

  /** The stream after a snapshot was committed: staged records are dropped, the checkpoint moves to the boundary. */
  function Committing(s: Stream, id: SnapshotId): Stream
    requires id in s.uploads
  {
    var u := s.uploads[id];
    var through := u.announced.throughSeq;
    s.(checkpoint := Some(through), boundary := Some(through),
       uploads := s.uploads[id := u.(state := Committed, chats := map[], messages := map[], evidence := [])])
  }

  function PlanCommit(s: Stream, id: SnapshotId, chunkCount: nat): Plan {
    var here := At(s.checkpoint);
    if id !in s.uploads then Answer(s, Rejected(here, SnapshotIncomplete))
    else
      var u := s.uploads[id];
      if chunkCount != u.announced.chunkCount then Answer(s, Rejected(here, ChunkConflict))
      else if u.state == Committed then Answer(s, Duplicate(here))
      else if s.checkpoint != u.starting then Answer(s, Rejected(here, InvariantFailed))
      else if u.next != u.announced.chunkCount || u.received != u.announced.counts then Answer(s, Rejected(here, SnapshotIncomplete))
      else if u.announced.throughSeq < here then Answer(s, Rejected(here, InvariantFailed))
      else
        Write(Snapshot(u.chats, u.messages, u.evidence, Provenance(s.epoch, u.announced.throughSeq, None)),
              Committing(s, id), Accepted(u.announced.throughSeq))
  }

  predicate OwnedByAnother(s: Stream, event: EventId, seqNo: nat) {
    exists e :: e in s.events && e != event && s.events[e].sourceSeq == seqNo
  }

  function PlanDelta(s: Stream, event: EventId, seqNo: nat, change: Change): Plan {
    if s.checkpoint.None? then Answer(s, Gap(0))
    else
      var here := s.checkpoint.value;
      if event in s.events then
        Answer(s, if s.events[event] != RawEvent(seqNo, change) then Rejected(here, InvariantFailed) else Duplicate(here))
      else if seqNo <= here then
        Answer(s, if OwnedByAnother(s, event, seqNo) then Rejected(here, InvariantFailed) else Duplicate(here))
      else if seqNo != here + 1 then Answer(s, Gap(here))
      else
        Write(CanonOp.Delta(change, Provenance(s.epoch, seqNo, Some(event))),
              s.(events := s.events[event := RawEvent(seqNo, change)], checkpoint := Some(seqNo)), Accepted(seqNo))
  }

  function PlanFor(s: Stream, r: Request): Plan {
    match r
    case Begin(id, announced) => PlanBegin(s, id, announced)
    case Chunk(id, index, records, bytes) => PlanChunk(s, id, index, records, bytes)
    case Commit(id, chunkCount) => PlanCommit(s, id, chunkCount)
    case Delta(event, seqNo, change) => PlanDelta(s, event, seqNo, change)
  }

  // ----- the account -----

  /** The account's tables. `accepted` remembers the writes that were committed, in order. */
  datatype Db = Db(canon: Canon, streams: map<StreamId, Stream>, lastEpoch: nat, revision: nat, accepted: seq<CanonOp>)

  const EMPTY_DB: Db := Db(EMPTY_ACCOUNT, map[], 0, 0, [])

  /** Begins and deltas register their stream, with the next epoch; chunks and commits do not. */
  predicate Registers(r: Request) { r.Begin? || r.Delta? }

  function Register(db: Db, k: StreamId): Db {
    if k in db.streams then db
    else db.(streams := db.streams[k := NewStream(db.lastEpoch + 1)], lastEpoch := db.lastEpoch + 1)
  }

  function StreamOf(db: Db, k: StreamId): Stream {
    if k in db.streams then db.streams[k] else NewStream(0)
  }

  function Perform(db: Db, k: StreamId, plan: Plan): (Db, Reply) {
    match plan
    case Answer(stream, reply) =>
      (if k in db.streams then db.(streams := db.streams[k := stream]) else db, reply)
    case Write(op, stream, reply) =>
      match Attempt(db.canon, op)
      case Raised(why) => (db, Failed(why))
      case Done(canon, changed) =>
        (db.(canon := canon, streams := db.streams[k := stream],
             revision := db.revision + (if changed then 1 else 0), accepted := db.accepted + [op]), reply)
  }

  /** One request: whatever it wrote is rolled back if it raises. */
  function Handle(db: Db, k: StreamId, r: Request): (Db, Reply) {
    var db1 := if Registers(r) then Register(db, k) else db;
    var (db2, reply) := Perform(db1, k, PlanFor(StreamOf(db1, k), r));
    (if reply.Failed? then db else db2, reply)
  }

  /** The settings interface of the same account. */
  function HandleSettings(db: Db, op: CanonOp): Db
    requires op.Update? || op.Bind? || op.Applied?
  {
    match Attempt(db.canon, op)
    case Raised(_) => db
    case Done(canon, _) => db.(canon := canon, accepted := db.accepted + [op])
  }
}
