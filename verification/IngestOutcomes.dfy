/** What ingestion answers to each request, decided by the stored tables alone, and what an accepted request leaves behind. */
module IngestOutcomes {
  import opened Options
  import opened Sequences
  import opened CanonicalModel
  import opened EntityMerge
  import opened CoverageModel
  import opened SnapshotMerge
  import opened CanonicalRun
  import opened Ingest
  import opened IngestRuns
  import opened IngestGuarantees
  import opened EntityOutcomes
  import Cov = CoverageOutcomes

  // ----- one change to the account -----

  /** The change contradicts what is stored, and is rolled back. */
  ghost predicate Refuses(c: Canon, change: Change) {
    match change
    case ChatUpsert(chat) => RefusesChat(c.entities, chat)
    case ChatDelete(_) => false
    case MessageUpsert(m) => RefusesMessage(c.entities, m)
    case MessageDelete(id, chat) => RefusesRemoval(c.entities, id, chat)
    case CoverageObserved(ev) =>
      !Recorded(c.coverage, ev) && !Cov.Fits(c.coverage, c.settings, c.entities, ev)
  }

  /** The change is news, and makes a new revision. */
  ghost predicate IsNews(c: Canon, change: Change) {
    match change
    case ChatUpsert(chat) => ChatWins(c.entities, chat)
    case ChatDelete(id) => id !in c.entities.chatTombstones
    case MessageUpsert(m) => NewMessage(c.entities, m)
    case MessageDelete(id, _) => id !in c.entities.messageTombstones
    case CoverageObserved(ev) => !Recorded(c.coverage, ev)
  }

  /** What the account holds after an accepted change. */
  ghost predicate ChangeTaken(c: Canon, c': Canon, change: Change, origin: Provenance) {
    && c'.settings == c.settings
    && (match change
        case ChatUpsert(chat) =>
          && ChatTaken(c.entities, c'.entities, chat, origin)
          && (if ChatWins(c.entities, chat) && OutsideComplete(c.coverage, chat.id)
              then CoverageEnded(c.coverage, c'.coverage) else c'.coverage == c.coverage)
        case ChatDelete(id) => ChatDeleted(c.entities, c'.entities, id, origin) && c'.coverage == c.coverage
        case MessageUpsert(m) => MessageTaken(c.entities, c'.entities, m, origin) && c'.coverage == c.coverage
        case MessageDelete(id, chat) => MessageRemoved(c.entities, c'.entities, id, chat, origin) && c'.coverage == c.coverage
        case CoverageObserved(ev) =>
          && c'.entities == c.entities && Recorded(c'.coverage, ev)
          && (if Recorded(c.coverage, ev) then c'.coverage == c.coverage
              else Cov.Fits(c.coverage, c.settings, c.entities, ev)
                   && Cov.Taken(c.coverage, c'.coverage, c.settings, c.entities, ev)))
  }

  lemma ChangeOutcome(c: Canon, change: Change, origin: Provenance)
    requires CanonInvariant(c)
    ensures var r := ApplyChange(c, change, origin);
            && (r.Raised? <==> Refuses(c, change))
            && (r.Done? ==> ChangeTaken(c, r.state, change, origin) && (r.changed <==> IsNews(c, change)))
  {
    match change
    case ChatUpsert(chat) =>
      ChatOutcome(c.entities, chat, origin);
      if !Refuses(c, change) {
        UpsertCoverageOutcome(c, chat, origin);
      }
    case ChatDelete(id) => ChatDeletionOutcome(c.entities, id, origin);
    case MessageUpsert(m) => MessageOutcome(c.entities, m, origin);
    case MessageDelete(id, chat) => RemovalOutcome(c.entities, id, chat, origin);
    case CoverageObserved(ev) =>
      Cov.EvidenceOutcome(c.coverage, c.settings, c.entities, ev);
      if Recorded(c.coverage, ev) {
        Cov.RecordedDoesNotFit(c.coverage, c.settings, c.entities, ev);
      }
  }

  // ----- deltas -----

  function CheckpointOf(db: Db, k: StreamId): Option<nat> {
    if k in db.streams then db.streams[k].checkpoint else None
  }

  predicate Stored(db: Db, k: StreamId, e: EventId) { k in db.streams && e in db.streams[k].events }

  /** The sequence number is taken by an event of the stream. */
  ghost predicate Taken(db: Db, k: StreamId, n: nat) {
    k in db.streams && exists f :: f in db.streams[k].events && db.streams[k].events[f].sourceSeq == n
  }

  /** A new event with the next sequence number. */
  predicate IsNext(db: Db, k: StreamId, e: EventId, n: nat) {
    CheckpointOf(db, k).Some? && !Stored(db, k, e) && n == CheckpointOf(db, k).value + 1
  }

  /** The answer to a delta, by the stream's checkpoint and events and by what the account refuses. */
  lemma DeltaAnswer(db: Db, k: StreamId, e: EventId, n: nat, change: Change)
    requires DbOk(db)
    ensures var reply := Handle(db, k, Request.Delta(e, n, change)).1;
            var at := CheckpointOf(db, k);
            && (reply.Gap? <==> at.None? || (!Stored(db, k, e) && n > at.value + 1))
            && (reply.Duplicate? <==>
                  && at.Some?
                  && if Stored(db, k, e) then db.streams[k].events[e] == RawEvent(n, change)
                     else n <= at.value && !Taken(db, k, n))
            && (reply.Rejected? <==>
                  && at.Some?
                  && if Stored(db, k, e) then db.streams[k].events[e] != RawEvent(n, change)
                     else n <= at.value && Taken(db, k, n))
            && (reply.Failed? <==> IsNext(db, k, e, n) && Refuses(db.canon, change))
            && (reply.Accepted? <==> IsNext(db, k, e, n) && !Refuses(db.canon, change))
            && (reply.Rejected? ==> reply.refusal == InvariantFailed)
            && (!reply.Failed? ==> reply.checkpoint == if reply.Accepted? then n else At(at))
  {
    if CheckpointOf(db, k).Some? {
      ChangeOutcome(db.canon, change, Provenance(db.streams[k].epoch, n, Some(e)));
    }
  }

  /** Every accepted delta leaves its change behind, under its own origin, and exactly one more event. */
  lemma AcceptedDeltaIsTaken(db: Db, k: StreamId, e: EventId, n: nat, change: Change)
    requires DbOk(db) && Handle(db, k, Request.Delta(e, n, change)).1.Accepted?
    ensures IsNext(db, k, e, n)
    ensures var db' := Handle(db, k, Request.Delta(e, n, change)).0;
            var s := db.streams[k];
            && ChangeTaken(db.canon, db'.canon, change, Provenance(s.epoch, n, Some(e)))
            && db'.revision == db.revision + (if IsNews(db.canon, change) then 1 else 0)
            && SameExcept(db.streams, db'.streams, k) && k in db'.streams && db'.lastEpoch == db.lastEpoch
            && SameExcept(s.events, db'.streams[k].events, e)
            && e in db'.streams[k].events && db'.streams[k].events[e] == RawEvent(n, change)
            && db'.streams[k].checkpoint == Some(n) && db'.streams[k].boundary == s.boundary
            && db'.streams[k].epoch == s.epoch && db'.streams[k].uploads == s.uploads
  {
    DeltaAnswer(db, k, e, n, change);
    ChangeOutcome(db.canon, change, Provenance(db.streams[k].epoch, n, Some(e)));
  }

  // ----- beginning an upload -----

  predicate HasUpload(db: Db, k: StreamId, id: SnapshotId) { k in db.streams && id in db.streams[k].uploads }

  ghost predicate AnyStaging(db: Db, k: StreamId) { k in db.streams && exists id :: IsStaging(db.streams[k], id) }

  lemma BeginAnswer(db: Db, k: StreamId, id: SnapshotId, a: Announced)
    ensures var reply := Handle(db, k, Begin(id, a)).1;
            && (reply.Duplicate? <==> HasUpload(db, k, id) && db.streams[k].uploads[id].announced == a)
            && (reply.Rejected? && reply.refusal == ChunkConflict <==>
                  HasUpload(db, k, id) && db.streams[k].uploads[id].announced != a)
            && (reply.Rejected? && reply.refusal == InvariantFailed <==> !HasUpload(db, k, id) && AnyStaging(db, k))
            && (reply.Accepted? <==> !HasUpload(db, k, id) && !AnyStaging(db, k))
            && (reply.Accepted? || reply.Duplicate? || reply.Rejected?)
            && (reply.Rejected? ==> reply.refusal != SnapshotIncomplete)
            && reply.checkpoint == At(CheckpointOf(db, k))
  {
    if k in db.streams {
      var s := db.streams[k];
      assert (exists u :: u in s.uploads && s.uploads[u].state == Staging) <==> exists u :: IsStaging(s, u) by {
        if u :| u in s.uploads && s.uploads[u].state == Staging {
          assert IsStaging(s, u);
        }
      }
    }
  }

  /** An accepted begin opens an empty upload at the checkpoint; an unknown stream is registered under a new epoch. */
  lemma AcceptedBeginOpens(db: Db, k: StreamId, id: SnapshotId, a: Announced)
    requires Handle(db, k, Begin(id, a)).1.Accepted?
    ensures var db' := Handle(db, k, Begin(id, a)).0;
            && db'.canon == db.canon && db'.revision == db.revision && SameExcept(db.streams, db'.streams, k) && k in db'.streams
            && db'.streams[k].checkpoint == CheckpointOf(db, k)
            && db'.streams[k].epoch == (if k in db.streams then db.streams[k].epoch else db.lastEpoch + 1)
            && db'.lastEpoch == (if k in db.streams then db.lastEpoch else db.lastEpoch + 1)
            && (k in db.streams ==>
                  && db'.streams[k].events == db.streams[k].events && db'.streams[k].boundary == db.streams[k].boundary
                  && SameExcept(db.streams[k].uploads, db'.streams[k].uploads, id))
            && id in db'.streams[k].uploads
            && var u := db'.streams[k].uploads[id];
               && u.starting == CheckpointOf(db, k) && u.announced == a && u.next == 0 && u.state == Staging
               && u.received == Counts(0, 0, 0) && u.lastKind.None?
               && u.chunks == map[] && u.chats == map[] && u.messages == map[] && u.evidence == []
  {
  }

  // ----- chunks -----

  predicate HasChunk(db: Db, k: StreamId, id: SnapshotId, index: nat) {
    HasUpload(db, k, id) && index in db.streams[k].uploads[id].chunks
  }

  /** The upload waits for this chunk. */
  predicate Expects(db: Db, k: StreamId, id: SnapshotId, index: nat) {
    && HasUpload(db, k, id) && !HasChunk(db, k, id, index)
    && var u := db.streams[k].uploads[id];
       u.state == Staging && index == u.next && index < u.announced.chunkCount
  }

  /** The chunk's kind does not go back. */
  predicate KindFollows(u: Upload, r: Records) { u.lastKind.Some? ==> Order(u.lastKind.value) <= Order(r.Kind()) }

  lemma ChunkAnswer(db: Db, k: StreamId, id: SnapshotId, index: nat, r: Records, bytes: nat)
    ensures var reply := Handle(db, k, Chunk(id, index, r, bytes)).1;
            if bytes > MAX_FRAME_BYTES then reply == Failed(FrameTooLarge)
            else if !HasUpload(db, k, id) then reply == Rejected(At(CheckpointOf(db, k)), SnapshotIncomplete)
            else
              var u := db.streams[k].uploads[id];
              && (reply.Duplicate? <==> HasChunk(db, k, id, index) && u.chunks[index] == r)
              && (reply.Rejected? && reply.refusal == ChunkConflict <==>
                    (HasChunk(db, k, id, index) && u.chunks[index] != r) || (!HasChunk(db, k, id, index) && u.state == Committed))
              && (reply.Gap? <==> !HasChunk(db, k, id, index) && u.state == Staging && !Expects(db, k, id, index))
              && (reply.Rejected? && reply.refusal == InvariantFailed <==> Expects(db, k, id, index) && !KindFollows(u, r))
              && (reply == Failed(DuplicateEntity) <==> Expects(db, k, id, index) && KindFollows(u, r) && !Fits(u, r))
              && (reply.Accepted? <==> Expects(db, k, id, index) && KindFollows(u, r) && Fits(u, r))
              && (reply.Rejected? ==> reply.refusal != SnapshotIncomplete)
              && (!reply.Failed? ==> reply.checkpoint == At(CheckpointOf(db, k)))
  {
  }

  /** An accepted chunk is stored under its index, counted by its kind, and is the only thing that changes. */
  lemma AcceptedChunkIsStored(db: Db, k: StreamId, id: SnapshotId, index: nat, r: Records, bytes: nat)
    requires Handle(db, k, Chunk(id, index, r, bytes)).1.Accepted?
    ensures Expects(db, k, id, index)
    ensures var db' := Handle(db, k, Chunk(id, index, r, bytes)).0;
            var s := db.streams[k];
            && db'.canon == db.canon && db'.revision == db.revision && db'.lastEpoch == db.lastEpoch
            && SameExcept(db.streams, db'.streams, k) && k in db'.streams
            && db'.streams[k].(uploads := map[]) == s.(uploads := map[])
            && SameExcept(s.uploads, db'.streams[k].uploads, id) && id in db'.streams[k].uploads
            && var (u, u') := (s.uploads[id], db'.streams[k].uploads[id]);
               && u'.announced == u.announced && u'.starting == u.starting && u'.state == Staging && u'.next == index + 1
               && u'.lastKind == Some(r.Kind()) && SameExcept(u.chunks, u'.chunks, index)
               && index in u'.chunks && u'.chunks[index] == r
               && u'.received == Counts(u.received.chats + |r.Chats()|, u.received.messages + |r.Messages()|,
                                        u.received.evidence + |r.Evidence()|)
  {
  }

  // ----- commits -----

  /** The upload can be committed: it is staging, complete as announced, and the checkpoint is where it began. */
  predicate Ready(db: Db, k: StreamId, id: SnapshotId, n: nat) {
    && HasUpload(db, k, id)
    && var (s, u) := (db.streams[k], db.streams[k].uploads[id]);
       && u.state == Staging && n == u.announced.chunkCount == u.next && u.received == u.announced.counts
       && s.checkpoint == u.starting && At(s.checkpoint) <= u.announced.throughSeq
  }

  /** What the chunks of an upload make of the account, record by record. */
  ghost function Folded(db: Db, k: StreamId, id: SnapshotId): Outcome<Canon>
    requires DbOk(db) && HasUpload(db, k, id)
  {
    var u := db.streams[k].uploads[id];
    assert StreamOk(db.streams[k]);
    FoldChunks(db.canon, InOrder(u.chunks, u.next), Provenance(db.streams[k].epoch, u.announced.throughSeq, None))
  }

  /** A commit that is not ready is answered by what is missing, and writes nothing. */
  lemma UnreadyAnswer(db: Db, k: StreamId, id: SnapshotId, n: nat)
    requires HasUpload(db, k, id) && !Ready(db, k, id, n) && db.streams[k].uploads[id].next <= db.streams[k].uploads[id].announced.chunkCount
    ensures var reply := Handle(db, k, Commit(id, n)).1;
            var (s, u) := (db.streams[k], db.streams[k].uploads[id]);
            && (reply.Duplicate? <==> n == u.announced.chunkCount && u.state == Committed)
            && (reply.Rejected? && reply.refusal == ChunkConflict <==> n != u.announced.chunkCount)
            && (reply.Rejected? && reply.refusal == SnapshotIncomplete <==>
                  && n == u.announced.chunkCount && u.state == Staging && s.checkpoint == u.starting
                  && (u.next < n || u.received != u.announced.counts))
            && (reply.Rejected? && reply.refusal == InvariantFailed <==>
                  && n == u.announced.chunkCount && u.state == Staging
                  && (s.checkpoint != u.starting
                      || (u.next == n && u.received == u.announced.counts && u.announced.throughSeq < At(s.checkpoint))))
            && (reply.Duplicate? || reply.Rejected?) && reply.checkpoint == At(s.checkpoint)
  {
  }

  lemma ReadyAnswer(db: Db, k: StreamId, id: SnapshotId, n: nat)
    requires Ready(db, k, id, n)
    ensures var u := db.streams[k].uploads[id];
            var r := ApplySnapshot(db.canon, u.chats, u.messages, u.evidence,
                                   Provenance(db.streams[k].epoch, u.announced.throughSeq, None));
            Handle(db, k, Commit(id, n)).1 == if r.Raised? then Failed(r.why) else Accepted(u.announced.throughSeq)
  {
  }

  lemma FoldedIsApplied(db: Db, k: StreamId, id: SnapshotId)
    requires DbOk(db) && HasUpload(db, k, id) && db.streams[k].uploads[id].state == Staging
    ensures var u := db.streams[k].uploads[id];
            Folded(db, k, id).Done? <==>
            ApplySnapshot(db.canon, u.chats, u.messages, u.evidence,
                          Provenance(db.streams[k].epoch, u.announced.throughSeq, None)).Done?
  {
    var u := db.streams[k].uploads[id];
    assert StreamOk(db.streams[k]) && UploadOk(u);
    StagedMeansChunks(db.canon, u, InOrder(u.chunks, u.next), Provenance(db.streams[k].epoch, u.announced.throughSeq, None));
  }

  /** The answer to a commit. It is accepted exactly if the upload is complete, nothing moved the checkpoint since it
      began, and none of its records is refused. */
  lemma CommitAnswer(db: Db, k: StreamId, id: SnapshotId, n: nat)
    requires DbOk(db)
    ensures var reply := Handle(db, k, Commit(id, n)).1;
            if !HasUpload(db, k, id) then reply == Rejected(At(CheckpointOf(db, k)), SnapshotIncomplete)
            else
              && (reply.Accepted? <==> Ready(db, k, id, n) && Folded(db, k, id).Done?)
              && (reply.Failed? <==> Ready(db, k, id, n) && Folded(db, k, id).Raised?)
              && (reply.Accepted? ==> reply.checkpoint == db.streams[k].uploads[id].announced.throughSeq)
              && !reply.Gap?
  {
    if HasUpload(db, k, id) {
      assert StreamOk(db.streams[k]) && UploadOk(db.streams[k].uploads[id]);
      if Ready(db, k, id, n) {
        ReadyAnswer(db, k, id, n);
        FoldedIsApplied(db, k, id);
      } else {
        UnreadyAnswer(db, k, id, n);
      }
    }
  }

  // ----- settings -----

  /** A settings call only touches the settings: an update and a binding need the revision in force, an update takes on
      its values and unbinds, and a confirmation of the bound config makes the desired state effective. */
  lemma SettingsOutcome(db: Db, op: CanonOp)
    requires op.Update? || op.Bind? || op.Applied?
    ensures var db' := HandleSettings(db, op);
            var (s, s') := (db.canon.settings, db'.canon.settings);
            && db'.canon.entities == db.canon.entities && db'.canon.coverage == db.canon.coverage
            && db'.streams == db.streams && db'.revision == db.revision && db'.lastEpoch == db.lastEpoch
            && match op
               case Update(expected, values) =>
                 if expected != s.revision then s' == s
                 else
                   && s'.revision == s.revision + 1 && s'.consent == values.consent
                   && s'.authorizedCreator == values.authorizedCreator && s'.desired == values.desired && s'.requiredConfig.None?
                   && s'.effective == s.effective && s'.effectiveConfig == s.effectiveConfig
                   && s'.effectiveRevision == s.effectiveRevision
               case Bind(revision, config) =>
                 && s'.requiredConfig == (if revision == s.revision && s.requiredConfig.None? then Some(config) else s.requiredConfig)
                 && s'.(requiredConfig := None) == s.(requiredConfig := None)
               case Applied(config) =>
                 if s.requiredConfig != Some(config) then s' == s
                 else
                   && Cov.Matches(s.desired, s'.effective) && s'.effectiveConfig == Some(config)
                   && s'.effectiveRevision == Some(s.revision) && s'.revision == s.revision && s'.consent == s.consent
                   && s'.desired == s.desired && s'.authorizedCreator == s.authorizedCreator
                   && s'.requiredConfig == s.requiredConfig
               case _ => true
  {
    match op
    case Update(expected, values) => Cov.UpdateOutcome(db.canon.settings, expected, values);
    case Bind(revision, config) => Cov.BindOutcome(db.canon.settings, revision, config);
    case Applied(config) => Cov.AppliedOutcome(db.canon.settings, config);
    case _ =>
  }
}
