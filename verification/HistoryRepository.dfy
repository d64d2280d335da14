/** The ingestion repository as the object that is updated in place; every method is one transaction. */
module HistoryRepository {
  import opened Options
  import opened CanonicalModel
  import opened EntityMerge
  import opened SnapshotMerge
  import opened CanonicalRun
  import opened Ingest
  import opened HistoryTables

  // ----- staging tables: inserting a record whose key is taken fails the statement -----

  lemma {:induction false} PutChatKeys(staged: StagedChats, cs: seq<StagedChat>, k: ChatId)
    ensures k in PutChats(staged, cs) <==> k in staged || exists i :: 0 <= i < |cs| && cs[i].Key() == k
  {
    if cs != [] {
      PutChatKeys(staged, cs[..|cs| - 1], k);
      assert cs[|cs| - 1].Key() == k ==> exists i :: 0 <= i < |cs| && cs[i].Key() == k;
      if i :| 0 <= i < |cs| - 1 && cs[i].Key() == k {
        assert cs[..|cs| - 1][i].Key() == k;
      }
    }
  }

  lemma OneMoreChat(staged: StagedChats, cs: seq<StagedChat>, i: nat)
    requires i < |cs| && FitsChats(staged, cs[..i])
    ensures cs[i].Key() in PutChats(staged, cs[..i]) ==> !FitsChats(staged, cs)
    ensures cs[i].Key() !in PutChats(staged, cs[..i]) ==> FitsChats(staged, cs[..i + 1])
    ensures PutChats(staged, cs[..i + 1]) == PutChats(staged, cs[..i])[cs[i].Key() := cs[i]]
  {
    var (before, more) := (cs[..i], cs[..i + 1]);
    assert more[..i] == before && more[i] == cs[i];
    PutChatKeys(staged, before, cs[i].Key());
    if cs[i].Key() !in PutChats(staged, before) {
      forall j, k | 0 <= j < k < |more| ensures more[j].Key() != more[k].Key() {
        assert more[j] == before[j];
      }
    }
  }

  method InsertChats(staged: StagedChats, cs: seq<StagedChat>) returns (ok: bool, after: StagedChats)
    ensures ok == FitsChats(staged, cs)
    ensures ok ==> after == PutChats(staged, cs)
  {
    after := staged;
    for i := 0 to |cs|
      invariant FitsChats(staged, cs[..i]) && after == PutChats(staged, cs[..i])
    {
      OneMoreChat(staged, cs, i);
      if cs[i].Key() in after {
        return false, after;
      }
      after := after[cs[i].Key() := cs[i]];
    }
    assert cs[..|cs|] == cs;
    ok := true;
  }

  lemma {:induction false} PutMessageKeys(staged: StagedMessages, ms: seq<StagedMessage>, k: MessageId)
    ensures k in PutMessages(staged, ms) <==> k in staged || exists i :: 0 <= i < |ms| && ms[i].Key() == k
  {
    if ms != [] {
      PutMessageKeys(staged, ms[..|ms| - 1], k);
      assert ms[|ms| - 1].Key() == k ==> exists i :: 0 <= i < |ms| && ms[i].Key() == k;
      if i :| 0 <= i < |ms| - 1 && ms[i].Key() == k {
        assert ms[..|ms| - 1][i].Key() == k;
      }
    }
  }

  lemma OneMoreMessage(staged: StagedMessages, ms: seq<StagedMessage>, i: nat)
    requires i < |ms| && FitsMessages(staged, ms[..i])
    ensures ms[i].Key() in PutMessages(staged, ms[..i]) ==> !FitsMessages(staged, ms)
    ensures ms[i].Key() !in PutMessages(staged, ms[..i]) ==> FitsMessages(staged, ms[..i + 1])
    ensures PutMessages(staged, ms[..i + 1]) == PutMessages(staged, ms[..i])[ms[i].Key() := ms[i]]
  {
    var (before, more) := (ms[..i], ms[..i + 1]);
    assert more[..i] == before && more[i] == ms[i];
    PutMessageKeys(staged, before, ms[i].Key());
    if ms[i].Key() !in PutMessages(staged, before) {
      forall j, k | 0 <= j < k < |more| ensures more[j].Key() != more[k].Key() {
        assert more[j] == before[j];
      }
    }
  }

  method InsertMessages(staged: StagedMessages, ms: seq<StagedMessage>) returns (ok: bool, after: StagedMessages)
    ensures ok == FitsMessages(staged, ms)
    ensures ok ==> after == PutMessages(staged, ms)
  {
    after := staged;
    for i := 0 to |ms|
      invariant FitsMessages(staged, ms[..i]) && after == PutMessages(staged, ms[..i])
    {
      OneMoreMessage(staged, ms, i);
      if ms[i].Key() in after {
        return false, after;
      }
      after := after[ms[i].Key() := ms[i]];
    }
    assert ms[..|ms|] == ms;
    ok := true;
  }

  lemma OneMoreEvidence(staged: seq<Evidence>, evs: seq<Evidence>, i: nat)
    requires i < |evs| && FitsEvidence(staged, evs[..i])
    ensures evs[i] in staged + evs[..i] ==> !FitsEvidence(staged, evs)
    ensures evs[i] !in staged + evs[..i] ==> FitsEvidence(staged, evs[..i + 1])
    ensures staged + evs[..i] + [evs[i]] == staged + evs[..i + 1]
  {
  }

  method InsertEvidence(staged: seq<Evidence>, evs: seq<Evidence>) returns (ok: bool, after: seq<Evidence>)
    ensures ok == FitsEvidence(staged, evs)
    ensures ok ==> after == staged + evs
  {
    after := staged;
    for i := 0 to |evs|
      invariant FitsEvidence(staged, evs[..i]) && after == staged + evs[..i]
    {
      OneMoreEvidence(staged, evs, i);
      if evs[i] in after {
        return false, after;
      }
      after := after + [evs[i]];
    }
    assert evs[..|evs|] == evs;
    ok := true;
  }

  /** What a transaction comes to, given the outcome of its write. */
  ghost function Concluded(db: Db, k: StreamId, op: CanonOp, outcome: Outcome<Canon>, after: Stream, reply: Reply): (Db, Reply) {
    match outcome
    case Raised(why) => (db, Failed(why))
    case Done(canon, changed) =>
      (db.(canon := canon, streams := db.streams[k := after],
           revision := db.revision + (if changed then 1 else 0), accepted := db.accepted + [op]), reply)
  }

  lemma ConcludedIsPerformed(db: Db, k: StreamId, op: CanonOp, after: Stream, reply: Reply)
    ensures Concluded(db, k, op, Attempt(db.canon, op), after, reply) == Perform(db, k, Write(op, after, reply))
  {
  }

  // ----- the repository -----

  class HistoryRepository {
    const tables: CanonicalTables
    var streams: map<StreamId, Stream>
    var lastEpoch: nat
    var revision: nat
    ghost var accepted: seq<CanonOp>

    ghost function State(): Db
      reads this, tables
    {
      Db(tables.State(), streams, lastEpoch, revision, accepted)
    }

    constructor ()
      ensures State() == EMPTY_DB && fresh(tables)
    {
      tables := new CanonicalTables();
      streams, lastEpoch, revision, accepted := map[], 0, 0, [];
    }

    /** Register the stream on first contact; it gets the next epoch of the account. */
    method EnsureStream(k: StreamId)
      modifies this
      ensures State() == Register(old(State()), k) && k in streams
    {
      if k !in streams {
        streams := streams[k := NewStream(lastEpoch + 1)];
        lastEpoch := lastEpoch + 1;
      }
    }

    method BeginSnapshot(k: StreamId, id: SnapshotId, announced: Announced) returns (reply: Reply)
      modifies this
      ensures tables.State() == old(tables.State())
      ensures (State(), reply) == Handle(old(State()), k, Begin(id, announced))
    {
      EnsureStream(k);
      var s := streams[k];
      assert streams[k := s] == streams;
      var here := At(s.checkpoint);
      if id in s.uploads {
        if s.uploads[id].announced != announced { return Rejected(here, ChunkConflict); }
        return Duplicate(here);
      }
      if exists u :: u in s.uploads && s.uploads[u].state == Staging { return Rejected(here, InvariantFailed); }
      var upload := Upload(s.checkpoint, announced, 0, Counts(0, 0, 0), Staging, None, map[], map[], map[], []);
      streams := streams[k := s.(uploads := s.uploads[id := upload])];
      reply := Accepted(here);
    }

    method AddSnapshotChunk(k: StreamId, id: SnapshotId, index: nat, records: Records, bytes: nat) returns (reply: Reply)
      modifies this
      ensures tables.State() == old(tables.State())
      ensures (State(), reply) == Handle(old(State()), k, Chunk(id, index, records, bytes))
    {
      if bytes > MAX_FRAME_BYTES { return Failed(FrameTooLarge); }
      if k !in streams { return Rejected(0, SnapshotIncomplete); }
      var s := streams[k];
      assert streams[k := s] == streams;
      var here := At(s.checkpoint);
      if id !in s.uploads { return Rejected(here, SnapshotIncomplete); }
      var u := s.uploads[id];
      if index in u.chunks {
        if u.chunks[index] != records { return Rejected(here, ChunkConflict); }
        return Duplicate(here);
      }
      if u.state == Committed { return Rejected(here, ChunkConflict); }
      if index != u.next || index >= u.announced.chunkCount { return Gap(here); }
      if u.lastKind.Some? && Order(records.Kind()) < Order(u.lastKind.value) { return Rejected(here, InvariantFailed); }
      var ok, after := StageRecords(u, index, records);
      if !ok { return Failed(DuplicateEntity); }
      streams := streams[k := s.(uploads := s.uploads[id := after])];
      reply := Accepted(here);
    }

    /** Insert the records of one chunk into the staging table of their kind. */
    method StageRecords(u: Upload, index: nat, records: Records) returns (ok: bool, after: Upload)
      ensures ok == Fits(u, records)
      ensures ok ==> after == AddChunk(u, index, records)
    {
      after := u.(chunks := u.chunks[index := records], next := u.next + 1, lastKind := Some(records.Kind()));
      match records {
        case ChatRecords(cs) =>
          var rows;
          ok, rows := InsertChats(u.chats, cs);
          after := after.(chats := rows, received := u.received.(chats := u.received.chats + |cs|));
        case MessageRecords(ms) =>
          var rows;
          ok, rows := InsertMessages(u.messages, ms);
          after := after.(messages := rows, received := u.received.(messages := u.received.messages + |ms|));
        case EvidenceRecords(evs) =>
          var rows;
          ok, rows := InsertEvidence(u.evidence, evs);
          after := after.(evidence := rows, received := u.received.(evidence := u.received.evidence + |evs|));
      }
    }

    method CommitSnapshot(k: StreamId, id: SnapshotId, chunkCount: nat) returns (reply: Reply)
      modifies this, tables
      ensures (State(), reply) == Handle(old(State()), k, Commit(id, chunkCount))
    {
      if k !in streams { return Rejected(0, SnapshotIncomplete); }
      var s := streams[k];
      assert streams[k := s] == streams;
      var here := At(s.checkpoint);
      if id !in s.uploads { return Rejected(here, SnapshotIncomplete); }
      var u := s.uploads[id];
      if chunkCount != u.announced.chunkCount { return Rejected(here, ChunkConflict); }
      if u.state == Committed { return Duplicate(here); }
      if s.checkpoint != u.starting { return Rejected(here, InvariantFailed); }
      if u.next != u.announced.chunkCount || u.received != u.announced.counts { return Rejected(here, SnapshotIncomplete); }
      var through := u.announced.throughSeq;
      if through < here { return Rejected(here, InvariantFailed); }
      reply := WriteSnapshot(k, id);
    }

    /** The writes of a commit: entities and evidence, then the checkpoint; all of it or nothing. */
    method WriteSnapshot(k: StreamId, id: SnapshotId) returns (reply: Reply)
      requires k in streams && id in streams[k].uploads
      modifies this, tables
      ensures var s := old(streams)[k];
              var u := s.uploads[id];
              var op := Snapshot(u.chats, u.messages, u.evidence, Provenance(s.epoch, u.announced.throughSeq, None));
              (State(), reply) == Perform(old(State()), k, Write(op, Committing(s, id), Accepted(u.announced.throughSeq)))
    {
      var s := streams[k];
      var u := s.uploads[id];
      var through := u.announced.throughSeq;
      var saved := tables.State();
      var origin := Provenance(s.epoch, through, None);
      ghost var op := Snapshot(u.chats, u.messages, u.evidence, origin);
      var w := tables.ApplySnapshot(u.chats, u.messages, u.evidence, origin);
      var committed := u.(state := Committed, chats := map[], messages := map[], evidence := []);
      var after := s.(checkpoint := Some(through), boundary := Some(through), uploads := s.uploads[id := committed]);
      reply := Conclude(k, saved, w, op, CanonicalRun.ApplySnapshot(saved, u.chats, u.messages, u.evidence, origin), through, after);
      ConcludedIsPerformed(old(State()), k, op, after, Accepted(through));
    }

    /** End a transaction: roll back what raised, or record the write, the revision and the checkpoint. */
    method Conclude(k: StreamId, saved: Canon, w: Written, ghost op: CanonOp, ghost expected: Outcome<Canon>,
                    checkpoint: nat, after: Stream)
      returns (reply: Reply)
      requires Meets(expected, tables.State(), w)
      modifies this, tables
      ensures (State(), reply) == Concluded(old(State()).(canon := saved), k, op, expected, after, Accepted(checkpoint))
    {
      if w.Violated? {
        tables.Rollback(saved);
        return Failed(w.why);
      }
      if w.changed {
        revision := revision + 1;
      }
      accepted := accepted + [op];
      streams := streams[k := after];
      reply := Accepted(checkpoint);
    }

    method CommitDelta(k: StreamId, event: EventId, sourceSeq: nat, change: Change) returns (reply: Reply)
      modifies this, tables
      ensures (State(), reply) == Handle(old(State()), k, Request.Delta(event, sourceSeq, change))
    {
      var savedStreams, savedEpoch := streams, lastEpoch;
      EnsureStream(k);
      var s := streams[k];
      assert streams[k := s] == streams;
      if s.checkpoint.None? { return Gap(0); }
      var here := s.checkpoint.value;
      if event in s.events {
        if s.events[event] != RawEvent(sourceSeq, change) { return Rejected(here, InvariantFailed); }
        return Duplicate(here);
      }
      if sourceSeq <= here {
        if exists e :: e in s.events && e != event && s.events[e].sourceSeq == sourceSeq { return Rejected(here, InvariantFailed); }
        return Duplicate(here);
      }
      if sourceSeq != here + 1 { return Gap(here); }
      reply := WriteDelta(k, event, sourceSeq, change);
      if reply.Failed? {
        streams, lastEpoch := savedStreams, savedEpoch;
      }
    }

    /** The writes of a delta: the raw event, the change, then the checkpoint; all of it or nothing. */
    method WriteDelta(k: StreamId, event: EventId, sourceSeq: nat, change: Change) returns (reply: Reply)
      requires k in streams
      modifies this, tables
      ensures var s := old(streams)[k];
              var after := s.(events := s.events[event := RawEvent(sourceSeq, change)], checkpoint := Some(sourceSeq));
              (State(), reply) == Perform(old(State()), k,
                Write(CanonOp.Delta(change, Provenance(s.epoch, sourceSeq, Some(event))), after, Accepted(sourceSeq)))
    {
      var s := streams[k];
      var saved := tables.State();
      var origin := Provenance(s.epoch, sourceSeq, Some(event));
      ghost var op := CanonOp.Delta(change, origin);
      var w := tables.ApplyChange(change, origin);
      var after := s.(events := s.events[event := RawEvent(sourceSeq, change)], checkpoint := Some(sourceSeq));
      reply := Conclude(k, saved, w, op, CanonicalRun.ApplyChange(saved, change, origin), sourceSeq, after);
      ConcludedIsPerformed(old(State()), k, op, after, Accepted(sourceSeq));
    }
  }
}
