/** What ingestion keeps: uploads survive retries, deltas are gap-free and applied once, the account is the fold of
    what was accepted. */
module IngestRuns {
  import opened Options
  import opened CanonicalModel
  import opened EntityMerge
  import opened SnapshotMerge
  import opened CanonicalRun
  import opened Ingest

  // ----- uploads and their chunks -----

  /** The stored chunks are exactly those numbered 0 to n - 1. */
  ghost predicate Contiguous(chunks: map<nat, Records>, n: nat) {
    forall i: nat :: i in chunks <==> i < n
  }

  ghost function InOrder(chunks: map<nat, Records>, n: nat): seq<Records>
    requires Contiguous(chunks, n)
  {
    seq(n, i requires 0 <= i < n => chunks[i])
  }

  ghost function AllChats(rs: seq<Records>): seq<StagedChat> {
    if rs == [] then [] else AllChats(rs[..|rs| - 1]) + rs[|rs| - 1].Chats()
  }

  ghost function AllMessages(rs: seq<Records>): seq<StagedMessage> {
    if rs == [] then [] else AllMessages(rs[..|rs| - 1]) + rs[|rs| - 1].Messages()
  }

  ghost function AllEvidence(rs: seq<Records>): seq<Evidence> {
    if rs == [] then [] else AllEvidence(rs[..|rs| - 1]) + rs[|rs| - 1].Evidence()
  }

  ghost function Received(rs: seq<Records>): Counts {
    Counts(|AllChats(rs)|, |AllMessages(rs)|, |AllEvidence(rs)|)
  }

  ghost predicate KindsOrdered(rs: seq<Records>) {
    forall i, j :: 0 <= i < j < |rs| ==> Order(rs[i].Kind()) <= Order(rs[j].Kind())
  }

  /** The staged tables hold the records of the stored chunks, and nothing else. */
  ghost predicate StagedIs(u: Upload, rs: seq<Records>) {
    && EnumeratesChats(AllChats(rs), u.chats) && EnumeratesMessages(AllMessages(rs), u.messages)
    && u.evidence == AllEvidence(rs)
  }

  ghost predicate CountersMatch(u: Upload, rs: seq<Records>) {
    && u.received == Received(rs) && KindsOrdered(rs)
    && u.lastKind == (if rs == [] then None else Some(rs[|rs| - 1].Kind()))
  }

  /** Counters, kinds and staged tables match these chunks. */
  ghost predicate Matches(u: Upload, rs: seq<Records>) {
    && CountersMatch(u, rs)
    && (u.state == Staging ==> StagedIs(u, rs))
    && (u.state == Committed ==> u.next == u.announced.chunkCount && u.received == u.announced.counts)
  }

  ghost predicate UploadOk(u: Upload) {
    Contiguous(u.chunks, u.next) && u.next <= u.announced.chunkCount && Matches(u, InOrder(u.chunks, u.next))
  }

  ghost predicate OneStaging(s: Stream) {
    forall a, b :: a in s.uploads && b in s.uploads && s.uploads[a].state == Staging && s.uploads[b].state == Staging ==> a == b
  }

  // ----- sequenced events -----

  predicate Reached(a: Option<nat>, b: Option<nat>) { a.None? || (b.Some? && a.value <= b.value) }

  /** Some raw event carries this sequence number. */
  ghost predicate Delivered(s: Stream, n: nat) {
    exists e :: e in s.events && s.events[e].sourceSeq == n
  }

  ghost predicate EventsOk(s: Stream) {
    && Reached(s.boundary, s.checkpoint) && (s.checkpoint.None? ==> s.events == map[])
    && (s.checkpoint.Some? ==> s.boundary.Some?)
    && (forall e :: e in s.events ==> s.checkpoint.Some? && s.events[e].sourceSeq <= s.checkpoint.value)
    && (forall e, f :: e in s.events && f in s.events && s.events[e].sourceSeq == s.events[f].sourceSeq ==> e == f)
    && (s.checkpoint.Some? ==>
          forall n: nat :: s.boundary.value < n <= s.checkpoint.value ==> Delivered(s, n))
  }

  ghost predicate UploadsOk(s: Stream) {
    OneStaging(s) && forall id :: id in s.uploads ==> UploadOk(s.uploads[id])
  }

  ghost predicate StreamOk(s: Stream) { EventsOk(s) && UploadsOk(s) }

  /** From one moment of a stream to a later one. */
  ghost predicate StreamOnward(s: Stream, s': Stream) {
    && s'.epoch == s.epoch && Reached(s.checkpoint, s'.checkpoint) && Reached(s.boundary, s'.boundary)
    && (forall e :: e in s.events ==> e in s'.events && s'.events[e] == s.events[e])
    && (forall id :: id in s.uploads ==> id in s'.uploads && UploadOnward(s.uploads[id], s'.uploads[id]))
  }

  predicate UploadOnward(u: Upload, u': Upload) {
    && u'.announced == u.announced && u'.starting == u.starting && u.next <= u'.next
    && (forall i :: i in u.chunks ==> i in u'.chunks && u'.chunks[i] == u.chunks[i])
    && (u.state == Committed ==> u' == u)
  }

  lemma StreamOnwardIsTransitive(a: Stream, b: Stream, c: Stream)
    requires StreamOnward(a, b) && StreamOnward(b, c)
    ensures StreamOnward(a, c)
  {
    forall id | id in a.uploads ensures id in c.uploads && UploadOnward(a.uploads[id], c.uploads[id]) {
      assert UploadOnward(a.uploads[id], b.uploads[id]) && UploadOnward(b.uploads[id], c.uploads[id]);
    }
  }

  // ----- adding a chunk -----

  lemma FewerChatsFit(staged: StagedChats, cs: seq<StagedChat>)
    requires FitsChats(staged, cs) && cs != []
    ensures FitsChats(staged, cs[..|cs| - 1]) && cs[|cs| - 1].Key() !in staged
    ensures forall r :: r in cs[..|cs| - 1] ==> r.Key() != cs[|cs| - 1].Key()
  {
  }

  lemma FewerMessagesFit(staged: StagedMessages, ms: seq<StagedMessage>)
    requires FitsMessages(staged, ms) && ms != []
    ensures FitsMessages(staged, ms[..|ms| - 1]) && ms[|ms| - 1].Key() !in staged
    ensures forall r :: r in ms[..|ms| - 1] ==> r.Key() != ms[|ms| - 1].Key()
  {
  }

  lemma {:induction false} PutChatsEnumerates(rs: seq<StagedChat>, staged: StagedChats, cs: seq<StagedChat>)
    requires EnumeratesChats(rs, staged) && FitsChats(staged, cs)
    ensures EnumeratesChats(rs + cs, PutChats(staged, cs))
  {
    if cs == [] {
      assert rs + cs == rs;
    } else {
      var (before, last) := (cs[..|cs| - 1], cs[|cs| - 1]);
      FewerChatsFit(staged, cs);
      PutChatsEnumerates(rs, staged, before);
      var mid := PutChats(staged, before);
      assert rs + cs == (rs + before) + [last];
      PutKeys(staged, before, last.Key());
      AppendChat(rs + before, mid, last);
    }
  }

  lemma {:induction false} PutKeys(staged: StagedChats, cs: seq<StagedChat>, k: ChatId)
    requires k !in staged && forall r :: r in cs ==> r.Key() != k
    ensures k !in PutChats(staged, cs)
  {
    if cs != [] {
      PutKeys(staged, cs[..|cs| - 1], k);
    }
  }

  lemma AppendChat(rs: seq<StagedChat>, staged: StagedChats, r: StagedChat)
    requires EnumeratesChats(rs, staged) && r.Key() !in staged
    ensures EnumeratesChats(rs + [r], staged[r.Key() := r])
  {
    var (more, after) := (rs + [r], staged[r.Key() := r]);
    forall i, j | 0 <= i < j < |more| ensures more[i].Key() != more[j].Key() {
      assert more[i] == rs[i];
    }
    forall k | k in after ensures after[k] in more {
      if k == r.Key() {
        assert more[|rs|] == r;
      } else {
        var i :| 0 <= i < |rs| && rs[i] == staged[k];
        assert more[i] == staged[k];
      }
    }
  }

  lemma {:induction false} PutMessagesEnumerates(rs: seq<StagedMessage>, staged: StagedMessages, ms: seq<StagedMessage>)
    requires EnumeratesMessages(rs, staged) && FitsMessages(staged, ms)
    ensures EnumeratesMessages(rs + ms, PutMessages(staged, ms))
  {
    if ms == [] {
      assert rs + ms == rs;
    } else {
      var (before, last) := (ms[..|ms| - 1], ms[|ms| - 1]);
      FewerMessagesFit(staged, ms);
      PutMessagesEnumerates(rs, staged, before);
      assert rs + ms == (rs + before) + [last];
      PutMessageKeys(staged, before, last.Key());
      AppendMessage(rs + before, PutMessages(staged, before), last);
    }
  }

  lemma {:induction false} PutMessageKeys(staged: StagedMessages, ms: seq<StagedMessage>, k: MessageId)
    requires k !in staged && forall r :: r in ms ==> r.Key() != k
    ensures k !in PutMessages(staged, ms)
  {
    if ms != [] {
      PutMessageKeys(staged, ms[..|ms| - 1], k);
    }
  }

  lemma AppendMessage(rs: seq<StagedMessage>, staged: StagedMessages, r: StagedMessage)
    requires EnumeratesMessages(rs, staged) && r.Key() !in staged
    ensures EnumeratesMessages(rs + [r], staged[r.Key() := r])
  {
    var (more, after) := (rs + [r], staged[r.Key() := r]);
    forall i, j | 0 <= i < j < |more| ensures more[i].Key() != more[j].Key() {
      assert more[i] == rs[i];
    }
    forall k | k in after ensures after[k] in more {
      if k == r.Key() {
        assert more[|rs|] == r;
      } else {
        var i :| 0 <= i < |rs| && rs[i] == staged[k];
        assert more[i] == staged[k];
      }
    }
  }

  /** One more chunk at the end of the others. */
  lemma OneMoreChunk(chunks: map<nat, Records>, n: nat, r: Records)
    requires Contiguous(chunks, n)
    ensures Contiguous(chunks[n := r], n + 1)
    ensures InOrder(chunks[n := r], n + 1) == InOrder(chunks, n) + [r]
  {
  }

  lemma AddChunkKeepsStaged(u: Upload, rs: seq<Records>, r: Records)
    requires StagedIs(u, rs) && Fits(u, r)
    ensures StagedIs(AddChunk(u, u.next, r), rs + [r])
  {
    assert (rs + [r])[..|rs|] == rs;
    PutChatsEnumerates(AllChats(rs), u.chats, r.Chats());
    PutMessagesEnumerates(AllMessages(rs), u.messages, r.Messages());
  }

  lemma AddChunkKeepsCounts(rs: seq<Records>, r: Records)
    ensures Add(Received(rs), r) == Received(rs + [r])
  {
    assert (rs + [r])[..|rs|] == rs;
  }

  lemma AddChunkKeepsCounters(u: Upload, rs: seq<Records>, r: Records)
    requires CountersMatch(u, rs) && (u.lastKind.Some? ==> Order(u.lastKind.value) <= Order(r.Kind()))
    ensures CountersMatch(AddChunk(u, u.next, r), rs + [r])
  {
    AddChunkKeepsCounts(rs, r);
    OrderedExtends(rs, r);
  }

  lemma AddChunkKeepsMatch(u: Upload, rs: seq<Records>, r: Records)
    requires Matches(u, rs) && u.state == Staging && Fits(u, r)
    requires u.lastKind.Some? ==> Order(u.lastKind.value) <= Order(r.Kind())
    ensures Matches(AddChunk(u, u.next, r), rs + [r])
  {
    AddChunkKeepsStaged(u, rs, r);
    AddChunkKeepsCounters(u, rs, r);
  }

  lemma AddChunkKeepsOk(u: Upload, r: Records)
    requires UploadOk(u) && u.state == Staging && Fits(u, r) && u.next < u.announced.chunkCount
    requires u.lastKind.Some? ==> Order(u.lastKind.value) <= Order(r.Kind())
    ensures UploadOk(AddChunk(u, u.next, r)) && UploadOnward(u, AddChunk(u, u.next, r))
  {
    AddChunkGoesOn(u, r);
    OneMoreChunk(u.chunks, u.next, r);
    AddChunkKeepsMatch(u, InOrder(u.chunks, u.next), r);
  }

  lemma AddChunkGoesOn(u: Upload, r: Records)
    requires Contiguous(u.chunks, u.next) && u.state == Staging
    ensures UploadOnward(u, AddChunk(u, u.next, r))
  {
  }

  lemma OrderedExtends(rs: seq<Records>, r: Records)
    requires KindsOrdered(rs) && (rs != [] ==> Order(rs[|rs| - 1].Kind()) <= Order(r.Kind()))
    ensures KindsOrdered(rs + [r])
  {
    var more := rs + [r];
    forall i, j | 0 <= i < j < |more| ensures Order(more[i].Kind()) <= Order(more[j].Kind()) {
      if j == |rs| {
        assert Order(rs[i].Kind()) <= Order(rs[|rs| - 1].Kind());
      }
    }
  }

  // ----- one request -----

  /** Uploads do not concern the events. */
  lemma UploadsLeaveEvents(s: Stream, uploads: map<SnapshotId, Upload>)
    requires EventsOk(s)
    ensures EventsOk(s.(uploads := uploads))
  {
    forall n: nat ensures Delivered(s, n) ==> Delivered(s.(uploads := uploads), n) {
      if e :| e in s.events && s.events[e].sourceSeq == n {
        assert e in s.(uploads := uploads).events;
      }
    }
  }

  /** One upload is new or went on. */
  lemma PutUploadKeepsStream(s: Stream, id: SnapshotId, u: Upload)
    requires StreamOk(s) && UploadOk(u) && (id in s.uploads ==> UploadOnward(s.uploads[id], u))
    requires u.state == Staging ==> forall a :: a in s.uploads && s.uploads[a].state == Staging ==> a == id
    ensures StreamOk(s.(uploads := s.uploads[id := u])) && StreamOnward(s, s.(uploads := s.uploads[id := u]))
  {
    UploadsLeaveEvents(s, s.uploads[id := u]);
    PutUploadKeepsOk(s, id, u);
    PutUploadGoesOn(s, id, u);
  }

  lemma PutUploadKeepsOk(s: Stream, id: SnapshotId, u: Upload)
    requires UploadsOk(s) && UploadOk(u)
    requires u.state == Staging ==> forall a :: a in s.uploads && s.uploads[a].state == Staging ==> a == id
    ensures UploadsOk(s.(uploads := s.uploads[id := u]))
  {
    var s' := s.(uploads := s.uploads[id := u]);
    PutUploadStaging(s, id, u);
    forall x | x in s'.uploads ensures UploadOk(s'.uploads[x]) {
      assert x != id ==> UploadOk(s.uploads[x]);
    }
  }

  lemma PutUploadStaging(s: Stream, id: SnapshotId, u: Upload)
    requires OneStaging(s)
    requires u.state == Staging ==> forall a :: a in s.uploads && s.uploads[a].state == Staging ==> a == id
    ensures OneStaging(s.(uploads := s.uploads[id := u]))
  {
  }

  lemma SameUpload(u: Upload)
    ensures UploadOnward(u, u)
  {
  }

  lemma PutUploadGoesOn(s: Stream, id: SnapshotId, u: Upload)
    requires id in s.uploads ==> UploadOnward(s.uploads[id], u)
    ensures StreamOnward(s, s.(uploads := s.uploads[id := u]))
  {
    forall x | x in s.uploads ensures UploadOnward(s.uploads[x], s.uploads[id := u][x]) {
      SameUpload(s.uploads[x]);
    }
  }

  /** The uploads stay as they are. */
  lemma EventsLeaveUploads(s: Stream, s': Stream)
    requires UploadsOk(s) && s'.uploads == s.uploads
    ensures UploadsOk(s')
  {
    forall x | x in s'.uploads ensures UploadOk(s'.uploads[x]) {
      assert UploadOk(s.uploads[x]);
    }
  }

  lemma EventsGoOn(s: Stream, s': Stream)
    requires s'.epoch == s.epoch && s'.uploads == s.uploads
    requires Reached(s.checkpoint, s'.checkpoint) && Reached(s.boundary, s'.boundary)
    requires forall e :: e in s.events ==> e in s'.events && s'.events[e] == s.events[e]
    ensures StreamOnward(s, s')
  {
    forall x | x in s.uploads ensures UploadOnward(s.uploads[x], s'.uploads[x]) {
      SameUpload(s.uploads[x]);
    }
  }

  lemma BeginKeepsStream(s: Stream, id: SnapshotId, a: Announced)
    requires StreamOk(s)
    ensures var s' := PlanBegin(s, id, a).stream;
            StreamOk(s') && StreamOnward(s, s') && s'.checkpoint == s.checkpoint && s'.events == s.events
  {
    var s' := PlanBegin(s, id, a).stream;
    if s' != s {
      var u := s'.uploads[id];
      assert InOrder(u.chunks, u.next) == [];
      assert UploadOk(u);
      PutUploadKeepsStream(s, id, u);
    }
  }

  lemma ChunkKeepsStream(s: Stream, id: SnapshotId, index: nat, r: Records, bytes: nat)
    requires StreamOk(s)
    ensures var s' := PlanChunk(s, id, index, r, bytes).stream;
            StreamOk(s') && StreamOnward(s, s') && s'.checkpoint == s.checkpoint && s'.events == s.events
  {
    var s' := PlanChunk(s, id, index, r, bytes).stream;
    if s' != s {
      var u := s.uploads[id];
      assert UploadOk(u);
      AddChunkKeepsOk(u, r);
      PutUploadKeepsStream(s, id, AddChunk(u, u.next, r));
    }
  }

  lemma CommittedIsOk(u: Upload)
    requires UploadOk(u) && u.state == Staging && u.next == u.announced.chunkCount && u.received == u.announced.counts
    ensures var u' := u.(state := Committed, chats := map[], messages := map[], evidence := []);
            UploadOk(u') && UploadOnward(u, u')
  {
  }

  lemma CommitKeepsStream(s: Stream, id: SnapshotId, chunkCount: nat)
    requires StreamOk(s)
    ensures var s' := PlanCommit(s, id, chunkCount).stream;
            StreamOk(s') && StreamOnward(s, s') && s'.events == s.events
  {
    var s' := PlanCommit(s, id, chunkCount).stream;
    if s' != s {
      CommittedIsOk(s.uploads[id]);
      PutUploadKeepsStream(s, id, s'.uploads[id]);
      assert s' == s.(uploads := s'.uploads).(checkpoint := s'.checkpoint, boundary := s'.boundary);
    }
  }

  lemma DeltaKeepsEvents(s: Stream, event: EventId, seqNo: nat, change: Change)
    requires EventsOk(s)
    ensures EventsOk(PlanDelta(s, event, seqNo, change).stream)
  {
    var s' := PlanDelta(s, event, seqNo, change).stream;
    if s' != s {
      forall n: nat | s'.boundary.value < n <= s'.checkpoint.value ensures Delivered(s', n) {
        if n == seqNo {
          assert event in s'.events && s'.events[event].sourceSeq == n;
        } else {
          assert Delivered(s, n);
          var e :| e in s.events && s.events[e].sourceSeq == n;
          assert e in s'.events && s'.events[e].sourceSeq == n;
        }
      }
    }
  }

  lemma DeltaGoesOn(s: Stream, event: EventId, seqNo: nat, change: Change)
    ensures var s' := PlanDelta(s, event, seqNo, change).stream;
            && s'.epoch == s.epoch && s'.uploads == s.uploads && s'.boundary == s.boundary
            && Reached(s.checkpoint, s'.checkpoint)
            && (forall e :: e in s.events ==> e in s'.events && s'.events[e] == s.events[e])
  {
  }

  lemma DeltaKeepsStream(s: Stream, event: EventId, seqNo: nat, change: Change)
    requires StreamOk(s)
    ensures var s' := PlanDelta(s, event, seqNo, change).stream;
            StreamOk(s') && StreamOnward(s, s') && s'.uploads == s.uploads
  {
    var s' := PlanDelta(s, event, seqNo, change).stream;
    DeltaKeepsEvents(s, event, seqNo, change);
    DeltaGoesOn(s, event, seqNo, change);
    EventsLeaveUploads(s, s');
    EventsGoOn(s, s');
  }

  lemma PlanKeepsStream(s: Stream, r: Request)
    requires StreamOk(s)
    ensures StreamOk(PlanFor(s, r).stream) && StreamOnward(s, PlanFor(s, r).stream)
  {
    match r
    case Begin(id, announced) => BeginKeepsStream(s, id, announced);
    case Chunk(id, index, records, bytes) => ChunkKeepsStream(s, id, index, records, bytes);
    case Commit(id, chunkCount) => CommitKeepsStream(s, id, chunkCount);
    case Delta(event, seqNo, change) => DeltaKeepsStream(s, event, seqNo, change);
  }

  // ----- the account -----

  ghost predicate DbOk(db: Db) {
    && (forall k :: k in db.streams ==> StreamOk(db.streams[k]))
    && CanonInvariant(db.canon) && db.canon == ExecAll(EMPTY_ACCOUNT, db.accepted)
  }

  /** Later: streams went on, and what was accepted before is still the beginning of what was accepted. */
  ghost predicate DbOnward(db: Db, db': Db) {
    && db.accepted <= db'.accepted && db.revision <= db'.revision
    && (forall k :: k in db.streams ==> k in db'.streams && StreamOnward(db.streams[k], db'.streams[k]))
  }

  lemma DbOnwardIsTransitive(a: Db, b: Db, c: Db)
    requires DbOnward(a, b) && DbOnward(b, c)
    ensures DbOnward(a, c)
  {
    forall k | k in a.streams ensures k in c.streams && StreamOnward(a.streams[k], c.streams[k]) {
      StreamOnwardIsTransitive(a.streams[k], b.streams[k], c.streams[k]);
    }
  }

  lemma StaysAsItIs(s: Stream)
    ensures StreamOnward(s, s)
  {
  }

  lemma NewStreamIsOk(epoch: nat)
    ensures StreamOk(NewStream(epoch))
  {
  }

  lemma AcceptedExtends(canon: Canon, ops: seq<CanonOp>, op: CanonOp)
    requires canon == ExecAll(EMPTY_ACCOUNT, ops)
    ensures Exec(canon, op) == ExecAll(EMPTY_ACCOUNT, ops + [op])
  {
    assert (ops + [op])[..|ops|] == ops;
  }

  lemma RegisterKeepsOk(db: Db, k: StreamId)
    requires DbOk(db)
    ensures DbOk(Register(db, k)) && DbOnward(db, Register(db, k)) && k in Register(db, k).streams
  {
    NewStreamIsOk(db.lastEpoch + 1);
    forall j | j in db.streams ensures StreamOnward(db.streams[j], Register(db, k).streams[j]) {
      StaysAsItIs(db.streams[j]);
    }
  }

  lemma PutStreamKeepsOk(db: Db, k: StreamId, s: Stream)
    requires DbOk(db) && StreamOk(s) && (k in db.streams ==> StreamOnward(db.streams[k], s))
    ensures DbOk(db.(streams := db.streams[k := s])) && DbOnward(db, db.(streams := db.streams[k := s]))
  {
    forall j | j in db.streams ensures StreamOnward(db.streams[j], db.streams[k := s][j]) {
      StaysAsItIs(db.streams[j]);
    }
  }

  /** A write that was carried out: the account, the revision and the history move on together. */
  lemma AcceptKeepsOk(db: Db, op: CanonOp)
    requires DbOk(db) && Attempt(db.canon, op).Done?
    ensures var r := Attempt(db.canon, op);
            var db' := db.(canon := r.state, revision := db.revision + (if r.changed then 1 else 0), accepted := db.accepted + [op]);
            DbOk(db') && DbOnward(db, db')
  {
    OpStep(db.canon, op);
    AcceptedExtends(db.canon, db.accepted, op);
    forall j | j in db.streams ensures StreamOnward(db.streams[j], db.streams[j]) {
      StaysAsItIs(db.streams[j]);
    }
  }

  lemma AnswerKeepsOk(db: Db, k: StreamId, s: Stream, reply: Reply)
    requires DbOk(db) && StreamOk(s) && (k in db.streams ==> StreamOnward(db.streams[k], s))
    ensures DbOk(Perform(db, k, Answer(s, reply)).0) && DbOnward(db, Perform(db, k, Answer(s, reply)).0)
  {
    PutStreamKeepsOk(db, k, s);
    SameDbIsOnward(db);
  }

  lemma SameDbIsOnward(db: Db)
    ensures DbOnward(db, db)
  {
    forall j | j in db.streams ensures StreamOnward(db.streams[j], db.streams[j]) {
      StaysAsItIs(db.streams[j]);
    }
  }

  lemma WriteKeepsOk(db: Db, k: StreamId, op: CanonOp, s: Stream, reply: Reply)
    requires DbOk(db) && StreamOk(s) && (k in db.streams ==> StreamOnward(db.streams[k], s))
    requires Attempt(db.canon, op).Done?
    ensures DbOk(Perform(db, k, Write(op, s, reply)).0) && DbOnward(db, Perform(db, k, Write(op, s, reply)).0)
  {
    var mid := db.(streams := db.streams[k := s]);
    PutStreamKeepsOk(db, k, s);
    AcceptKeepsOk(mid, op);
    var r := Attempt(db.canon, op);
    var db' := mid.(canon := r.state, revision := db.revision + (if r.changed then 1 else 0), accepted := db.accepted + [op]);
    DbOnwardIsTransitive(db, mid, db');
  }

  lemma PerformKeepsOk(db: Db, k: StreamId, r: Request)
    requires DbOk(db) && (Registers(r) ==> k in db.streams)
    ensures var (db', reply) := Perform(db, k, PlanFor(StreamOf(db, k), r));
            !reply.Failed? ==> DbOk(db') && DbOnward(db, db')
  {
    NewStreamIsOk(0);
    PlanKeepsStream(StreamOf(db, k), r);
    match PlanFor(StreamOf(db, k), r)
    case Answer(s, reply) => AnswerKeepsOk(db, k, s, reply);
    case Write(op, s, reply) =>
      if Attempt(db.canon, op).Done? { WriteKeepsOk(db, k, op, s, reply); }
  }

  lemma HandleKeepsOk(db: Db, k: StreamId, r: Request)
    requires DbOk(db)
    ensures DbOk(Handle(db, k, r).0) && DbOnward(db, Handle(db, k, r).0)
  {
    var db1 := if Registers(r) then Register(db, k) else db;
    RegisterKeepsOk(db, k);
    SameDbIsOnward(db);
    PerformKeepsOk(db1, k, r);
    var (db2, reply) := Perform(db1, k, PlanFor(StreamOf(db1, k), r));
    if !reply.Failed? {
      DbOnwardIsTransitive(db, db1, db2);
    }
  }
}
