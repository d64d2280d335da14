/** An accepted snapshot is a run of accepted changes, a rejected one ends at the first change that is refused; and what
    deliveries of either kind leave behind is still there at the end of any run. */
module SnapshotOutcomes {
  import opened Options
  import opened Sequences
  import opened CanonicalModel
  import opened EntityMerge
  import opened CoverageModel
  import opened SnapshotMerge
  import opened CanonicalRun
  import opened Ingest
  import opened IngestRuns
  import opened IngestGuarantees
  import opened EntityOutcomes
  import opened IngestOutcomes
  import Cov = CoverageOutcomes

  // ----- records as changes -----

  ghost function ChatChanges(rs: seq<StagedChat>): seq<Change> { seq(|rs|, i requires 0 <= i < |rs| => AsChange(rs[i])) }

  ghost function MessageChanges(rs: seq<StagedMessage>): seq<Change> {
    seq(|rs|, i requires 0 <= i < |rs| => MessageAsChange(rs[i]))
  }

  ghost function EvidenceChanges(evs: seq<Evidence>): seq<Change> {
    seq(|evs|, i requires 0 <= i < |evs| => CoverageObserved(evs[i]))
  }

  /** The records of all chunks: chats, then messages, then evidence. */
  ghost function ChangesOf(rs: seq<Records>): seq<Change> {
    ChatChanges(AllChats(rs)) + (MessageChanges(AllMessages(rs)) + EvidenceChanges(AllEvidence(rs)))
  }

  // ----- traces -----

  ghost predicate StepTaken(trace: seq<Canon>, changes: seq<Change>, origin: Provenance, i: nat)
    requires i < |changes| && i + 1 < |trace|
  {
    && CanonInvariant(trace[i]) && !Refuses(trace[i], changes[i])
    && ChangeTaken(trace[i], trace[i + 1], changes[i], origin) && Onward(trace[i], trace[i + 1])
  }

  /** The changes were taken one after the other, each from the state the one before it left. */
  ghost predicate Steps(trace: seq<Canon>, changes: seq<Change>, origin: Provenance) {
    |trace| == |changes| + 1 && forall i :: 0 <= i < |changes| ==> StepTaken(trace, changes, origin, i)
  }

  ghost predicate News(trace: seq<Canon>, changes: seq<Change>, i: nat)
    requires i < |changes| && i < |trace|
  {
    IsNews(trace[i], changes[i])
  }

  /** All changes were taken, and the flag says whether any of them was news. */
  ghost predicate TakesAll(c: Canon, changes: seq<Change>, origin: Provenance, c': Canon, changed: bool, trace: seq<Canon>) {
    && Steps(trace, changes, origin) && trace[0] == c && trace[|changes|] == c' && CanonInvariant(c')
    && (changed <==> exists i :: 0 <= i < |changes| && News(trace, changes, i))
  }

  /** The first `n` changes were taken, and the next one is refused. */
  ghost predicate StopsAt(c: Canon, changes: seq<Change>, origin: Provenance, n: nat, trace: seq<Canon>) {
    && n < |changes| && Steps(trace, changes[..n], origin) && trace[0] == c
    && CanonInvariant(trace[n]) && Refuses(trace[n], changes[n])
  }

  /** Taking the changes comes out as `r`. */
  ghost predicate ComesTo(c: Canon, changes: seq<Change>, origin: Provenance, r: Outcome<Canon>) {
    match r
    case Done(c', changed) => exists trace :: TakesAll(c, changes, origin, c', changed, trace)
    case Raised(_) => exists n: nat, trace :: StopsAt(c, changes, origin, n, trace)
  }

  lemma NoChanges(c: Canon, origin: Provenance)
    requires CanonInvariant(c)
    ensures ComesTo(c, [], origin, Done(c, false))
  {
    assert TakesAll(c, [], origin, c, false, [c]);
  }

  lemma OneChange(c: Canon, change: Change, origin: Provenance, r: Outcome<Canon>)
    requires CanonInvariant(c) && (r.Raised? <==> Refuses(c, change))
    requires r.Done? ==>
               && CanonInvariant(r.state) && Onward(c, r.state) && ChangeTaken(c, r.state, change, origin)
               && (r.changed <==> IsNews(c, change))
    ensures ComesTo(c, [change], origin, r)
  {
    if r.Raised? {
      assert Steps([c], [change][..0], origin);
      assert StopsAt(c, [change], origin, 0, [c]);
    } else {
      var trace := [c, r.state];
      assert StepTaken(trace, [change], origin, 0);
      assert News(trace, [change], 0) <==> r.changed;
      assert TakesAll(c, [change], origin, r.state, r.changed, trace);
    }
  }

  lemma JoinSteps(a: seq<Canon>, xs: seq<Change>, b: seq<Canon>, ys: seq<Change>, origin: Provenance)
    requires Steps(a, xs, origin) && Steps(b, ys, origin) && a[|xs|] == b[0]
    ensures Steps(a + b[1..], xs + ys, origin)
  {
    var trace, changes := a + b[1..], xs + ys;
    forall i | 0 <= i < |changes| ensures StepTaken(trace, changes, origin, i) {
      if i < |xs| {
        assert StepTaken(a, xs, origin, i);
      } else {
        assert StepTaken(b, ys, origin, i - |xs|);
      }
    }
  }

  lemma JoinNews(a: seq<Canon>, xs: seq<Change>, b: seq<Canon>, ys: seq<Change>)
    requires |a| == |xs| + 1 && |b| == |ys| + 1 && a[|xs|] == b[0]
    ensures (exists i :: 0 <= i < |xs + ys| && News(a + b[1..], xs + ys, i))
            <==> (exists i :: 0 <= i < |xs| && News(a, xs, i)) || (exists i :: 0 <= i < |ys| && News(b, ys, i))
  {
    var trace, changes := a + b[1..], xs + ys;
    if i :| 0 <= i < |xs| && News(a, xs, i) {
      assert News(trace, changes, i);
    }
    if i :| 0 <= i < |ys| && News(b, ys, i) {
      assert News(trace, changes, |xs| + i);
    }
    if i :| 0 <= i < |changes| && News(trace, changes, i) {
      if i < |xs| {
        assert News(a, xs, i);
      } else {
        assert News(b, ys, i - |xs|);
      }
    }
  }

  lemma Join(c: Canon, xs: seq<Change>, mid: Canon, changed: bool, ys: seq<Change>, origin: Provenance, r: Outcome<Canon>)
    requires ComesTo(c, xs, origin, Done(mid, changed)) && ComesTo(mid, ys, origin, r)
    ensures ComesTo(c, xs + ys, origin, Then(Done(mid, changed), r))
  {
    var a :| TakesAll(c, xs, origin, mid, changed, a);
    match r
    case Done(c', changed') =>
      var b :| TakesAll(mid, ys, origin, c', changed', b);
      JoinSteps(a, xs, b, ys, origin);
      JoinNews(a, xs, b, ys);
      assert TakesAll(c, xs + ys, origin, c', changed || changed', a + b[1..]);
    case Raised(_) =>
      var n: nat, b :| StopsAt(mid, ys, origin, n, b);
      JoinSteps(a, xs, b, ys[..n], origin);
      assert (xs + ys)[..|xs| + n] == xs + ys[..n];
      assert StopsAt(c, xs + ys, origin, |xs| + n, a + b[1..]);
  }

  lemma StopsEarly(c: Canon, xs: seq<Change>, ys: seq<Change>, origin: Provenance, why: Violation)
    requires ComesTo(c, xs, origin, Raised(why))
    ensures ComesTo(c, xs + ys, origin, Raised(why))
  {
    var n: nat, trace :| StopsAt(c, xs, origin, n, trace);
    assert (xs + ys)[..n] == xs[..n];
    assert StopsAt(c, xs + ys, origin, n, trace);
  }

  lemma AppliedChange(c: Canon, change: Change, origin: Provenance)
    requires CanonInvariant(c)
    ensures ComesTo(c, [change], origin, ApplyChange(c, change, origin))
  {
    ChangeOutcome(c, change, origin);
    if ApplyChange(c, change, origin).Done? {
      ChangeStep(c, change, origin);
    }
    OneChange(c, change, origin, ApplyChange(c, change, origin));
  }

  lemma InvariantAtEnd(c: Canon, changes: seq<Change>, origin: Provenance, r: Outcome<Canon>)
    requires ComesTo(c, changes, origin, r)
    ensures r.Done? ==> CanonInvariant(r.state)
  {
  }

  lemma {:induction false} ChatsAreTaken(c: Canon, rs: seq<StagedChat>, origin: Provenance)
    requires CanonInvariant(c)
    ensures ComesTo(c, ChatChanges(rs), origin, FoldChats(c, rs, origin))
    decreases rs
  {
    if rs == [] {
      NoChanges(c, origin);
      assert ChatChanges(rs) == [];
    } else {
      var (x, ys) := (AsChange(rs[0]), ChatChanges(rs[1..]));
      assert ChatChanges(rs) == [x] + ys;
      var first := ApplyStagedChat(c, rs[0], origin);
      assert first == ApplyChange(c, x, origin);
      AppliedChange(c, x, origin);
      match first
      case Raised(why) => StopsEarly(c, [x], ys, origin, why);
      case Done(mid, changed) =>
        InvariantAtEnd(c, [x], origin, first);
        ChatsAreTaken(mid, rs[1..], origin);
        Join(c, [x], mid, changed, ys, origin, FoldChats(mid, rs[1..], origin));
    }
  }

  lemma {:induction false} MessagesAreTaken(c: Canon, rs: seq<StagedMessage>, origin: Provenance)
    requires CanonInvariant(c)
    ensures ComesTo(c, MessageChanges(rs), origin, FoldMessages(c, rs, origin))
    decreases rs
  {
    if rs == [] {
      NoChanges(c, origin);
      assert MessageChanges(rs) == [];
    } else {
      var (x, ys) := (MessageAsChange(rs[0]), MessageChanges(rs[1..]));
      assert MessageChanges(rs) == [x] + ys;
      var first := ApplyStagedMessage(c, rs[0], origin);
      assert first == ApplyChange(c, x, origin);
      AppliedChange(c, x, origin);
      match first
      case Raised(why) => StopsEarly(c, [x], ys, origin, why);
      case Done(mid, changed) =>
        InvariantAtEnd(c, [x], origin, first);
        MessagesAreTaken(mid, rs[1..], origin);
        Join(c, [x], mid, changed, ys, origin, FoldMessages(mid, rs[1..], origin));
    }
  }

  lemma {:induction false} EvidenceIsTaken(c: Canon, evs: seq<Evidence>, origin: Provenance)
    requires CanonInvariant(c)
    ensures ComesTo(c, EvidenceChanges(evs), origin, ApplyAllEvidence(c, evs))
  {
    if evs == [] {
      NoChanges(c, origin);
      assert EvidenceChanges(evs) == [];
    } else {
      var n := |evs| - 1;
      var (xs, y) := (EvidenceChanges(evs[..n]), CoverageObserved(evs[n]));
      assert EvidenceChanges(evs) == xs + [y];
      EvidenceIsTaken(c, evs[..n], origin);
      match ApplyAllEvidence(c, evs[..n])
      case Raised(why) => StopsEarly(c, xs, [y], origin, why);
      case Done(mid, changed) =>
        InvariantAtEnd(c, xs, origin, Done(mid, changed));
        AppliedChange(mid, y, origin);
        assert ApplyEvidence(mid, evs[n]) == ApplyChange(mid, y, origin);
        Join(c, xs, mid, changed, [y], origin, ApplyEvidence(mid, evs[n]));
    }
  }

  lemma EntitiesAreTaken(c: Canon, chats: seq<StagedChat>, messages: seq<StagedMessage>, origin: Provenance)
    requires CanonInvariant(c)
    ensures ComesTo(c, ChatChanges(chats) + MessageChanges(messages), origin, FoldSnapshot(c, chats, messages, origin))
  {
    var (xs, ys) := (ChatChanges(chats), MessageChanges(messages));
    ChatsAreTaken(c, chats, origin);
    match FoldChats(c, chats, origin)
    case Raised(why) => StopsEarly(c, xs, ys, origin, why);
    case Done(mid, changed) =>
      InvariantAtEnd(c, xs, origin, Done(mid, changed));
      MessagesAreTaken(mid, messages, origin);
      Join(c, xs, mid, changed, ys, origin, FoldMessages(mid, messages, origin));
  }

  /** Folding the chunks is taking their records one after the other, up to the first that is refused. */
  lemma ChunksAreTaken(c: Canon, rs: seq<Records>, origin: Provenance)
    requires CanonInvariant(c)
    ensures ComesTo(c, ChangesOf(rs), origin, FoldChunks(c, rs, origin))
  {
    var (xs, ys, zs) := (ChatChanges(AllChats(rs)), MessageChanges(AllMessages(rs)), EvidenceChanges(AllEvidence(rs)));
    assert (xs + ys) + zs == ChangesOf(rs);
    EntitiesAreTaken(c, AllChats(rs), AllMessages(rs), origin);
    match FoldSnapshot(c, AllChats(rs), AllMessages(rs), origin)
    case Raised(why) => StopsEarly(c, xs + ys, zs, origin, why);
    case Done(mid, changed) =>
      InvariantAtEnd(c, xs + ys, origin, Done(mid, changed));
      EvidenceIsTaken(mid, AllEvidence(rs), origin);
      Join(c, xs + ys, mid, changed, zs, origin, ApplyAllEvidence(mid, AllEvidence(rs)));
  }

  // ----- commits -----

  /** The records an upload has received. */
  ghost function Delivery(db: Db, k: StreamId, id: SnapshotId): seq<Change>
    requires DbOk(db) && HasUpload(db, k, id)
  {
    var u := db.streams[k].uploads[id];
    assert StreamOk(db.streams[k]);
    ChangesOf(InOrder(u.chunks, u.next))
  }

  ghost function OriginOf(db: Db, k: StreamId, id: SnapshotId): Provenance
    requires HasUpload(db, k, id)
  {
    Provenance(db.streams[k].epoch, db.streams[k].uploads[id].announced.throughSeq, None)
  }

  lemma ReadyCommits(db: Db, k: StreamId, id: SnapshotId, n: nat)
    requires Ready(db, k, id, n)
    ensures var (db', reply) := Handle(db, k, Commit(id, n));
            var u := db.streams[k].uploads[id];
            var r := ApplySnapshot(db.canon, u.chats, u.messages, u.evidence, OriginOf(db, k, id));
            if r.Raised? then db' == db && reply.Failed?
            else reply.Accepted? && db'.canon == r.state && db'.revision == db.revision + (if r.changed then 1 else 0)
  {
  }

  lemma StagedIsTaken(db: Db, k: StreamId, id: SnapshotId)
    requires DbOk(db) && HasUpload(db, k, id) && db.streams[k].uploads[id].state == Staging
    ensures var u := db.streams[k].uploads[id];
            ComesTo(db.canon, Delivery(db, k, id), OriginOf(db, k, id),
                    ApplySnapshot(db.canon, u.chats, u.messages, u.evidence, OriginOf(db, k, id)))
  {
    var u := db.streams[k].uploads[id];
    assert StreamOk(db.streams[k]) && UploadOk(u);
    var rs := InOrder(u.chunks, u.next);
    ChunksAreTaken(db.canon, rs, OriginOf(db, k, id));
    StagedMeansChunks(db.canon, u, rs, OriginOf(db, k, id));
  }

  /** A ready commit is accepted exactly if its records can be taken one after the other, and then they have been, and
      the revision rises if any of them was news; otherwise one of them is refused, and nothing is kept. */
  lemma CommitTakesItsRecords(db: Db, k: StreamId, id: SnapshotId, n: nat)
    requires DbOk(db) && Ready(db, k, id, n)
    ensures var (db', reply) := Handle(db, k, Commit(id, n));
            if reply.Accepted? then
              && ComesTo(db.canon, Delivery(db, k, id), OriginOf(db, k, id), Done(db'.canon, db'.revision != db.revision))
              && (db'.revision == db.revision || db'.revision == db.revision + 1)
            else
              && reply.Failed? && db' == db
              && ComesTo(db.canon, Delivery(db, k, id), OriginOf(db, k, id), Raised(reply.why))
  {
    ReadyCommits(db, k, id, n);
    StagedIsTaken(db, k, id);
  }

  lemma AcceptedCommitWrites(db: Db, k: StreamId, id: SnapshotId, n: nat)
    requires Ready(db, k, id, n) && Handle(db, k, Commit(id, n)).1.Accepted?
    ensures var db' := Handle(db, k, Commit(id, n)).0;
            var u := db.streams[k].uploads[id];
            && SameExcept(db.streams, db'.streams, k) && k in db'.streams && db'.lastEpoch == db.lastEpoch
            && db'.streams[k].checkpoint == Some(u.announced.throughSeq) && db'.streams[k].boundary == Some(u.announced.throughSeq)
            && db'.streams[k].events == db.streams[k].events && db'.streams[k].epoch == db.streams[k].epoch
            && SameExcept(db.streams[k].uploads, db'.streams[k].uploads, id) && id in db'.streams[k].uploads
            && db'.streams[k].uploads[id].state == Committed && db'.streams[k].uploads[id].chunks == u.chunks
  {
  }
}
