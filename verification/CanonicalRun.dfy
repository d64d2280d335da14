/** Runs of the canonical account: accepted deltas, accepted snapshots and settings changes. */
module CanonicalRun {
  import opened Options
  import opened CanonicalModel
  import opened EntityMerge
  import opened CoverageModel
  import opened SnapshotMerge

  /** One accepted delta. */
  function ApplyChange(c: Canon, change: Change, origin: Provenance): Outcome<Canon> {
    match change
    case ChatUpsert(chat) => UpsertChat(c, chat, origin)
    case CoverageObserved(ev) => ApplyEvidence(c, ev)
    case _ => Lift(c, ApplyEntity(c.entities, change, origin))
  }

  function ApplyEvidence(c: Canon, ev: Evidence): Outcome<Canon> {
    match ApplyCoverage(c.coverage, c.settings, c.entities, ev)
    case Raised(why) => Raised(why)
    case Done(cov, changed) => Done(c.(coverage := cov), changed)
  }

  function ApplyAllEvidence(c: Canon, evs: seq<Evidence>): Outcome<Canon> {
    if evs == [] then Done(c, false)
    else
      var n := |evs| - 1;
      var first := ApplyAllEvidence(c, evs[..n]);
      if first.Raised? then first else Then(first, ApplyEvidence(first.state, evs[n]))
  }

  /** One accepted snapshot: the staged entities, then the staged evidence in order. */
  function ApplySnapshot(c: Canon, chats: StagedChats, messages: StagedMessages, evs: seq<Evidence>,
                         origin: Provenance): Outcome<Canon> {
    var first := MergeSnapshot(c, chats, messages, origin);
    if first.Raised? then first else Then(first, ApplyAllEvidence(first.state, evs))
  }

  function LiftSettings(c: Canon, r: Outcome<Settings>): Outcome<Canon> {
    match r
    case Raised(why) => Raised(why)
    case Done(s, changed) => Done(c.(settings := s), changed)
  }

  datatype CanonOp =
    | Delta(change: Change, origin: Provenance)
    | Snapshot(chats: StagedChats, messages: StagedMessages, evidence: seq<Evidence>, origin: Provenance)
    | Update(expected: nat, values: SettingsValues)
    | Bind(revision: nat, config: string)
    | Applied(config: string)

  function Attempt(c: Canon, op: CanonOp): Outcome<Canon> {
    match op
    case Delta(change, origin) => ApplyChange(c, change, origin)
    case Snapshot(chats, messages, evs, origin) => ApplySnapshot(c, chats, messages, evs, origin)
    case Update(expected, values) => LiftSettings(c, UpdateSettings(c.settings, expected, values))
    case Bind(revision, config) => LiftSettings(c, BindConfig(c.settings, revision, config))
    case Applied(config) => LiftSettings(c, MarkApplied(c.settings, config))
  }

  /** An operation that raises is rolled back. */
  function Exec(c: Canon, op: CanonOp): Canon {
    var r := Attempt(c, op);
    if r.Done? then r.state else c
  }

  function ExecAll(c: Canon, ops: seq<CanonOp>): Canon {
    if ops == [] then c else Exec(ExecAll(c, ops[..|ops| - 1]), ops[|ops| - 1])
  }

  ghost predicate CanonInvariant(c: Canon) {
    EntitiesInvariant(c.entities) && CoverageInvariant(c.coverage)
  }

  // ----- what every step and every run keeps -----

  /** Chat `k` won a write between two states. */
  ghost predicate WonWrite(e: Entities, e': Entities, k: ChatId) {
    k in e'.chats && (k in e.chats ==> e.chats[k].record != e'.chats[k].record || e.chats[k].winner != e'.chats[k].winner)
  }

  predicate ActiveComplete(cov: Coverage, g: GenerationId) {
    cov.active == Some(g) && g in cov.generations && cov.generations[g].state.Complete?
  }

  /** While a complete generation stays the active one, only its members win writes. */
  ghost predicate WritesRespectCoverage(c: Canon, c': Canon) {
    forall g, k ::
      ActiveComplete(c.coverage, g) && ActiveComplete(c'.coverage, g) && WonWrite(c.entities, c'.entities, k) ==>
        (g, k) in c'.coverage.members
  }

  ghost predicate Onward(c: Canon, c': Canon) {
    && Permanent(c.entities, c'.entities)
    && CoverageOnward(c.coverage, c'.coverage)
    && WritesRespectCoverage(c, c')
  }

  lemma OnwardReflexive(c: Canon)
    requires CanonInvariant(c)
    ensures Onward(c, c)
  {
  }

  lemma PermanentTransitive(a: Entities, b: Entities, c: Entities)
    requires Permanent(a, b) && Permanent(b, c)
    ensures Permanent(a, c)
  {
  }

  lemma CoverageOnwardTransitive(a: Coverage, b: Coverage, c: Coverage)
    requires CoverageOnward(a, b) && CoverageOnward(b, c)
    ensures CoverageOnward(a, c)
  {
  }

  lemma OnwardTransitive(a: Canon, b: Canon, c: Canon)
    requires Onward(a, b) && Onward(b, c)
    ensures Onward(a, c)
  {
    PermanentTransitive(a.entities, b.entities, c.entities);
    CoverageOnwardTransitive(a.coverage, b.coverage, c.coverage);
    forall g, k | ActiveComplete(a.coverage, g) && ActiveComplete(c.coverage, g) && WonWrite(a.entities, c.entities, k)
      ensures (g, k) in c.coverage.members
    {
      assert ActiveComplete(b.coverage, g);
      assert WonWrite(a.entities, b.entities, k) || WonWrite(b.entities, c.entities, k);
    }
  }

  lemma ChangeStep(c: Canon, change: Change, origin: Provenance)
    requires CanonInvariant(c) && ApplyChange(c, change, origin).Done?
    ensures var r := ApplyChange(c, change, origin);
            && CanonInvariant(r.state) && Onward(c, r.state)
            && (!r.changed ==> SameLiveView(c.entities, r.state.entities) && r.state.coverage == c.coverage)
            && r.state.settings == c.settings
  {
    var r := ApplyChange(c, change, origin);
    match change
    case CoverageObserved(ev) =>
      CoverageStep(c.coverage, c.settings, c.entities, ev);
      OnwardReflexive(c);
    case ChatUpsert(chat) =>
      UpsertStep(c, chat, origin);
    case _ => OtherChangeStep(c, change, origin);
  }

  /** Deletions and messages never write a chat. */
  lemma NothingWon(e: Entities, change: Change, origin: Provenance, k: ChatId)
    requires ApplyEntity(e, change, origin).Done? && !change.CoverageObserved? && !change.ChatUpsert?
    ensures !WonWrite(e, ApplyEntity(e, change, origin).state, k)
  {
  }

  lemma EntitiesOnly(c: Canon, e: Entities)
    requires CanonInvariant(c) && EntitiesInvariant(e) && Permanent(c.entities, e)
    requires forall k :: !WonWrite(c.entities, e, k)
    ensures CanonInvariant(c.(entities := e)) && Onward(c, c.(entities := e))
  {
    CoverageReflexive(c.coverage);
  }

  lemma OtherChangeStep(c: Canon, change: Change, origin: Provenance)
    requires CanonInvariant(c) && ApplyChange(c, change, origin).Done? && !change.CoverageObserved? && !change.ChatUpsert?
    ensures var r := ApplyChange(c, change, origin);
            && CanonInvariant(r.state) && Onward(c, r.state)
            && (!r.changed ==> SameLiveView(c.entities, r.state.entities))
            && r.state.coverage == c.coverage && r.state.settings == c.settings
  {
    var e := ApplyEntity(c.entities, change, origin).state;
    EntityStepKeepsInvariant(c.entities, change, origin);
    forall k ensures !WonWrite(c.entities, e, k) {
      NothingWon(c.entities, change, origin, k);
    }
    EntitiesOnly(c, e);
  }

  /** Only the chat that is merged can win a write, and only if the merge reports a change. */
  lemma OnlyMergedWins(e: Entities, chat: ChatRecord, origin: Provenance, k: ChatId)
    requires MergeChat(e, chat, origin).Done? && WonWrite(e, MergeChat(e, chat, origin).state, k)
    ensures k == chat.id && MergeChat(e, chat, origin).changed
  {
  }

  lemma InvalidatedUnlessMember(cov: Coverage, k: ChatId, g: GenerationId)
    requires ActiveComplete(cov, g) && ActiveComplete(Invalidate(cov, k), g)
    ensures (g, k) in Invalidate(cov, k).members
  {
  }

  lemma UpsertStep(c: Canon, chat: ChatRecord, origin: Provenance)
    requires CanonInvariant(c) && UpsertChat(c, chat, origin).Done?
    ensures var r := UpsertChat(c, chat, origin);
            && CanonInvariant(r.state) && Onward(c, r.state)
            && (!r.changed ==> r.state == c)
            && r.state.settings == c.settings
  {
    var r := UpsertChat(c, chat, origin);
    ChatStepKeepsInvariant(c.entities, chat, origin);
    CoverageReflexive(c.coverage);
    InvalidateStep(c.coverage, chat.id);
    UpsertRespectsCoverage(c, chat, origin);
  }

  lemma UpsertRespectsCoverage(c: Canon, chat: ChatRecord, origin: Provenance)
    requires UpsertChat(c, chat, origin).Done?
    ensures WritesRespectCoverage(c, UpsertChat(c, chat, origin).state)
  {
    var c' := UpsertChat(c, chat, origin).state;
    forall g, k | ActiveComplete(c.coverage, g) && ActiveComplete(c'.coverage, g) && WonWrite(c.entities, c'.entities, k)
      ensures (g, k) in c'.coverage.members
    {
      OnlyMergedWins(c.entities, chat, origin, k);
      InvalidatedUnlessMember(c.coverage, k, g);
    }
  }

  lemma CoverageReflexive(cov: Coverage)
    ensures CoverageOnward(cov, cov)
  {
  }

  lemma EvidenceStep(c: Canon, ev: Evidence)
    requires CanonInvariant(c) && ApplyEvidence(c, ev).Done?
    ensures var r := ApplyEvidence(c, ev);
            && CanonInvariant(r.state) && Onward(c, r.state)
            && r.state.entities == c.entities && r.state.settings == c.settings
            && (!r.changed ==> r.state == c)
  {
    var o := Provenance(0, 0, None);
    assert ApplyEvidence(c, ev) == ApplyChange(c, CoverageObserved(ev), o);
    ChangeStep(c, CoverageObserved(ev), o);
    CoverageStep(c.coverage, c.settings, c.entities, ev);
  }

  lemma {:induction false} AllEvidenceStep(c: Canon, evs: seq<Evidence>)
    requires CanonInvariant(c) && ApplyAllEvidence(c, evs).Done?
    ensures var r := ApplyAllEvidence(c, evs);
            && CanonInvariant(r.state) && Onward(c, r.state)
            && r.state.entities == c.entities && r.state.settings == c.settings
            && (!r.changed ==> r.state == c)
  {
    if evs == [] {
      OnwardReflexive(c);
    } else {
      var n := |evs| - 1;
      AllEvidenceStep(c, evs[..n]);
      var first := ApplyAllEvidence(c, evs[..n]).state;
      EvidenceStep(first, evs[n]);
      OnwardTransitive(c, first, ApplyEvidence(first, evs[n]).state);
    }
  }

  function AsChange(r: StagedChat): Change {
    if r.ChatValue? then ChatUpsert(r.chat) else ChatDelete(r.id)
  }

  function MessageAsChange(r: StagedMessage): Change {
    if r.MessageValue? then MessageUpsert(r.message) else MessageDelete(r.id, r.chat)
  }

  /** The state relation every merge of staged records keeps. */
  ghost predicate MergeKeeps(c: Canon, r: Outcome<Canon>) {
    r.Done? ==>
      && CanonInvariant(r.state) && Onward(c, r.state) && r.state.settings == c.settings
      && (!r.changed ==> SameLiveView(c.entities, r.state.entities) && r.state.coverage == c.coverage)
  }

  lemma {:induction false} FoldChatsStep(c: Canon, rs: seq<StagedChat>, origin: Provenance)
    requires CanonInvariant(c)
    ensures MergeKeeps(c, FoldChats(c, rs, origin))
    decreases rs
  {
    if rs == [] {
      OnwardReflexive(c);
    } else {
      var first := ApplyStagedChat(c, rs[0], origin);
      assert first == ApplyChange(c, AsChange(rs[0]), origin);
      if first.Done? {
        ChangeStep(c, AsChange(rs[0]), origin);
        FoldChatsStep(first.state, rs[1..], origin);
        var rest := FoldChats(first.state, rs[1..], origin);
        if rest.Done? {
          OnwardTransitive(c, first.state, rest.state);
        }
      }
    }
  }

  lemma {:induction false} FoldMessagesStep(c: Canon, rs: seq<StagedMessage>, origin: Provenance)
    requires CanonInvariant(c)
    ensures MergeKeeps(c, FoldMessages(c, rs, origin))
    decreases rs
  {
    if rs == [] {
      OnwardReflexive(c);
    } else {
      var first := ApplyStagedMessage(c, rs[0], origin);
      assert first == ApplyChange(c, MessageAsChange(rs[0]), origin);
      if first.Done? {
        ChangeStep(c, MessageAsChange(rs[0]), origin);
        FoldMessagesStep(first.state, rs[1..], origin);
        var rest := FoldMessages(first.state, rs[1..], origin);
        if rest.Done? {
          OnwardTransitive(c, first.state, rest.state);
        }
      }
    }
  }

  lemma {:induction false} EnumerateChats(s: StagedChats) returns (rs: seq<StagedChat>)
    ensures EnumeratesChats(rs, s)
    decreases |s|
  {
    if s == map[] {
      rs := [];
    } else {
      var k :| k in s;
      assert |s - {k}| < |s| by { assert (s - {k}).Keys == s.Keys - {k}; assert |s.Keys| == |s|; assert |(s - {k}).Keys| == |s - {k}|; }
      rs := EnumerateChats(s - {k});
      rs := [s[k]] + rs;
    }
  }

  lemma {:induction false} EnumerateMessages(s: StagedMessages) returns (rs: seq<StagedMessage>)
    ensures EnumeratesMessages(rs, s)
    decreases |s|
  {
    if s == map[] {
      rs := [];
    } else {
      var m :| m in s;
      assert |s - {m}| < |s| by { assert (s - {m}).Keys == s.Keys - {m}; assert |s.Keys| == |s|; assert |(s - {m}).Keys| == |s - {m}|; }
      rs := EnumerateMessages(s - {m});
      rs := [s[m]] + rs;
    }
  }

  lemma MergeSnapshotStep(c: Canon, chats: StagedChats, messages: StagedMessages, origin: Provenance)
    requires CanonInvariant(c)
    ensures MergeKeeps(c, MergeSnapshot(c, chats, messages, origin))
  {
    var cs := EnumerateChats(chats);
    var ms := EnumerateMessages(messages);
    SnapshotMergeRefinesFold(c, chats, messages, cs, ms, origin);
    FoldChatsStep(c, cs, origin);
    var first := FoldChats(c, cs, origin);
    if first.Done? {
      FoldMessagesStep(first.state, ms, origin);
      var rest := FoldMessages(first.state, ms, origin);
      if rest.Done? {
        OnwardTransitive(c, first.state, rest.state);
      }
    }
  }

  lemma OpStep(c: Canon, op: CanonOp)
    requires CanonInvariant(c) && Attempt(c, op).Done?
    ensures var r := Attempt(c, op);
            && CanonInvariant(r.state) && Onward(c, r.state)
            && (!r.changed ==> SameLiveView(c.entities, r.state.entities) && r.state.coverage == c.coverage)
            && (op.Delta? || op.Snapshot? ==> r.state.settings == c.settings)
            && (!op.Delta? && !op.Snapshot? ==> r.state.entities == c.entities && r.state.coverage == c.coverage)
  {
    match op
    case Delta(change, origin) => ChangeStep(c, change, origin);
    case Snapshot(chats, messages, evs, origin) =>
      MergeSnapshotStep(c, chats, messages, origin);
      var first := MergeSnapshot(c, chats, messages, origin);
      AllEvidenceStep(first.state, evs);
      OnwardTransitive(c, first.state, ApplyAllEvidence(first.state, evs).state);
    case _ => OnwardReflexive(c);
  }

  /** Over any run: the invariant holds, deletions and closed generations are final, live messages keep
      their content, and only members of a complete active generation win writes. */
  lemma {:induction false} RunKeeps(c: Canon, ops: seq<CanonOp>)
    requires CanonInvariant(c)
    ensures CanonInvariant(ExecAll(c, ops)) && Onward(c, ExecAll(c, ops))
  {
    if ops == [] {
      OnwardReflexive(c);
    } else {
      var n := |ops| - 1;
      RunKeeps(c, ops[..n]);
      var mid := ExecAll(c, ops[..n]);
      if Attempt(mid, ops[n]).Done? {
        OpStep(mid, ops[n]);
        OnwardTransitive(c, mid, Exec(mid, ops[n]));
      }
    }
  }

  // ----- the promises, spelled out -----

  /** Live messages have live parents, tombstoned entities are gone, live content never changes. */
  lemma EntitiesOverRuns(before: seq<CanonOp>, after: seq<CanonOp>)
    ensures var e := ExecAll(EMPTY_ACCOUNT, before).entities;
            var e' := ExecAll(ExecAll(EMPTY_ACCOUNT, before), after).entities;
            && (forall m :: LiveMessage(e', m).Some? ==> LiveChat(e', LiveMessage(e', m).value.chat).Some?)
            && (forall k :: k in e.chatTombstones ==> LiveChat(e', k) == None)
            && (forall m :: m in e.messageTombstones ==> LiveMessage(e', m) == None)
            && (forall m :: LiveMessage(e, m).Some? && LiveMessage(e', m).Some? ==> LiveMessage(e, m) == LiveMessage(e', m))
            && (forall m :: m in e.messages && LiveMessage(e, m) == None ==> LiveMessage(e', m) == None)
  {
    RunKeeps(EMPTY_ACCOUNT, before);
    RunKeeps(ExecAll(EMPTY_ACCOUNT, before), after);
  }

  /** Evidence once accepted is a no-op in every later state, whatever became of its generation. */
  lemma AcceptedEvidenceStaysIdempotent(c: Canon, ev: Evidence, ops: seq<CanonOp>)
    requires CanonInvariant(c) && ApplyEvidence(c, ev).Done?
    ensures var later := ExecAll(ApplyEvidence(c, ev).state, ops);
            ApplyEvidence(later, ev) == Done(later, false)
  {
    var first := ApplyEvidence(c, ev).state;
    EvidenceStep(c, ev);
    AcceptedIsRecorded(c.coverage, c.settings, c.entities, ev);
    RunKeeps(first, ops);
    var later := ExecAll(first, ops);
    RecordedStays(first.coverage, later.coverage, ev);
    RecordedIsNoOp(later.coverage, later.settings, later.entities, ev);
  }

  /** Complete means complete, in every reachable state. */
  lemma CompleteCoverageIsComplete(ops: seq<CanonOp>)
    ensures var cov := ExecAll(EMPTY_ACCOUNT, ops).coverage;
            && (forall g :: g in cov.generations && cov.generations[g].state.Complete? ==> Sealed(cov, g))
            && (cov.lastComplete.Some? ==> Sealed(cov, cov.lastComplete.value))
            && (forall g :: g in cov.generations && cov.generations[g].InProgress() ==> cov.active == Some(g))
  {
    RunKeeps(EMPTY_ACCOUNT, ops);
  }

  /** While the active generation is complete, no chat outside its members has won a write since. */
  lemma NoOutsiderWroteSinceClose(before: seq<CanonOp>, after: seq<CanonOp>, g: GenerationId)
    requires ActiveComplete(ExecAll(EMPTY_ACCOUNT, before).coverage, g)
    ensures var c := ExecAll(EMPTY_ACCOUNT, before);
            var c' := ExecAll(c, after);
            ActiveComplete(c'.coverage, g) ==>
              forall k :: WonWrite(c.entities, c'.entities, k) ==> (g, k) in c.coverage.members
  {
    RunKeeps(EMPTY_ACCOUNT, before);
    var c := ExecAll(EMPTY_ACCOUNT, before);
    RunKeeps(c, after);
  }

  /** A generation that is closed or superseded never reopens. */
  lemma ClosedNeverReopens(before: seq<CanonOp>, after: seq<CanonOp>, g: GenerationId)
    requires var cov := ExecAll(EMPTY_ACCOUNT, before).coverage;
             g in cov.generations && !cov.generations[g].InProgress()
    ensures var cov' := ExecAll(ExecAll(EMPTY_ACCOUNT, before), after).coverage;
            g in cov'.generations && !cov'.generations[g].InProgress()
  {
    RunKeeps(EMPTY_ACCOUNT, before);
    RunKeeps(ExecAll(EMPTY_ACCOUNT, before), after);
  }
}
