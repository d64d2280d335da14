/** The canonical tables of one account as the object that is updated in place, statement by statement. */
module HistoryTables {
  import opened Options
  import opened CanonicalModel
  import opened EntityMerge
  import opened CoverageModel
  import opened SnapshotMerge
  import opened CanonicalRun

  /** What a write inside a transaction reports: whether anything changed, or why it raised. */
  datatype Written = Wrote(changed: bool) | Violated(why: Violation)

  /** The tables after a write are the specified ones; if it raised, the transaction is about to be rolled back. */
  ghost predicate Meets(expected: Outcome<Canon>, after: Canon, w: Written) {
    match expected
    case Done(state, changed) => w == Wrote(changed) && after == state
    case Raised(why) => w == Violated(why)
  }

  class CanonicalTables {
    var chats: map<ChatId, ChatRow>
    var messages: map<MessageId, MessageRow>
    var chatTombstones: map<ChatId, Tombstone>
    var messageTombstones: map<MessageId, Tombstone>
    var generations: map<GenerationId, Generation>
    var members: map<(GenerationId, ChatId), Member>
    var activeGeneration: Option<GenerationId>
    var lastComplete: Option<GenerationId>
    var coverageRevision: nat
    var settings: Settings

    function State(): Canon
      reads this
    {
      Canon(Entities(chats, messages, chatTombstones, messageTombstones),
            Coverage(generations, members, activeGeneration, lastComplete, coverageRevision), settings)
    }

    constructor ()
      ensures State() == EMPTY_ACCOUNT
    {
      chats, messages, chatTombstones, messageTombstones := map[], map[], map[], map[];
      generations, members, activeGeneration, lastComplete, coverageRevision := map[], map[], None, None, 0;
      settings := INITIAL_SETTINGS;
    }

    /** Give every table back the contents it had when the transaction began. */
    method Rollback(saved: Canon)
      modifies this
      ensures State() == saved
    {
      chats, messages := saved.entities.chats, saved.entities.messages;
      chatTombstones, messageTombstones := saved.entities.chatTombstones, saved.entities.messageTombstones;
      generations, members := saved.coverage.generations, saved.coverage.members;
      activeGeneration, lastComplete := saved.coverage.active, saved.coverage.lastComplete;
      coverageRevision := saved.coverage.revision;
      settings := saved.settings;
    }

    // ----- single entities -----

    method MergeChat(chat: ChatRecord, origin: Provenance) returns (w: Written)
      modifies this`chats
      ensures Meets(Lift(old(State()), EntityMerge.MergeChat(old(State()).entities, chat, origin)), State(), w)
    {
      if chat.id in chatTombstones { return Wrote(false); }
      var shouldWrite := chat.id !in chats;
      if chat.id in chats {
        var row := chats[chat.id];
        if row.deleted { return Wrote(false); }
        if row.record == chat { return Wrote(false); }
        if row.record.platformUser.Some? && chat.platformUser.Some? && row.record.platformUser != chat.platformUser {
          return Violated(PlatformIdentityConflict);
        }
        if row.record.full && !chat.full { return Wrote(false); }
        if !row.record.full && chat.full {
          shouldWrite := true;
        } else if chat.full {
          if chat.updatedAt.value < row.record.updatedAt.value { return Wrote(false); }
          if chat.updatedAt.value == row.record.updatedAt.value { return Violated(ChatVersionConflict); }
          shouldWrite := true;
        } else {
          return Wrote(false);
        }
      }
      if shouldWrite {
        chats := chats[chat.id := ChatRow(chat, origin, false)];
        return Wrote(true);
      }
      w := Wrote(false);
    }

    method MergeMessage(message: MessageRecord, origin: Provenance) returns (w: Written)
      modifies this`messages
      ensures Meets(Lift(old(State()), EntityMerge.MergeMessage(old(State()).entities, message, origin)), State(), w)
    {
      if message.id in messageTombstones { return Wrote(false); }
      if message.chat !in chats || chats[message.chat].deleted { return Violated(OrphanMessage); }
      if message.id in messages {
        var row := messages[message.id];
        if row.deleted || row.record == message { return Wrote(false); }
        return Violated(ImmutableMessageConflict);
      }
      messages := messages[message.id := MessageRow(message, origin, false)];
      w := Wrote(true);
    }

    method DeleteChat(id: ChatId, origin: Provenance) returns (w: Written)
      modifies this
      ensures Meets(Lift(old(State()), EntityMerge.DeleteChat(old(State()).entities, id, origin)), State(), w)
    {
      var existing := id in chatTombstones;
      if existing && chatTombstones[id].chat != id { return Violated(TombstoneConflict); }
      if !existing {
        chatTombstones := chatTombstones[id := Tombstone(id, origin)];
      }
      if id in chats {
        chats := chats[id := chats[id].(deleted := true)];
      }
      messages := map m | m in messages ::
        if messages[m].record.chat == id then messages[m].(deleted := true) else messages[m];
      w := Wrote(!existing);
    }

    method DeleteMessage(id: MessageId, chat: ChatId, origin: Provenance) returns (w: Written)
      modifies this
      ensures Meets(Lift(old(State()), EntityMerge.DeleteMessage(old(State()).entities, id, chat, origin)), State(), w)
    {
      if id in messages && messages[id].record.chat != chat { return Violated(TombstoneConflict); }
      var existing := id in messageTombstones;
      if existing && messageTombstones[id].chat != chat { return Violated(TombstoneConflict); }
      if !existing {
        messageTombstones := messageTombstones[id := Tombstone(chat, origin)];
      }
      if id in messages {
        messages := messages[id := messages[id].(deleted := true)];
      }
      w := Wrote(!existing);
    }

    /** A chat outside the members of the complete active generation ends that generation. */
    method InvalidateCompleteCoverage(conversation: ChatId) returns (invalidated: bool)
      modifies this`generations, this`coverageRevision
      ensures invalidated == Invalidates(old(State()).coverage, conversation)
      ensures State() == old(State()).(coverage := Invalidate(old(State()).coverage, conversation))
    {
      if activeGeneration.None? || activeGeneration.value !in generations { return false; }
      var g := activeGeneration.value;
      if generations[g].state != Complete { return false; }
      if (g, conversation) in members { return false; }
      generations := generations[g := generations[g].(state := Superseded)];
      coverageRevision := coverageRevision + 1;
      invalidated := true;
    }

    // ----- one delta -----

    method ApplyChange(change: Change, origin: Provenance) returns (w: Written)
      modifies this
      ensures Meets(CanonicalRun.ApplyChange(old(State()), change, origin), State(), w)
    {
      match change {
        case ChatUpsert(chat) =>
          w := MergeChat(chat, origin);
          if w == Wrote(true) {
            var _ := InvalidateCompleteCoverage(chat.id);
          }
        case ChatDelete(id) => w := DeleteChat(id, origin);
        case MessageUpsert(message) => w := MergeMessage(message, origin);
        case MessageDelete(id, chat) => w := DeleteMessage(id, chat, origin);
        case CoverageObserved(evidence) => w := ApplyCoverage(evidence);
      }
    }

    // ----- coverage evidence -----

    method ApplyCoverage(ev: Evidence) returns (w: Written)
      modifies this
      ensures Meets(ApplyEvidence(old(State()), ev), State(), w)
    {
      if ev.GenerationStarted? {
        w := ApplyStarted(ev.generation, ev.asOf, ev.authorization);
        return;
      }
      if ev.generation !in generations { return Violated(UnknownGeneration); }
      match ev {
        case InventoryMember(g, k) => w := ApplyMember(g, k);
        case InventoryEnded(g, observedAt) => w := ApplyInventoryEnded(g, observedAt);
        case HistoryStarted(g, k, earliest, observedAt) => w := ApplyHistoryStarted(g, k, earliest, observedAt);
        case HeadReconciled(g, k, through) => w := ApplyHeadReconciled(g, k, through);
        case GenerationClosed(g, closedAt) => w := ApplyClosed(g, closedAt);
      }
    }

    method ApplyStarted(g: GenerationId, asOf: Timestamp, authorization: string) returns (w: Written)
      modifies this
      ensures Meets(ApplyEvidence(old(State()), GenerationStarted(g, asOf, authorization)), State(), w)
    {
      if g in generations {
        if generations[g].authorization != authorization || generations[g].asOf != asOf { return Violated(GenerationReused); }
        return Wrote(false);
      }
      if settings.consent != Some(authorization) || settings.authorizedCreator.None?
         || settings.desired != DesiredRunning || settings.effective != EffectiveRunning
         || settings.requiredConfig.None? || settings.requiredConfig != settings.effectiveConfig
         || settings.effectiveRevision.None? || settings.revision != settings.effectiveRevision.value
      {
        return Violated(NotAuthorized);
      }
      generations := map h | h in generations ::
        if generations[h].InProgress() then generations[h].(state := Superseded) else generations[h];
      generations := generations[g := Generation(authorization, asOf, Discovering, None, None)];
      activeGeneration := Some(g);
      coverageRevision := coverageRevision + 1;
      w := Wrote(true);
    }

    method ApplyMember(g: GenerationId, k: ChatId) returns (w: Written)
      requires g in generations
      modifies this
      ensures Meets(ApplyEvidence(old(State()), InventoryMember(g, k)), State(), w)
    {
      if (g, k) in members { return Wrote(false); }
      if !generations[g].InProgress() { return Violated(GenerationNotOpen); }
      if generations[g].inventoryEnded.Some? { return Violated(InventoryFrozen); }
      if k !in chats || chats[k].deleted { return Violated(UnknownConversation); }
      members := members[(g, k) := Member(None, None, None)];
      coverageRevision := coverageRevision + 1;
      w := Wrote(true);
    }

    method ApplyInventoryEnded(g: GenerationId, observedAt: Timestamp) returns (w: Written)
      requires g in generations
      modifies this
      ensures Meets(ApplyEvidence(old(State()), InventoryEnded(g, observedAt)), State(), w)
    {
      if generations[g].inventoryEnded.Some? {
        if generations[g].inventoryEnded.value == observedAt { return Wrote(false); }
        return Violated(ConflictingEvidence);
      }
      if generations[g].state != Discovering { return Violated(GenerationNotOpen); }
      generations := generations[g := generations[g].(inventoryEnded := Some(observedAt), state := Backfilling)];
      coverageRevision := coverageRevision + 1;
      w := Wrote(true);
    }

    method ApplyHistoryStarted(g: GenerationId, k: ChatId, earliest: Option<Timestamp>, observedAt: Timestamp) returns (w: Written)
      requires g in generations
      modifies this
      ensures Meets(ApplyEvidence(old(State()), HistoryStarted(g, k, earliest, observedAt)), State(), w)
    {
      if generations[g].inventoryEnded.None? { return Violated(InventoryNotFrozen); }
      if (g, k) !in members { return Violated(NotAMember); }
      var member := members[(g, k)];
      if member.historyStarted.Some? {
        if member.historyStarted.value == observedAt && member.earliest == earliest { return Wrote(false); }
        return Violated(ConflictingEvidence);
      }
      if !generations[g].InProgress() { return Violated(GenerationNotOpen); }
      members := members[(g, k) := member.(historyStarted := Some(observedAt), earliest := earliest)];
      coverageRevision := coverageRevision + 1;
      w := Wrote(true);
    }

    method ApplyHeadReconciled(g: GenerationId, k: ChatId, through: Timestamp) returns (w: Written)
      requires g in generations
      modifies this
      ensures Meets(ApplyEvidence(old(State()), HeadReconciled(g, k, through)), State(), w)
    {
      if generations[g].inventoryEnded.None? { return Violated(InventoryNotFrozen); }
      if (g, k) !in members { return Violated(NotAMember); }
      var member := members[(g, k)];
      if member.headReconciled.Some? {
        if member.headReconciled.value == through { return Wrote(false); }
        return Violated(ConflictingEvidence);
      }
      if !generations[g].InProgress() { return Violated(GenerationNotOpen); }
      if through < generations[g].asOf { return Violated(HeadBeforeAsOf); }
      members := members[(g, k) := member.(headReconciled := Some(through))];
      coverageRevision := coverageRevision + 1;
      w := Wrote(true);
    }

    method ApplyClosed(g: GenerationId, closedAt: Timestamp) returns (w: Written)
      requires g in generations
      modifies this
      ensures Meets(ApplyEvidence(old(State()), GenerationClosed(g, closedAt)), State(), w)
    {
      if generations[g].closedAt.Some? {
        if generations[g].closedAt.value == closedAt { return Wrote(false); }
        return Violated(ConflictingEvidence);
      }
      if !generations[g].InProgress() { return Violated(GenerationNotOpen); }
      var complete := false;
      if generations[g].inventoryEnded.Some? {
        var missing := set key | key in members && key.0 == g
                                 && (members[key].historyStarted.None? || members[key].headReconciled.None?);
        complete := missing == {};
        MissingDecides(State().coverage, g, missing);
      }
      generations := generations[g := generations[g].(state := if complete then Complete else Partial, closedAt := Some(closedAt))];
      activeGeneration := Some(g);
      if complete {
        lastComplete := Some(g);
      }
      coverageRevision := coverageRevision + 1;
      w := Wrote(true);
    }

    // ----- a staged snapshot, one statement over all its records at a time -----

    /** The chat statements: two conflict checks, then tombstones, deletions, upserts and coverage. */
    method MergeStagedChatTables(staged: StagedChats, origin: Provenance) returns (w: Written)
      modifies this
      ensures Meets(MergeStagedChats(old(State()), staged, origin), State(), w)
    {
      var before := Entities(chats, messages, chatTombstones, messageTombstones);
      if exists k :: k in staged && PlatformConflict(before, staged, k) { return Violated(PlatformIdentityConflict); }
      if exists k :: k in staged && VersionConflict(before, staged, k) { return Violated(ChatVersionConflict); }
      var changed := ChangedChats(before, staged);
      var added := WriteStagedChats(staged, changed, origin);
      var invalidated := SupersedeFor(changed);
      w := Wrote(changed != {} || added || invalidated);
    }

    /** Tombstones that are new, rows marked as deleted, and the changed rows written over what is there. */
    method WriteStagedChats(staged: StagedChats, changed: set<ChatId>, origin: Provenance) returns (added: bool)
      requires changed == ChangedChats(State().entities, staged)
      modifies this`chats, this`messages, this`chatTombstones
      ensures chats == MergedChats(old(State()).entities, staged, origin)
      ensures messages == MarkMessages(old(messages), GoneChats(staged))
      ensures chatTombstones == MergedChatTombstones(old(State()).entities, staged, origin)
      ensures added == !(GoneChats(staged) <= old(chatTombstones).Keys)
    {
      ghost var before := State().entities;
      added := InsertChatTombstones(staged, origin);
      var gone := GoneChats(staged);
      MarkDeleted(gone);
      chats := map k | k in chats :: if k in gone then chats[k].(deleted := true) else chats[k];
      chats := map k | k in chats.Keys + changed ::
        if k in changed then ChatRow(staged[k].chat, origin, false) else chats[k];
      assert chats.Keys == before.chats.Keys + changed;
    }

    method MarkDeleted(gone: set<ChatId>)
      modifies this`messages
      ensures messages == MarkMessages(old(messages), gone)
    {
      messages := map m | m in messages :: if messages[m].record.chat in gone then messages[m].(deleted := true) else messages[m];
    }

    method InsertChatTombstones(staged: StagedChats, origin: Provenance) returns (added: bool)
      modifies this`chatTombstones
      ensures chatTombstones == MergedChatTombstones(old(State()).entities, staged, origin)
      ensures added == !(GoneChats(staged) <= old(chatTombstones).Keys)
    {
      var missing := GoneChats(staged) - chatTombstones.Keys;
      NothingMissing(GoneChats(staged), chatTombstones.Keys);
      assert chatTombstones.Keys + missing == chatTombstones.Keys + GoneChats(staged);
      chatTombstones := map k | k in chatTombstones.Keys + missing ::
        if k in chatTombstones then chatTombstones[k] else Tombstone(k, origin);
      added := missing != {};
    }

    /** The coverage statement: it looks for a changed chat that is no member of the complete active generation. */
    method SupersedeFor(changed: set<ChatId>) returns (invalidated: bool)
      modifies this`generations, this`coverageRevision
      ensures State() == old(State()).(coverage := InvalidateAny(old(State()).coverage, changed))
      ensures invalidated ==> changed != {}
    {
      if activeGeneration.None? || activeGeneration.value !in generations { return false; }
      var g := activeGeneration.value;
      if generations[g].state != Complete || !exists x :: x in changed && (g, x) !in members { return false; }
      ghost var x :| x in changed && (g, x) !in members;
      assert Invalidates(State().coverage, x);
      generations := generations[g := generations[g].(state := Superseded)];
      coverageRevision := coverageRevision + 1;
      invalidated := true;
    }

    /** The message statements: three conflict checks, then inserts, tombstones and deletions. */
    method MergeStagedMessageTables(staged: StagedMessages, origin: Provenance) returns (w: Written)
      modifies this
      ensures Meets(MergeStagedMessages(old(State()), staged, origin), State(), w)
    {
      var before := Entities(chats, messages, chatTombstones, messageTombstones);
      if exists m :: m in staged && TombstoneConflicts(before, staged, m) { return Violated(TombstoneConflict); }
      if exists m :: m in staged && Orphan(before, staged, m) { return Violated(OrphanMessage); }
      if exists m :: m in staged && ImmutableConflict(before, staged, m) { return Violated(ImmutableMessageConflict); }
      w := WriteStagedMessages(staged, origin);
    }

    /** Messages that are new, tombstones that are new, and rows marked as deleted. */
    method WriteStagedMessages(staged: StagedMessages, origin: Provenance) returns (w: Written)
      modifies this`messages, this`messageTombstones
      ensures messages == MergedMessages(old(State()).entities, staged, origin)
      ensures messageTombstones == MergedMessageTombstones(old(State()).entities, staged, origin)
      ensures w == var e := old(State()).entities;
                   Wrote(NewMessages(e, staged) != {} || !(GoneMessages(staged) <= e.messageTombstones.Keys))
    {
      ghost var before := State().entities;
      var inserted := InsertMessages(staged, origin);
      var added := InsertMessageTombstones(staged, origin);
      var gone := GoneMessages(staged);
      messages := map m | m in messages :: if m in gone then messages[m].(deleted := true) else messages[m];
      w := Wrote(inserted || added);
    }

    method InsertMessages(staged: StagedMessages, origin: Provenance) returns (inserted: bool)
      modifies this`messages
      ensures messages == map m | m in old(messages).Keys + NewMessages(old(State()).entities, staged) ::
                            if m in old(messages) then old(messages)[m] else MessageRow(staged[m].message, origin, false)
      ensures inserted == (NewMessages(old(State()).entities, staged) != {})
    {
      var rows := NewMessages(Entities(chats, messages, chatTombstones, messageTombstones), staged);
      messages := map m | m in messages.Keys + rows ::
        if m in messages then messages[m] else MessageRow(staged[m].message, origin, false);
      inserted := rows != {};
    }

    method InsertMessageTombstones(staged: StagedMessages, origin: Provenance) returns (added: bool)
      modifies this`messageTombstones
      ensures messageTombstones == MergedMessageTombstones(old(State()).entities, staged, origin)
      ensures added == !(GoneMessages(staged) <= old(messageTombstones).Keys)
    {
      var missing := GoneMessages(staged) - messageTombstones.Keys;
      NothingMissing(GoneMessages(staged), messageTombstones.Keys);
      assert messageTombstones.Keys + missing == messageTombstones.Keys + GoneMessages(staged);
      messageTombstones := map m | m in messageTombstones.Keys + missing ::
        if m in messageTombstones then messageTombstones[m] else Tombstone(staged[m].chat, origin);
      added := missing != {};
    }

    method MergeStagedSnapshotEntities(stagedChats: StagedChats, stagedMessages: StagedMessages, origin: Provenance)
      returns (w: Written)
      modifies this
      ensures Meets(MergeSnapshot(old(State()), stagedChats, stagedMessages, origin), State(), w)
    {
      w := MergeStagedChatTables(stagedChats, origin);
      if w.Violated? { return; }
      var changed := w.changed;
      w := MergeStagedMessageTables(stagedMessages, origin);
      if w.Wrote? {
        w := Wrote(changed || w.changed);
      }
    }

    /** A committed snapshot: its entities, then its evidence rows in order. */
    method ApplySnapshot(stagedChats: StagedChats, stagedMessages: StagedMessages, evidence: seq<Evidence>, origin: Provenance)
      returns (w: Written)
      modifies this
      ensures Meets(CanonicalRun.ApplySnapshot(old(State()), stagedChats, stagedMessages, evidence, origin), State(), w)
    {
      w := MergeStagedSnapshotEntities(stagedChats, stagedMessages, origin);
      if w.Violated? { return; }
      var changed := w.changed;
      ghost var merged := State();
      var coverageChanged := false;
      for i := 0 to |evidence|
        invariant ApplyAllEvidence(merged, evidence[..i]) == Done(State(), coverageChanged)
      {
        assert evidence[..i + 1][..i] == evidence[..i];
        w := ApplyCoverage(evidence[i]);
        if w.Violated? {
          EvidenceStaysRaised(merged, evidence, i + 1, w.why);
          return;
        }
        coverageChanged := coverageChanged || w.changed;
      }
      assert evidence[..|evidence|] == evidence;
      w := Wrote(changed || coverageChanged);
    }

    // ----- settings -----

    method UpdateSettings(expected: nat, values: SettingsValues) returns (w: Written)
      modifies this`settings
      ensures Meets(LiftSettings(old(State()), CoverageModel.UpdateSettings(old(State()).settings, expected, values)), State(), w)
    {
      if settings.revision != expected { return Violated(SettingsConflict); }
      settings := settings.(revision := settings.revision + 1, consent := values.consent,
                            authorizedCreator := values.authorizedCreator, desired := values.desired, requiredConfig := None);
      w := Wrote(true);
    }

    method BindConfig(revision: nat, config: string) returns (w: Written)
      modifies this`settings
      ensures Meets(LiftSettings(old(State()), CoverageModel.BindConfig(old(State()).settings, revision, config)), State(), w)
    {
      if settings.revision == revision && settings.requiredConfig.None? {
        settings := settings.(requiredConfig := Some(config));
        return Wrote(true);
      }
      if settings.revision != revision || settings.requiredConfig != Some(config) { return Violated(SettingsConflict); }
      w := Wrote(false);
    }

    method MarkApplied(config: string) returns (w: Written)
      modifies this`settings
      ensures Meets(LiftSettings(old(State()), CoverageModel.MarkApplied(old(State()).settings, config)), State(), w)
    {
      if settings.requiredConfig != Some(config) { return Wrote(false); }
      settings := settings.(effective := EffectiveOf(settings.desired), effectiveConfig := Some(config),
                            effectiveRevision := Some(settings.revision));
      w := Wrote(true);
    }
  }

  lemma {:induction false} EvidenceStaysRaised(c: Canon, evs: seq<Evidence>, i: nat, why: Violation)
    requires i <= |evs| && ApplyAllEvidence(c, evs[..i]) == Raised(why)
    ensures ApplyAllEvidence(c, evs) == Raised(why)
    decreases |evs|
  {
    if i < |evs| {
      assert evs[..|evs| - 1][..i] == evs[..i];
      EvidenceStaysRaised(c, evs[..|evs| - 1], i, why);
    } else {
      assert evs[..i] == evs;
    }
  }

  lemma NothingMissing(a: set<int>, b: set<int>)
    ensures a - b == {} <==> a <= b
  {
    assert forall x :: x in a && x !in b ==> x in a - b;
  }

  lemma MissingDecides(cov: Coverage, g: GenerationId, missing: set<(GenerationId, ChatId)>)
    requires missing == set key | key in cov.members && key.0 == g
                                  && (cov.members[key].historyStarted.None? || cov.members[key].headReconciled.None?)
    ensures missing == {} <==> MembersComplete(cov, g)
  {
    if missing == {} {
      forall key | key in cov.members && key.0 == g
        ensures cov.members[key].historyStarted.Some? && cov.members[key].headReconciled.Some?
      {
        assert key !in missing;
      }
    }
  }
}
