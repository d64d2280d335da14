/** Every canonical commit that raises the revision names, in its work row, everything it changed. */
module ProjectionFrames {
  import opened Options
  import opened CanonicalModel
  import opened EntityMerge
  import opened CoverageModel
  import opened SnapshotMerge
  import opened CanonicalRun
  import opened ProjectionTables

  function ConversationOf(ev: Evidence): Option<ChatId> {
    match ev
    case InventoryMember(_, k) => Some(k)
    case HistoryStarted(_, k, _, _) => Some(k)
    case HeadReconciled(_, k, _) => Some(k)
    case _ => None
  }

  function ConversationOfChange(change: Change): Option<ChatId> {
    match change
    case ChatUpsert(chat) => Some(chat.id)
    case ChatDelete(id) => Some(id)
    case MessageUpsert(message) => Some(message.chat)
    case MessageDelete(_, chat) => Some(chat)
    case CoverageObserved(ev) => ConversationOf(ev)
  }

  /** The work row written in the transaction that commits `op` as revision `revision`. */
  function WorkFor(op: CanonOp, revision: nat): WorkRow {
    match op
    case Delta(change, _) =>
      WorkRow(revision, if change.CoverageObserved? then CoverageWork else EntityWork, ConversationOfChange(change), false)
    case _ => WorkRow(revision, ReseedWork, None, false)
  }

  lemma ViewKeepsInvariant(c: Canon)
    requires CanonInvariant(c)
    ensures ContentInvariant(View(c))
  {
  }

  lemma SameViewIfUnchanged(c: Canon, c': Canon)
    requires SameLiveView(c.entities, c'.entities) && c.coverage == c'.coverage
    ensures View(c) == View(c')
  {
    var (e, e') := (c.entities, c'.entities);
    forall k: ChatId
      ensures (k in View(c).chats <==> k in View(c').chats) && (k in View(c).chats ==> View(c).chats[k] == View(c').chats[k])
    {
      assert LiveChat(e, k) == LiveChat(e', k);
    }
    assert View(c).chats == View(c').chats;
    forall m: MessageId
      ensures (m in View(c).messages <==> m in View(c').messages)
      ensures m in View(c).messages ==> View(c).messages[m] == View(c').messages[m]
    {
      assert LiveMessage(e, m) == LiveMessage(e', m);
    }
    assert View(c).messages == View(c').messages;
  }

  ghost predicate SameLiveMessagesIn(e: Entities, e': Entities, k: ChatId) {
    forall m :: LiveMessage(e, m) == LiveMessage(e', m)
                || ((LiveMessage(e, m).Some? ==> LiveMessage(e, m).value.chat != k)
                    && (LiveMessage(e', m).Some? ==> LiveMessage(e', m).value.chat != k))
  }

  /** Conversation `k` looks the same to the projection before and after. */
  lemma SameEntitiesByRows(c: Canon, c': Canon, k: ChatId)
    requires CanonInvariant(c) && CanonInvariant(c')
    requires LiveChat(c.entities, k) == LiveChat(c'.entities, k)
    requires SameLiveMessagesIn(c.entities, c'.entities, k)
    ensures SameEntities(View(c), View(c'), k)
  {
    var (a, b) := (MessagesIn(View(c), k), MessagesIn(View(c'), k));
    forall m: MessageId
      ensures (m in a <==> m in b) && (m in a ==> a[m] == b[m])
    {
      assert m in a <==> LiveMessage(c.entities, m).Some? && LiveMessage(c.entities, m).value.chat == k;
      assert m in b <==> LiveMessage(c'.entities, m).Some? && LiveMessage(c'.entities, m).value.chat == k;
    }
    assert k in View(c).chats <==> LiveChat(c.entities, k).Some?;
    assert k in View(c').chats <==> LiveChat(c'.entities, k).Some?;
  }

  lemma UnnamedEntitiesUntouched(e: Entities, change: Change, origin: Provenance, k: ChatId)
    requires EntitiesInvariant(e) && !change.CoverageObserved? && ApplyEntity(e, change, origin).Done?
    requires ConversationOfChange(change) != Some(k)
    ensures LiveChat(ApplyEntity(e, change, origin).state, k) == LiveChat(e, k)
    ensures SameLiveMessagesIn(e, ApplyEntity(e, change, origin).state, k)
  {
    match change
    case ChatUpsert(chat) =>
      assert ApplyEntity(e, change, origin).state.messages == e.messages;
    case ChatDelete(id) => DeleteLeavesOthers(e, id, origin, k);
    case MessageUpsert(message) => UpsertLeavesOthers(e, message, origin, k);
    case MessageDelete(id, chat) => RemovalLeavesOthers(e, id, chat, origin, k);
  }

  lemma DeleteLeavesOthers(e: Entities, id: ChatId, origin: Provenance, k: ChatId)
    requires EntitiesInvariant(e) && DeleteChat(e, id, origin).Done? && id != k
    ensures LiveChat(DeleteChat(e, id, origin).state, k) == LiveChat(e, k)
    ensures SameLiveMessagesIn(e, DeleteChat(e, id, origin).state, k)
  {
  }

  lemma UpsertLeavesOthers(e: Entities, message: MessageRecord, origin: Provenance, k: ChatId)
    requires EntitiesInvariant(e) && MergeMessage(e, message, origin).Done? && message.chat != k
    ensures MergeMessage(e, message, origin).state.chats == e.chats
    ensures SameLiveMessagesIn(e, MergeMessage(e, message, origin).state, k)
  {
  }

  lemma RemovalLeavesOthers(e: Entities, id: MessageId, chat: ChatId, origin: Provenance, k: ChatId)
    requires EntitiesInvariant(e) && DeleteMessage(e, id, chat, origin).Done? && chat != k
    ensures DeleteMessage(e, id, chat, origin).state.chats == e.chats
    ensures SameLiveMessagesIn(e, DeleteMessage(e, id, chat, origin).state, k)
  {
  }

  lemma EntityFrame(c: Canon, change: Change, origin: Provenance, k: ChatId)
    requires CanonInvariant(c) && !change.CoverageObserved? && ApplyChange(c, change, origin).Done?
    requires ConversationOfChange(change) != Some(k)
    ensures SameEntities(View(c), View(ApplyChange(c, change, origin).state), k)
  {
    ChangeStep(c, change, origin);
    UnnamedEntitiesUntouched(c.entities, change, origin, k);
    SameEntitiesByRows(c, ApplyChange(c, change, origin).state, k);
  }

  lemma MemberOfView(c: Canon, k: ChatId)
    ensures MemberOf(View(c), k) ==
            if c.coverage.active.Some? && (c.coverage.active.value, k) in c.coverage.members
            then Some(c.coverage.members[(c.coverage.active.value, k)]) else None
  {
  }

  lemma EntityKeepsCoverage(c: Canon, change: Change, origin: Provenance, k: ChatId)
    requires CanonInvariant(c) && !change.CoverageObserved? && ApplyChange(c, change, origin).Done?
    ensures CoverageOf(View(c), k) == CoverageOf(View(ApplyChange(c, change, origin).state), k)
  {
  }

  lemma CoverageFrame(c: Canon, ev: Evidence, k: ChatId)
    requires CanonInvariant(c) && ApplyEvidence(c, ev).Done? && ApplyEvidence(c, ev).changed
    requires ConversationOf(ev).Some? && ConversationOf(ev) != Some(k)
    ensures CoverageOf(View(c), k) == CoverageOf(View(ApplyEvidence(c, ev).state), k)
  {
    MemberOfView(c, k);
    MemberOfView(ApplyEvidence(c, ev).state, k);
  }

  /** The frame lemma: what a commit's work row does not name is unchanged; a commit that reports no change
      leaves the whole projected content as it was. */
  lemma CommitIsNamed(c: Canon, op: CanonOp, revision: nat)
    requires CanonInvariant(c) && Attempt(c, op).Done?
    requires op.Delta? || op.Snapshot?
    ensures ContentInvariant(View(c)) && ContentInvariant(View(Attempt(c, op).state))
    ensures Attempt(c, op).changed ==> Names(WorkFor(op, revision), View(c), View(Attempt(c, op).state))
    ensures !Attempt(c, op).changed ==> View(Attempt(c, op).state) == View(c)
  {
    var r := Attempt(c, op);
    OpStep(c, op);
    ViewKeepsInvariant(c);
    ViewKeepsInvariant(r.state);
    if !r.changed {
      SameViewIfUnchanged(c, r.state);
    } else if op.Delta? {
      DeltaIsNamed(c, op.change, op.origin, revision);
    }
  }

  lemma DeltaIsNamed(c: Canon, change: Change, origin: Provenance, revision: nat)
    requires CanonInvariant(c) && ApplyChange(c, change, origin).Done? && ApplyChange(c, change, origin).changed
    ensures Names(WorkFor(Delta(change, origin), revision), View(c), View(ApplyChange(c, change, origin).state))
  {
    var c' := ApplyChange(c, change, origin).state;
    if change.CoverageObserved? {
      ChangeStep(c, change, origin);
      forall k ensures SameEntities(View(c), View(c'), k) {
        SameEntitiesByRows(c, c', k);
      }
      if ConversationOf(change.evidence).Some? {
        forall k | k != ConversationOf(change.evidence).value ensures CoverageOf(View(c), k) == CoverageOf(View(c'), k) {
          CoverageFrame(c, change.evidence, k);
        }
      }
    } else {
      forall k | k != ConversationOfChange(change).value
        ensures SameEntities(View(c), View(c'), k) && CoverageOf(View(c), k) == CoverageOf(View(c'), k)
      {
        EntityFrame(c, change, origin, k);
        EntityKeepsCoverage(c, change, origin, k);
      }
    }
  }
}
