/** Record-by-record merging of chats, messages and tombstones. */
module EntityMerge {
  import opened Options
  import opened CanonicalModel

  /** Last writer wins among full records, by upstream time; a placeholder never replaces anything. */
  function MergeChat(e: Entities, chat: ChatRecord, origin: Provenance): Outcome<Entities> {
    if chat.id in e.chatTombstones then Done(e, false)
    else if chat.id !in e.chats then Done(WriteChat(e, chat, origin), true)
    else
      var row := e.chats[chat.id];
      if row.deleted || row.record == chat then Done(e, false)
      else if row.record.platformUser.Some? && chat.platformUser.Some?
              && row.record.platformUser != chat.platformUser then Raised(PlatformIdentityConflict)
      else if !chat.full then Done(e, false)
      else if !row.record.full then Done(WriteChat(e, chat, origin), true)
      else if chat.updatedAt.value < row.record.updatedAt.value then Done(e, false)
      else if chat.updatedAt.value == row.record.updatedAt.value then Raised(ChatVersionConflict)
      else Done(WriteChat(e, chat, origin), true)
  }

  function WriteChat(e: Entities, chat: ChatRecord, origin: Provenance): Entities {
    e.(chats := e.chats[chat.id := ChatRow(chat, origin, false)])
  }

  /** Messages are immutable: a second version under the same identifier raises. */
  function MergeMessage(e: Entities, message: MessageRecord, origin: Provenance): Outcome<Entities> {
    if message.id in e.messageTombstones then Done(e, false)
    else if message.chat !in e.chats || e.chats[message.chat].deleted then Raised(OrphanMessage)
    else if message.id in e.messages then
      if e.messages[message.id].deleted || e.messages[message.id].record == message
      then Done(e, false)
      else Raised(ImmutableMessageConflict)
    else Done(e.(messages := e.messages[message.id := MessageRow(message, origin, false)]), true)
  }

  function DeleteChat(e: Entities, id: ChatId, origin: Provenance): Outcome<Entities> {
    if id in e.chatTombstones && e.chatTombstones[id].chat != id then Raised(TombstoneConflict)
    else
      Done(Entities(
             if id in e.chats then e.chats[id := e.chats[id].(deleted := true)] else e.chats,
             map m | m in e.messages ::
               if e.messages[m].record.chat == id then e.messages[m].(deleted := true) else e.messages[m],
             if id in e.chatTombstones then e.chatTombstones else e.chatTombstones[id := Tombstone(id, origin)],
             e.messageTombstones),
           id !in e.chatTombstones)
  }

  function DeleteMessage(e: Entities, id: MessageId, chat: ChatId, origin: Provenance): Outcome<Entities> {
    if id in e.messages && e.messages[id].record.chat != chat then Raised(TombstoneConflict)
    else if id in e.messageTombstones && e.messageTombstones[id].chat != chat then Raised(TombstoneConflict)
    else
      Done(e.(messages := if id in e.messages then e.messages[id := e.messages[id].(deleted := true)]
                          else e.messages,
              messageTombstones := if id in e.messageTombstones then e.messageTombstones
                                   else e.messageTombstones[id := Tombstone(chat, origin)]),
           id !in e.messageTombstones)
  }

  /** The entity part of one delta. */
  function ApplyEntity(e: Entities, change: Change, origin: Provenance): Outcome<Entities> {
    match change
    case ChatUpsert(chat) => MergeChat(e, chat, origin)
    case ChatDelete(id) => DeleteChat(e, id, origin)
    case MessageUpsert(message) => MergeMessage(e, message, origin)
    case MessageDelete(id, chat) => DeleteMessage(e, id, chat, origin)
    case CoverageObserved(_) => Done(e, false)
  }

  // ----- what a reader can see -----

  function LiveChat(e: Entities, k: ChatId): Option<ChatRecord> {
    if k in e.chats && !e.chats[k].deleted then Some(e.chats[k].record) else None
  }

  function LiveMessage(e: Entities, m: MessageId): Option<MessageRecord> {
    if m in e.messages && !e.messages[m].deleted then Some(e.messages[m].record) else None
  }

  ghost predicate SameLiveView(a: Entities, b: Entities) {
    && (forall k :: LiveChat(a, k) == LiveChat(b, k))
    && (forall m :: LiveMessage(a, m) == LiveMessage(b, m))
  }

  // ----- invariant of the canonical tables -----

  ghost predicate EntitiesInvariant(e: Entities) {
    && (forall k :: k in e.chats ==>
          e.chats[k].record.id == k && (e.chats[k].deleted <==> k in e.chatTombstones))
    && (forall k :: k in e.chatTombstones ==> e.chatTombstones[k].chat == k)
    && (forall m :: m in e.messages ==>
          && e.messages[m].record.id == m
          && e.messages[m].record.chat in e.chats
          && (e.chats[e.messages[m].record.chat].deleted ==> e.messages[m].deleted)
          && (m in e.messageTombstones ==> e.messages[m].deleted))
  }

  /** What no step may undo: deletion is permanent and a live message keeps its content. */
  ghost predicate Permanent(e: Entities, e': Entities) {
    && e.chatTombstones.Keys <= e'.chatTombstones.Keys
    && e.messageTombstones.Keys <= e'.messageTombstones.Keys
    && e.chats.Keys <= e'.chats.Keys
    && (forall m :: m in e.messages ==> m in e'.messages && e'.messages[m].record == e.messages[m].record)
    && (forall k :: k in e.chatTombstones ==> LiveChat(e', k) == None)
    && (forall m :: m in e.messages && e.messages[m].deleted ==> e'.messages[m].deleted)
    && (forall m :: m in e.messageTombstones ==> LiveMessage(e', m) == None)
  }

  /** A merge leaves everything alone, or writes the record of a chat that is neither entombed nor deleted. */
  lemma MergeChatWrites(e: Entities, chat: ChatRecord, origin: Provenance)
    requires MergeChat(e, chat, origin).Done?
    ensures var r := MergeChat(e, chat, origin);
            if r.changed then
              && r.state == WriteChat(e, chat, origin) && chat.id !in e.chatTombstones
              && (chat.id in e.chats ==> !e.chats[chat.id].deleted)
            else r.state == e
  {
  }

  lemma WriteKeepsInvariant(e: Entities, chat: ChatRecord, origin: Provenance)
    requires EntitiesInvariant(e) && chat.id !in e.chatTombstones && (chat.id in e.chats ==> !e.chats[chat.id].deleted)
    ensures EntitiesInvariant(WriteChat(e, chat, origin))
  {
  }

  lemma TombstonesHide(e: Entities)
    requires EntitiesInvariant(e)
    ensures forall k :: k in e.chatTombstones ==> LiveChat(e, k) == None
    ensures forall m :: m in e.messageTombstones ==> LiveMessage(e, m) == None
  {
  }

  lemma ChatStepKeepsInvariant(e: Entities, chat: ChatRecord, origin: Provenance)
    requires EntitiesInvariant(e) && MergeChat(e, chat, origin).Done?
    ensures var r := MergeChat(e, chat, origin);
            EntitiesInvariant(r.state) && Permanent(e, r.state) && (!r.changed ==> r.state == e)
  {
    MergeChatWrites(e, chat, origin);
    TombstonesHide(e);
    if MergeChat(e, chat, origin).changed {
      WriteKeepsInvariant(e, chat, origin);
    }
  }

  lemma MessageStepKeepsInvariant(e: Entities, message: MessageRecord, origin: Provenance)
    requires EntitiesInvariant(e) && MergeMessage(e, message, origin).Done?
    ensures var r := MergeMessage(e, message, origin);
            EntitiesInvariant(r.state) && Permanent(e, r.state) && (!r.changed ==> r.state == e)
  {
  }

  lemma DeleteChatKeepsRows(e: Entities, id: ChatId, origin: Provenance)
    requires EntitiesInvariant(e) && DeleteChat(e, id, origin).Done?
    ensures EntitiesInvariant(DeleteChat(e, id, origin).state)
  {
  }

  lemma DeletedTwice(e: Entities, id: ChatId, origin: Provenance)
    requires EntitiesInvariant(e) && DeleteChat(e, id, origin).Done? && !DeleteChat(e, id, origin).changed
    ensures SameLiveView(e, DeleteChat(e, id, origin).state)
  {
    assert id in e.chats ==> e.chats[id].deleted;
  }

  lemma DeleteChatKeepsInvariant(e: Entities, id: ChatId, origin: Provenance)
    requires EntitiesInvariant(e) && DeleteChat(e, id, origin).Done?
    ensures var r := DeleteChat(e, id, origin);
            EntitiesInvariant(r.state) && Permanent(e, r.state) && (!r.changed ==> SameLiveView(e, r.state))
  {
    DeleteChatKeepsRows(e, id, origin);
    TombstonesHide(DeleteChat(e, id, origin).state);
    if !DeleteChat(e, id, origin).changed {
      DeletedTwice(e, id, origin);
    }
  }

  lemma DeleteMessageKeepsInvariant(e: Entities, id: MessageId, chat: ChatId, origin: Provenance)
    requires EntitiesInvariant(e) && DeleteMessage(e, id, chat, origin).Done?
    ensures var r := DeleteMessage(e, id, chat, origin);
            EntitiesInvariant(r.state) && Permanent(e, r.state) && (!r.changed ==> SameLiveView(e, r.state))
  {
  }

  lemma EntityStepKeepsInvariant(e: Entities, change: Change, origin: Provenance)
    requires EntitiesInvariant(e)
    requires ApplyEntity(e, change, origin).Done?
    ensures EntitiesInvariant(ApplyEntity(e, change, origin).state)
    ensures Permanent(e, ApplyEntity(e, change, origin).state)
    ensures !ApplyEntity(e, change, origin).changed ==> SameLiveView(e, ApplyEntity(e, change, origin).state)
  {
    match change
    case ChatUpsert(chat) => ChatStepKeepsInvariant(e, chat, origin);
    case ChatDelete(id) => DeleteChatKeepsInvariant(e, id, origin);
    case MessageUpsert(message) => MessageStepKeepsInvariant(e, message, origin);
    case MessageDelete(id, chat) => DeleteMessageKeepsInvariant(e, id, chat, origin);
    case CoverageObserved(_) =>
  }
}
