/** What merging one record leaves behind, row by row, and which records are refused. */
module EntityOutcomes {
  import opened Options
  import opened Sequences
  import opened CanonicalModel
  import opened EntityMerge
  import opened CoverageModel
  import opened SnapshotMerge
  import opened CanonicalRun

  // ----- messages -----

  /** A message is refused if its chat is not live, or if another live message has its identifier;
      a tombstone for it settles the matter before either is looked at. */
  predicate RefusesMessage(e: Entities, m: MessageRecord) {
    && m.id !in e.messageTombstones
    && (LiveChat(e, m.chat).None? || (LiveMessage(e, m.id).Some? && LiveMessage(e, m.id).value != m))
  }

  predicate NewMessage(e: Entities, m: MessageRecord) {
    m.id !in e.messageTombstones && m.id !in e.messages
  }

  /** The message was removed before it came. */
  predicate RemovedBefore(e: Entities, id: MessageId) {
    id in e.messageTombstones || (id in e.messages && e.messages[id].deleted)
  }

  ghost predicate MessageTaken(e: Entities, e': Entities, m: MessageRecord, origin: Provenance) {
    && e'.chats == e.chats && e'.chatTombstones == e.chatTombstones && e'.messageTombstones == e.messageTombstones
    && SameExcept(e.messages, e'.messages, m.id)
    && LiveMessage(e', m.id) == (if RemovedBefore(e, m.id) then None else Some(m))
    && (if NewMessage(e, m) then m.id in e'.messages && e'.messages[m.id].winner == origin else e' == e)
  }

  lemma MessageOutcome(e: Entities, m: MessageRecord, origin: Provenance)
    requires EntitiesInvariant(e)
    ensures var r := MergeMessage(e, m, origin);
            && (r.Raised? <==> RefusesMessage(e, m))
            && (r == Raised(OrphanMessage) <==> m.id !in e.messageTombstones && LiveChat(e, m.chat).None?)
            && (r.Raised? ==> r.why == OrphanMessage || r.why == ImmutableMessageConflict)
            && (r.Done? ==> MessageTaken(e, r.state, m, origin) && (r.changed <==> NewMessage(e, m)))
  {
  }

  // ----- removing a message -----

  /** A removal is refused if the message, or an earlier removal of it, names another chat. */
  predicate RefusesRemoval(e: Entities, id: MessageId, chat: ChatId) {
    || (id in e.messages && e.messages[id].record.chat != chat)
    || (id in e.messageTombstones && e.messageTombstones[id].chat != chat)
  }

  ghost predicate MessageRemoved(e: Entities, e': Entities, id: MessageId, chat: ChatId, origin: Provenance) {
    && e'.chats == e.chats && e'.chatTombstones == e.chatTombstones
    && SameExcept(e.messages, e'.messages, id) && SameExcept(e.messageTombstones, e'.messageTombstones, id)
    && LiveMessage(e', id).None?
    && (id in e'.messages <==> id in e.messages)
    && (id in e.messages ==> e'.messages[id].record == e.messages[id].record)
    && id in e'.messageTombstones && e'.messageTombstones[id].chat == chat
    && e'.messageTombstones[id].origin == (if id in e.messageTombstones then e.messageTombstones[id].origin else origin)
  }

  lemma RemovalOutcome(e: Entities, id: MessageId, chat: ChatId, origin: Provenance)
    ensures var r := DeleteMessage(e, id, chat, origin);
            && (r.Raised? <==> RefusesRemoval(e, id, chat)) && (r.Raised? ==> r.why == TombstoneConflict)
            && (r.Done? ==> MessageRemoved(e, r.state, id, chat, origin) && (r.changed <==> id !in e.messageTombstones))
  {
  }

  // ----- chats -----

  predicate OtherPlatformUser(a: ChatRecord, b: ChatRecord) {
    a.platformUser.Some? && b.platformUser.Some? && a.platformUser != b.platformUser
  }

  predicate SameVersion(a: ChatRecord, b: ChatRecord) { a.full && b.full && a.updatedAt == b.updatedAt }

  /** A live chat refuses a different record with another platform user, or of the very same time. */
  predicate RefusesChat(e: Entities, chat: ChatRecord) {
    && LiveChat(e, chat.id).Some? && LiveChat(e, chat.id).value != chat
    && var stored := LiveChat(e, chat.id).value; OtherPlatformUser(stored, chat) || SameVersion(stored, chat)
  }

  /** A full record beats a placeholder and every earlier full record. */
  predicate Beats(a: ChatRecord, b: ChatRecord) {
    a.full && (!b.full || a.updatedAt.value > b.updatedAt.value)
  }

  /** The delivered record becomes the stored one. */
  predicate ChatWins(e: Entities, chat: ChatRecord) {
    && chat.id !in e.chatTombstones
    && (chat.id in e.chats ==> LiveChat(e, chat.id).Some? && Beats(chat, LiveChat(e, chat.id).value))
  }

  ghost predicate ChatTaken(e: Entities, e': Entities, chat: ChatRecord, origin: Provenance) {
    && e'.messages == e.messages && e'.chatTombstones == e.chatTombstones && e'.messageTombstones == e.messageTombstones
    && SameExcept(e.chats, e'.chats, chat.id)
    && (if ChatWins(e, chat) then
          chat.id in e'.chats && e'.chats[chat.id].winner == origin && LiveChat(e', chat.id) == Some(chat)
        else e' == e)
    && (if chat.id in e.chatTombstones then LiveChat(e', chat.id).None?
        else LiveChat(e', chat.id).Some? && !Beats(chat, LiveChat(e', chat.id).value))
  }

  lemma ChatOutcome(e: Entities, chat: ChatRecord, origin: Provenance)
    requires EntitiesInvariant(e)
    ensures var r := MergeChat(e, chat, origin);
            && (r.Raised? <==> RefusesChat(e, chat))
            && (r.Raised? ==> r.why == if OtherPlatformUser(LiveChat(e, chat.id).value, chat) then PlatformIdentityConflict
                                       else ChatVersionConflict)
            && (r.Done? ==> ChatTaken(e, r.state, chat, origin) && (r.changed <==> ChatWins(e, chat)))
  {
  }

  // ----- deleting a chat -----

  ghost predicate ChatDeleted(e: Entities, e': Entities, id: ChatId, origin: Provenance) {
    && e'.messageTombstones == e.messageTombstones
    && SameExcept(e.chats, e'.chats, id) && SameExcept(e.chatTombstones, e'.chatTombstones, id)
    && LiveChat(e', id).None? && (id in e'.chats <==> id in e.chats)
    && (id in e.chats ==> e'.chats[id].record == e.chats[id].record)
    && id in e'.chatTombstones && e'.chatTombstones[id].chat == id
    && e'.chatTombstones[id].origin == (if id in e.chatTombstones then e.chatTombstones[id].origin else origin)
    && e'.messages.Keys == e.messages.Keys
    && (forall m :: m in e.messages ==>
          if e.messages[m].record.chat == id then LiveMessage(e', m).None? && e'.messages[m].record == e.messages[m].record
          else e'.messages[m] == e.messages[m])
  }

  lemma ChatDeletionOutcome(e: Entities, id: ChatId, origin: Provenance)
    requires EntitiesInvariant(e)
    ensures var r := DeleteChat(e, id, origin);
            r.Done? && ChatDeleted(e, r.state, id, origin) && (r.changed <==> id !in e.chatTombstones)
  {
  }

  // ----- the coverage generation that a chat outside of it ends -----

  predicate OutsideComplete(cov: Coverage, k: ChatId) {
    && cov.active.Some? && cov.active.value in cov.generations
    && cov.generations[cov.active.value].state == Complete && (cov.active.value, k) !in cov.members
  }

  /** The active complete generation is superseded; nothing else about coverage changes. */
  ghost predicate CoverageEnded(cov: Coverage, cov': Coverage)
    requires cov.active.Some? && cov.active.value in cov.generations
  {
    var g := cov.active.value;
    && cov'.revision == cov.revision + 1 && cov'.active == cov.active && cov'.lastComplete == cov.lastComplete
    && cov'.members == cov.members && SameExcept(cov.generations, cov'.generations, g)
    && g in cov'.generations && cov'.generations[g].state == Superseded
    && cov'.generations[g].authorization == cov.generations[g].authorization
    && cov'.generations[g].asOf == cov.generations[g].asOf
    && cov'.generations[g].inventoryEnded == cov.generations[g].inventoryEnded
    && cov'.generations[g].closedAt == cov.generations[g].closedAt
  }

  lemma UpsertCoverageOutcome(c: Canon, chat: ChatRecord, origin: Provenance)
    requires CanonInvariant(c) && UpsertChat(c, chat, origin).Done?
    ensures var c' := UpsertChat(c, chat, origin).state;
            && c'.settings == c.settings
            && if ChatWins(c.entities, chat) && OutsideComplete(c.coverage, chat.id)
               then CoverageEnded(c.coverage, c'.coverage)
               else c'.coverage == c.coverage
  {
    ChatOutcome(c.entities, chat, origin);
  }
}
