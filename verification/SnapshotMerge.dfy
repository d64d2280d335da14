/** Merging a staged snapshot with set-based statements means the same as merging it record by record. */
module SnapshotMerge {
  import opened Options
  import opened CanonicalModel
  import opened EntityMerge
  import opened CoverageModel

  datatype StagedChat = ChatValue(chat: ChatRecord) | ChatGone(id: ChatId)
  {
    function Key(): ChatId { if ChatValue? then chat.id else id }
  }

  datatype StagedMessage = MessageValue(message: MessageRecord) | MessageGone(id: MessageId, chat: ChatId)
  {
    function Key(): MessageId { if MessageValue? then message.id else id }
  }

  type StagedChats = s: map<ChatId, StagedChat> | forall k :: k in s ==> s[k].Key() == k witness map[]
  type StagedMessages = s: map<MessageId, StagedMessage> | forall k :: k in s ==> s[k].Key() == k witness map[]

  // ----- record by record -----

  /** A chat that wins a write may end the active complete coverage generation. */
  function UpsertChat(c: Canon, chat: ChatRecord, origin: Provenance): Outcome<Canon> {
    match MergeChat(c.entities, chat, origin)
    case Raised(why) => Raised(why)
    case Done(e, changed) =>
      Done(c.(entities := e, coverage := if changed then Invalidate(c.coverage, chat.id) else c.coverage), changed)
  }

  function Lift(c: Canon, r: Outcome<Entities>): Outcome<Canon> {
    match r
    case Raised(why) => Raised(why)
    case Done(e, changed) => Done(c.(entities := e), changed)
  }

  function ApplyStagedChat(c: Canon, r: StagedChat, origin: Provenance): Outcome<Canon> {
    match r
    case ChatValue(chat) => UpsertChat(c, chat, origin)
    case ChatGone(id) => Lift(c, DeleteChat(c.entities, id, origin))
  }

  function ApplyStagedMessage(c: Canon, r: StagedMessage, origin: Provenance): Outcome<Canon> {
    match r
    case MessageValue(message) => Lift(c, MergeMessage(c.entities, message, origin))
    case MessageGone(id, chat) => Lift(c, DeleteMessage(c.entities, id, chat, origin))
  }

  /** `first` and then `rest`, or-ing the changed flags. */
  function Then(first: Outcome<Canon>, rest: Outcome<Canon>): Outcome<Canon> {
    match (first, rest)
    case (Raised(why), _) => Raised(why)
    case (_, Raised(why)) => Raised(why)
    case (Done(_, changed1), Done(c, changed2)) => Done(c, changed1 || changed2)
  }

  function FoldChats(c: Canon, rs: seq<StagedChat>, origin: Provenance): Outcome<Canon>
    decreases rs
  {
    if rs == [] then Done(c, false)
    else
      var first := ApplyStagedChat(c, rs[0], origin);
      if first.Raised? then first else Then(first, FoldChats(first.state, rs[1..], origin))
  }

  function FoldMessages(c: Canon, rs: seq<StagedMessage>, origin: Provenance): Outcome<Canon>
    decreases rs
  {
    if rs == [] then Done(c, false)
    else
      var first := ApplyStagedMessage(c, rs[0], origin);
      if first.Raised? then first else Then(first, FoldMessages(first.state, rs[1..], origin))
  }

  /** Chats first, then messages. */
  function FoldSnapshot(c: Canon, chats: seq<StagedChat>, messages: seq<StagedMessage>,
                        origin: Provenance): Outcome<Canon> {
    var first := FoldChats(c, chats, origin);
    if first.Raised? then first else Then(first, FoldMessages(first.state, messages, origin))
  }

  // ----- set-based -----

  predicate PlatformConflict(e: Entities, s: StagedChats, k: ChatId) {
    && k in s && s[k].ChatValue? && k in e.chats && !e.chats[k].deleted
    && e.chats[k].record.platformUser.Some? && s[k].chat.platformUser.Some?
    && e.chats[k].record.platformUser != s[k].chat.platformUser
  }

  predicate VersionConflict(e: Entities, s: StagedChats, k: ChatId) {
    && k in s && s[k].ChatValue? && k in e.chats && !e.chats[k].deleted
    && e.chats[k].record.full && s[k].chat.full
    && e.chats[k].record.updatedAt == s[k].chat.updatedAt
    && e.chats[k].record != s[k].chat
  }

  /** Membership of the temporary table of changed chats. */
  predicate Changed(e: Entities, s: StagedChats, k: ChatId) {
    && k in s && s[k].ChatValue? && k !in e.chatTombstones
    && (k in e.chats ==>
          && !e.chats[k].deleted && e.chats[k].record != s[k].chat && s[k].chat.full
          && (e.chats[k].record.full ==> s[k].chat.updatedAt.value > e.chats[k].record.updatedAt.value))
  }

  function ChangedChats(e: Entities, s: StagedChats): set<ChatId> {
    set k | k in s && Changed(e, s, k)
  }

  function GoneChats(s: StagedChats): set<ChatId> {
    set k | k in s && s[k].ChatGone?
  }

  predicate InvalidatesAny(cov: Coverage, ks: set<ChatId>) {
    exists k :: k in ks && Invalidates(cov, k)
  }

  function InvalidateAny(cov: Coverage, ks: set<ChatId>): Coverage {
    if InvalidatesAny(cov, ks) then
      assert cov.active.Some?;
      Bump(SetGeneration(cov, cov.active.value, cov.generations[cov.active.value].(state := Superseded)))
    else cov
  }

  function MergedChats(e: Entities, s: StagedChats, origin: Provenance): map<ChatId, ChatRow> {
    map k | k in e.chats.Keys + ChangedChats(e, s) ::
      if Changed(e, s, k) then ChatRow(s[k].chat, origin, false)
      else if k in GoneChats(s) then e.chats[k].(deleted := true)
      else e.chats[k]
  }

  function MarkMessages(messages: map<MessageId, MessageRow>, gone: set<ChatId>): map<MessageId, MessageRow> {
    map m | m in messages ::
      if messages[m].record.chat in gone then messages[m].(deleted := true) else messages[m]
  }

  function MergedChatTombstones(e: Entities, s: StagedChats, origin: Provenance): map<ChatId, Tombstone> {
    map k | k in e.chatTombstones.Keys + GoneChats(s) ::
      if k in e.chatTombstones then e.chatTombstones[k] else Tombstone(k, origin)
  }

  function MergeStagedChats(c: Canon, s: StagedChats, origin: Provenance): Outcome<Canon> {
    var e := c.entities;
    if exists k :: k in s && PlatformConflict(e, s, k) then Raised(PlatformIdentityConflict)
    else if exists k :: k in s && VersionConflict(e, s, k) then Raised(ChatVersionConflict)
    else
      Done(c.(entities := Entities(MergedChats(e, s, origin), MarkMessages(e.messages, GoneChats(s)),
                                   MergedChatTombstones(e, s, origin), e.messageTombstones),
              coverage := InvalidateAny(c.coverage, ChangedChats(e, s))),
           ChangedChats(e, s) != {} || !(GoneChats(s) <= e.chatTombstones.Keys))
  }

  predicate TombstoneConflicts(e: Entities, s: StagedMessages, m: MessageId) {
    && m in s && s[m].MessageGone?
    && ((m in e.messages && e.messages[m].record.chat != s[m].chat)
        || (m in e.messageTombstones && e.messageTombstones[m].chat != s[m].chat))
  }

  predicate Orphan(e: Entities, s: StagedMessages, m: MessageId) {
    && m in s && s[m].MessageValue? && m !in e.messageTombstones
    && (s[m].message.chat !in e.chats || e.chats[s[m].message.chat].deleted)
  }

  predicate ImmutableConflict(e: Entities, s: StagedMessages, m: MessageId) {
    && m in s && s[m].MessageValue? && m !in e.messageTombstones
    && m in e.messages && !e.messages[m].deleted && e.messages[m].record != s[m].message
  }

  function NewMessages(e: Entities, s: StagedMessages): set<MessageId> {
    set m | m in s && s[m].MessageValue? && m !in e.messages && m !in e.messageTombstones
  }

  function GoneMessages(s: StagedMessages): set<MessageId> {
    set m | m in s && s[m].MessageGone?
  }

  function MergedMessages(e: Entities, s: StagedMessages, origin: Provenance): map<MessageId, MessageRow> {
    map m | m in e.messages.Keys + NewMessages(e, s) ::
      if m in NewMessages(e, s) then MessageRow(s[m].message, origin, false)
      else if m in GoneMessages(s) then e.messages[m].(deleted := true)
      else e.messages[m]
  }

  function MergedMessageTombstones(e: Entities, s: StagedMessages, origin: Provenance): map<MessageId, Tombstone> {
    map m | m in e.messageTombstones.Keys + GoneMessages(s) ::
      if m in e.messageTombstones then e.messageTombstones[m] else Tombstone(s[m].chat, origin)
  }

  function MergeStagedMessages(c: Canon, s: StagedMessages, origin: Provenance): Outcome<Canon> {
    var e := c.entities;
    if exists m :: m in s && TombstoneConflicts(e, s, m) then Raised(TombstoneConflict)
    else if exists m :: m in s && Orphan(e, s, m) then Raised(OrphanMessage)
    else if exists m :: m in s && ImmutableConflict(e, s, m) then Raised(ImmutableMessageConflict)
    else
      Done(c.(entities := e.(messages := MergedMessages(e, s, origin),
                             messageTombstones := MergedMessageTombstones(e, s, origin))),
           NewMessages(e, s) != {} || !(GoneMessages(s) <= e.messageTombstones.Keys))
  }

  function MergeSnapshot(c: Canon, chats: StagedChats, messages: StagedMessages,
                         origin: Provenance): Outcome<Canon> {
    var first := MergeStagedChats(c, chats, origin);
    if first.Raised? then first else Then(first, MergeStagedMessages(first.state, messages, origin))
  }

  // ----- the refinement -----

  /** Both raise, or both end in the same state with the same flag. */
  ghost predicate Agree(a: Outcome<Canon>, b: Outcome<Canon>) {
    (a.Raised? <==> b.Raised?) && (a.Done? ==> a == b)
  }

  ghost predicate EnumeratesChats(rs: seq<StagedChat>, s: StagedChats) {
    && (forall i :: 0 <= i < |rs| ==> rs[i].Key() in s && s[rs[i].Key()] == rs[i])
    && (forall i, j :: 0 <= i < j < |rs| ==> rs[i].Key() != rs[j].Key())
    && (forall k :: k in s ==> s[k] in rs)
  }

  ghost predicate EnumeratesMessages(rs: seq<StagedMessage>, s: StagedMessages) {
    && (forall i :: 0 <= i < |rs| ==> rs[i].Key() in s && s[rs[i].Key()] == rs[i])
    && (forall i, j :: 0 <= i < j < |rs| ==> rs[i].Key() != rs[j].Key())
    && (forall k :: k in s ==> s[k] in rs)
  }

  lemma InvalidateOneThenRest(cov: Coverage, k: ChatId, rest: set<ChatId>)
    requires k !in rest
    ensures InvalidateAny(cov, {k} + rest) == InvalidateAny(Invalidate(cov, k), rest)
  {
  }

  lemma OneChatRaises(c: Canon, s: StagedChats, k: ChatId, origin: Provenance)
    requires EntitiesInvariant(c.entities) && k in s
    ensures ApplyStagedChat(c, s[k], origin).Raised? <==>
            PlatformConflict(c.entities, s, k) || VersionConflict(c.entities, s, k)
    ensures !ApplyStagedChat(c, s[k], origin).Raised? ==>
            (Changed(c.entities, s, k) <==> s[k].ChatValue? && ApplyStagedChat(c, s[k], origin).changed)
  {
  }

  /** Applying the record of one chat leaves the verdict on every other staged chat alone. */
  lemma OneChatFrame(c: Canon, s: StagedChats, k: ChatId, origin: Provenance)
    requires EntitiesInvariant(c.entities) && k in s && ApplyStagedChat(c, s[k], origin).Done?
    ensures var (e, e1) := (c.entities, ApplyStagedChat(c, s[k], origin).state.entities);
            && (forall j :: j in s - {k} ==>
                  && (PlatformConflict(e1, s - {k}, j) <==> PlatformConflict(e, s, j))
                  && (VersionConflict(e1, s - {k}, j) <==> VersionConflict(e, s, j))
                  && (Changed(e1, s - {k}, j) <==> Changed(e, s, j)))
  {
  }

  lemma OneChatSets(c: Canon, s: StagedChats, k: ChatId, origin: Provenance)
    requires EntitiesInvariant(c.entities) && k in s && ApplyStagedChat(c, s[k], origin).Done?
    ensures var (e, e1) := (c.entities, ApplyStagedChat(c, s[k], origin).state.entities);
            && GoneChats(s) == (if s[k].ChatGone? then {k} else {}) + GoneChats(s - {k})
            && ChangedChats(e, s) == (if Changed(e, s, k) then {k} else {}) + ChangedChats(e1, s - {k})
            && k !in GoneChats(s - {k}) && k !in ChangedChats(e1, s - {k})
            && (forall j :: j in s - {k} ==> (Changed(e1, s - {k}, j) <==> Changed(e, s, j)))
  {
  }

  lemma OneChatRow(c: Canon, s: StagedChats, k: ChatId, origin: Provenance, j: ChatId)
    requires EntitiesInvariant(c.entities) && k in s && ApplyStagedChat(c, s[k], origin).Done?
    ensures var (a, b) := (MergedChats(c.entities, s, origin),
                           MergedChats(ApplyStagedChat(c, s[k], origin).state.entities, s - {k}, origin));
            (j in a <==> j in b) && (j in a ==> a[j] == b[j])
  {
    OneChatRaises(c, s, k, origin);
    var e, e1 := c.entities, ApplyStagedChat(c, s[k], origin).state.entities;
    if j != k {
      assert (j in e1.chats <==> j in e.chats) && (j in e.chats ==> e1.chats[j] == e.chats[j]);
      assert Changed(e1, s - {k}, j) <==> Changed(e, s, j);
    } else {
      assert !Changed(e1, s - {k}, k) && k !in GoneChats(s - {k});
    }
  }

  lemma OneChatRows(c: Canon, s: StagedChats, k: ChatId, origin: Provenance)
    requires EntitiesInvariant(c.entities) && k in s && ApplyStagedChat(c, s[k], origin).Done?
    ensures MergedChats(c.entities, s, origin)
            == MergedChats(ApplyStagedChat(c, s[k], origin).state.entities, s - {k}, origin)
  {
    var a := MergedChats(c.entities, s, origin);
    var b := MergedChats(ApplyStagedChat(c, s[k], origin).state.entities, s - {k}, origin);
    forall j
      ensures (j in a <==> j in b) && (j in a ==> a[j] == b[j])
    {
      OneChatRow(c, s, k, origin, j);
    }
  }

  lemma UpsertLeavesMessages(e: Entities, chat: ChatRecord, origin: Provenance)
    requires MergeChat(e, chat, origin).Done?
    ensures MergeChat(e, chat, origin).state.messages == e.messages
    ensures MergeChat(e, chat, origin).state.messageTombstones == e.messageTombstones
  {
  }

  lemma DeleteMarks(e: Entities, id: ChatId, origin: Provenance)
    requires DeleteChat(e, id, origin).Done?
    ensures DeleteChat(e, id, origin).state.messages == MarkMessages(e.messages, {id})
    ensures DeleteChat(e, id, origin).state.messageTombstones == e.messageTombstones
  {
  }

  lemma GoneExcept(s: StagedChats, k: ChatId)
    requires k in s
    ensures GoneChats(s) == GoneChats(s - {k}) + if s[k].ChatGone? then {k} else {}
  {
  }

  lemma OneChatMarks(c: Canon, s: StagedChats, k: ChatId, origin: Provenance)
    requires k in s && s[k].Key() == k && ApplyStagedChat(c, s[k], origin).Done?
    ensures var (e, e1) := (c.entities, ApplyStagedChat(c, s[k], origin).state.entities);
            && MarkMessages(e.messages, GoneChats(s)) == MarkMessages(e1.messages, GoneChats(s - {k}))
            && e1.messageTombstones == e.messageTombstones
  {
    GoneExcept(s, k);
    match s[k]
    case ChatValue(chat) => UpsertLeavesMessages(c.entities, chat, origin);
    case ChatGone(id) =>
      DeleteMarks(c.entities, id, origin);
      MarkTwice(c.entities.messages, GoneChats(s - {k}), k);
  }

  lemma MarkTwice(messages: map<MessageId, MessageRow>, rest: set<ChatId>, k: ChatId)
    ensures MarkMessages(messages, rest + {k}) == MarkMessages(MarkMessages(messages, {k}), rest)
  {
  }

  lemma OneChatTombstones(c: Canon, s: StagedChats, k: ChatId, origin: Provenance)
    requires EntitiesInvariant(c.entities) && k in s && ApplyStagedChat(c, s[k], origin).Done?
    ensures MergedChatTombstones(c.entities, s, origin)
            == MergedChatTombstones(ApplyStagedChat(c, s[k], origin).state.entities, s - {k}, origin)
  {
  }

  lemma OneChat(c: Canon, s: StagedChats, k: ChatId, origin: Provenance)
    requires EntitiesInvariant(c.entities) && k in s && ApplyStagedChat(c, s[k], origin).Done?
    ensures Agree(MergeStagedChats(c, s, origin),
                  Then(ApplyStagedChat(c, s[k], origin),
                       MergeStagedChats(ApplyStagedChat(c, s[k], origin).state, s - {k}, origin)))
  {
    var first := ApplyStagedChat(c, s[k], origin);
    var e, e1 := c.entities, first.state.entities;
    OneChatRaises(c, s, k, origin);
    OneChatConflicts(c, s, k, origin);
    OneChatSets(c, s, k, origin);
    OneChatRows(c, s, k, origin);
    OneChatMarks(c, s, k, origin);
    OneChatTombstones(c, s, k, origin);
    OneChatCoverage(c, s, k, origin);
  }

  lemma OneChatConflicts(c: Canon, s: StagedChats, k: ChatId, origin: Provenance)
    requires EntitiesInvariant(c.entities) && k in s && ApplyStagedChat(c, s[k], origin).Done?
    ensures MergeStagedChats(c, s, origin).Raised? <==>
            MergeStagedChats(ApplyStagedChat(c, s[k], origin).state, s - {k}, origin).Raised?
  {
    OneChatRaises(c, s, k, origin);
    OneChatFrame(c, s, k, origin);
    assert forall j :: j in s <==> j == k || j in s - {k};
  }

  lemma OneChatCoverage(c: Canon, s: StagedChats, k: ChatId, origin: Provenance)
    requires EntitiesInvariant(c.entities) && k in s && ApplyStagedChat(c, s[k], origin).Done?
    ensures var c1 := ApplyStagedChat(c, s[k], origin).state;
            && InvalidateAny(c.coverage, ChangedChats(c.entities, s))
               == InvalidateAny(c1.coverage, ChangedChats(c1.entities, s - {k}))
            && c1.settings == c.settings
  {
    OneChatRaises(c, s, k, origin);
    OneChatSets(c, s, k, origin);
    var c1 := ApplyStagedChat(c, s[k], origin).state;
    if Changed(c.entities, s, k) {
      InvalidateOneThenRest(c.coverage, k, ChangedChats(c1.entities, s - {k}));
    } else {
      assert ChangedChats(c.entities, s) == ChangedChats(c1.entities, s - {k});
    }
  }

  lemma {:induction false} ChatsRefineFold(c: Canon, rs: seq<StagedChat>, s: StagedChats, origin: Provenance)
    requires EntitiesInvariant(c.entities) && EnumeratesChats(rs, s)
    ensures Agree(MergeStagedChats(c, s, origin), FoldChats(c, rs, origin))
    decreases rs
  {
    if rs == [] {
      NoChats(c, s, origin);
    } else {
      var k := rs[0].Key();
      OneChatRaises(c, s, k, origin);
      var first := ApplyStagedChat(c, rs[0], origin);
      if first.Done? {
        OneChat(c, s, k, origin);
        StagedChatKeepsInvariant(c, rs[0], origin);
        ChatsRefineFold(first.state, rs[1..], s - {k}, origin);
      }
    }
  }

  lemma NoChats(c: Canon, s: StagedChats, origin: Provenance)
    requires s == map[]
    ensures MergeStagedChats(c, s, origin) == Done(c, false)
  {
    var e := c.entities;
    assert MergedChats(e, s, origin) == e.chats;
    assert MarkMessages(e.messages, GoneChats(s)) == e.messages;
    assert MergedChatTombstones(e, s, origin) == e.chatTombstones;
  }

  lemma StagedChatKeepsInvariant(c: Canon, r: StagedChat, origin: Provenance)
    requires EntitiesInvariant(c.entities) && ApplyStagedChat(c, r, origin).Done?
    ensures EntitiesInvariant(ApplyStagedChat(c, r, origin).state.entities)
  {
    match r
    case ChatValue(chat) => ChatStepKeepsInvariant(c.entities, chat, origin);
    case ChatGone(id) => DeleteChatKeepsRows(c.entities, id, origin);
  }

  lemma OneMessageRaises(c: Canon, s: StagedMessages, m: MessageId, origin: Provenance)
    requires m in s
    ensures ApplyStagedMessage(c, s[m], origin).Raised? <==>
            TombstoneConflicts(c.entities, s, m) || Orphan(c.entities, s, m) || ImmutableConflict(c.entities, s, m)
    ensures !ApplyStagedMessage(c, s[m], origin).Raised? ==>
            (m in NewMessages(c.entities, s) <==> s[m].MessageValue? && ApplyStagedMessage(c, s[m], origin).changed)
  {
  }

  lemma OneMessageFrame(c: Canon, s: StagedMessages, m: MessageId, origin: Provenance)
    requires m in s && ApplyStagedMessage(c, s[m], origin).Done?
    ensures var (e, e1) := (c.entities, ApplyStagedMessage(c, s[m], origin).state.entities);
            && (forall j :: j in s - {m} ==>
                  && (TombstoneConflicts(e1, s - {m}, j) <==> TombstoneConflicts(e, s, j))
                  && (Orphan(e1, s - {m}, j) <==> Orphan(e, s, j))
                  && (ImmutableConflict(e1, s - {m}, j) <==> ImmutableConflict(e, s, j))
                  && (j in NewMessages(e1, s - {m}) <==> j in NewMessages(e, s)))
  {
  }

  lemma OneMessageSets(c: Canon, s: StagedMessages, m: MessageId, origin: Provenance)
    requires m in s && ApplyStagedMessage(c, s[m], origin).Done?
    ensures var (e, e1) := (c.entities, ApplyStagedMessage(c, s[m], origin).state.entities);
            && GoneMessages(s) == (if s[m].MessageGone? then {m} else {}) + GoneMessages(s - {m})
            && NewMessages(e, s) == (if m in NewMessages(e, s) then {m} else {}) + NewMessages(e1, s - {m})
            && m !in GoneMessages(s - {m}) && m !in NewMessages(e1, s - {m})
  {
  }

  lemma OneMessageRows(c: Canon, s: StagedMessages, m: MessageId, origin: Provenance)
    requires m in s && ApplyStagedMessage(c, s[m], origin).Done?
    ensures var (e, e1) := (c.entities, ApplyStagedMessage(c, s[m], origin).state.entities);
            && MergedMessages(e, s, origin) == MergedMessages(e1, s - {m}, origin)
            && e1.chats == e.chats && e1.chatTombstones == e.chatTombstones
  {
    OneMessageSets(c, s, m, origin);
    OneMessageRaises(c, s, m, origin);
    var e, e1 := c.entities, ApplyStagedMessage(c, s[m], origin).state.entities;
    var a, b := MergedMessages(e, s, origin), MergedMessages(e1, s - {m}, origin);
    assert e1.messages.Keys == e.messages.Keys + (if m in NewMessages(e, s) then {m} else {});
    assert a.Keys == b.Keys;
    forall j | j in a ensures a[j] == b[j] {
      if j != m {
        assert j in e.messages ==> e1.messages[j] == e.messages[j];
      }
    }
  }

  lemma OneMessageTombstones(c: Canon, s: StagedMessages, m: MessageId, origin: Provenance)
    requires m in s && ApplyStagedMessage(c, s[m], origin).Done?
    ensures MergedMessageTombstones(c.entities, s, origin)
            == MergedMessageTombstones(ApplyStagedMessage(c, s[m], origin).state.entities, s - {m}, origin)
  {
  }

  lemma OneMessage(c: Canon, s: StagedMessages, m: MessageId, origin: Provenance)
    requires m in s && ApplyStagedMessage(c, s[m], origin).Done?
    ensures Agree(MergeStagedMessages(c, s, origin),
                  Then(ApplyStagedMessage(c, s[m], origin),
                       MergeStagedMessages(ApplyStagedMessage(c, s[m], origin).state, s - {m}, origin)))
  {
    OneMessageRaises(c, s, m, origin);
    OneMessageConflicts(c, s, m, origin);
    OneMessageSets(c, s, m, origin);
    OneMessageRows(c, s, m, origin);
    OneMessageTombstones(c, s, m, origin);
  }

  lemma OneMessageConflicts(c: Canon, s: StagedMessages, m: MessageId, origin: Provenance)
    requires m in s && ApplyStagedMessage(c, s[m], origin).Done?
    ensures MergeStagedMessages(c, s, origin).Raised? <==>
            MergeStagedMessages(ApplyStagedMessage(c, s[m], origin).state, s - {m}, origin).Raised?
  {
    OneMessageRaises(c, s, m, origin);
    OneMessageFrame(c, s, m, origin);
    assert forall j :: j in s <==> j == m || j in s - {m};
  }

  lemma {:induction false} MessagesRefineFold(c: Canon, rs: seq<StagedMessage>, s: StagedMessages, origin: Provenance)
    requires EnumeratesMessages(rs, s)
    ensures Agree(MergeStagedMessages(c, s, origin), FoldMessages(c, rs, origin))
    decreases rs
  {
    if rs == [] {
      NoMessages(c, s, origin);
    } else {
      var m := rs[0].Key();
      OneMessageRaises(c, s, m, origin);
      var first := ApplyStagedMessage(c, rs[0], origin);
      if first.Done? {
        OneMessage(c, s, m, origin);
        MessagesRefineFold(first.state, rs[1..], s - {m}, origin);
      }
    }
  }

  lemma NoMessages(c: Canon, s: StagedMessages, origin: Provenance)
    requires s == map[]
    ensures MergeStagedMessages(c, s, origin) == Done(c, false)
  {
    var e := c.entities;
    assert NewMessages(e, s) == {} && GoneMessages(s) == {};
    assert MergedMessages(e, s, origin) == e.messages;
    assert MergedMessageTombstones(e, s, origin) == e.messageTombstones;
  }

  /** The set-based merge raises exactly when the record-by-record merge raises, in whatever order the
      records of a kind are taken, and otherwise ends in the same state with the same changed flag. */
  lemma SnapshotMergeRefinesFold(c: Canon, chats: StagedChats, messages: StagedMessages,
                                 cs: seq<StagedChat>, ms: seq<StagedMessage>, origin: Provenance)
    requires EntitiesInvariant(c.entities)
    requires EnumeratesChats(cs, chats) && EnumeratesMessages(ms, messages)
    ensures Agree(MergeSnapshot(c, chats, messages, origin), FoldSnapshot(c, cs, ms, origin))
  {
    ChatsRefineFold(c, cs, chats, origin);
    var first := MergeStagedChats(c, chats, origin);
    if first.Done? {
      MessagesRefineFold(first.state, ms, messages, origin);
    }
  }
}
