/** Chats converge: the live chats depend on which upserts and deletes were accepted, not on their order. */
module ChatConvergence {
  import opened Options
  import opened CanonicalModel
  import opened EntityMerge

  datatype Delivery = Delivery(change: Change, origin: Provenance)

  /** Apply deliveries, from whatever streams, one after the other. */
  function Deliver(e: Entities, ds: seq<Delivery>): Outcome<Entities> {
    if ds == [] then Done(e, false)
    else
      match Deliver(e, ds[..|ds| - 1])
      case Raised(why) => Raised(why)
      case Done(e1, changed1) =>
        match ApplyEntity(e1, ds[|ds| - 1].change, ds[|ds| - 1].origin)
        case Raised(why) => Raised(why)
        case Done(e2, changed2) => Done(e2, changed1 || changed2)
  }

  ghost predicate Carries(ds: seq<Delivery>, change: Change) {
    exists d :: d in ds && d.change == change
  }

  /** The chat records that compete for chat `k`: the live row before the deliveries and every upsert. */
  ghost predicate Candidate(e: Entities, ds: seq<Delivery>, k: ChatId, chat: ChatRecord) {
    LiveChat(e, k) == Some(chat) || (chat.id == k && Carries(ds, ChatUpsert(chat)))
  }

  ghost predicate Deleted(e: Entities, ds: seq<Delivery>, k: ChatId) {
    k in e.chatTombstones || Carries(ds, ChatDelete(k))
  }

  /** None if deleted, else the latest full record, else the placeholder, else nothing. */
  ghost predicate Expected(e: Entities, ds: seq<Delivery>, k: ChatId, live: Option<ChatRecord>) {
    if Deleted(e, ds, k) then live == None
    else
      match live
      case None => forall c: ChatRecord :: !Candidate(e, ds, k, c)
      case Some(r) =>
        && Candidate(e, ds, k, r)
        && (forall c: ChatRecord :: Candidate(e, ds, k, c) && c.full ==>
              r.full && (c == r || c.updatedAt.value < r.updatedAt.value))
  }

  /** All placeholders competing for chat `k` are equal. */
  ghost predicate PlaceholdersAlike(e: Entities, ds: seq<Delivery>, k: ChatId) {
    forall c: ChatRecord, d: ChatRecord ::
      Candidate(e, ds, k, c) && Candidate(e, ds, k, d) && !c.full && !d.full ==> c == d
  }

  /** `a` outranks `b`: it is the same record, or a full record that is later than `b` if `b` is full. */
  ghost predicate Outranks(a: ChatRecord, b: ChatRecord) {
    a == b || (b.full ==> a.full && b.updatedAt.value < a.updatedAt.value)
  }

  lemma UpsertKeepsTheBest(e: Entities, chat: ChatRecord, origin: Provenance)
    requires EntitiesInvariant(e) && MergeChat(e, chat, origin).Done?
    ensures var before, after := LiveChat(e, chat.id), LiveChat(MergeChat(e, chat, origin).state, chat.id);
            if chat.id in e.chatTombstones then after == None
            else
              && after.Some? && (after == Some(chat) || after == before)
              && Outranks(after.value, chat)
              && (before.Some? ==> Outranks(after.value, before.value))
  {
  }

  lemma OtherChatsUntouched(e: Entities, change: Change, origin: Provenance, k: ChatId)
    requires EntitiesInvariant(e) && ApplyEntity(e, change, origin).Done?
    requires change != ChatDelete(k) && !(change.ChatUpsert? && change.chat.id == k)
    ensures var e' := ApplyEntity(e, change, origin).state;
            LiveChat(e', k) == LiveChat(e, k) && (k in e'.chatTombstones <==> k in e.chatTombstones)
  {
  }

  /** Any accepted order ends in the record the set of deliveries calls for. */
  lemma {:induction false} LiveChatIsExpected(e: Entities, ds: seq<Delivery>, k: ChatId)
    requires EntitiesInvariant(e) && Deliver(e, ds).Done?
    ensures EntitiesInvariant(Deliver(e, ds).state)
    ensures Expected(e, ds, k, LiveChat(Deliver(e, ds).state, k))
    ensures Deleted(e, ds, k) <==> k in Deliver(e, ds).state.chatTombstones
  {
    if ds != [] {
      var n := |ds| - 1;
      var last := ds[n];
      LiveChatIsExpected(e, ds[..n], k);
      var before := Deliver(e, ds[..n]).state;
      EntityStepKeepsInvariant(before, last.change, last.origin);
      ExtendExpected(e, ds[..n], last, k, before);
      assert ds == ds[..n] + [last];
    }
  }

  lemma ExtendExpected(e: Entities, ds: seq<Delivery>, last: Delivery, k: ChatId, before: Entities)
    requires EntitiesInvariant(before) && ApplyEntity(before, last.change, last.origin).Done?
    requires Expected(e, ds, k, LiveChat(before, k))
    requires Deleted(e, ds, k) <==> k in before.chatTombstones
    ensures var after := ApplyEntity(before, last.change, last.origin).state;
            && Expected(e, ds + [last], k, LiveChat(after, k))
            && (Deleted(e, ds + [last], k) <==> k in after.chatTombstones)
  {
    CandidatesExtend(e, ds, last, k);
    if last.change == ChatDelete(k) {
    } else if last.change.ChatUpsert? && last.change.chat.id == k {
      UpsertKeepsTheBest(before, last.change.chat, last.origin);
    } else {
      OtherChatsUntouched(before, last.change, last.origin, k);
    }
  }

  lemma CandidatesExtend(e: Entities, ds: seq<Delivery>, last: Delivery, k: ChatId)
    ensures forall c: ChatRecord :: Candidate(e, ds + [last], k, c) <==>
              Candidate(e, ds, k, c) || (c.id == k && last.change == ChatUpsert(c))
    ensures Deleted(e, ds + [last], k) <==> Deleted(e, ds, k) || last.change == ChatDelete(k)
  {
  }

  /** Two accepted orders of the same deliveries end with the same live record of chat `k`. */
  lemma ChatsConverge(e: Entities, ds: seq<Delivery>, ds': seq<Delivery>, k: ChatId)
    requires EntitiesInvariant(e)
    requires Deliver(e, ds).Done? && Deliver(e, ds').Done?
    requires forall change :: Carries(ds, change) <==> Carries(ds', change)
    requires PlaceholdersAlike(e, ds, k)
    ensures LiveChat(Deliver(e, ds).state, k) == LiveChat(Deliver(e, ds').state, k)
  {
    LiveChatIsExpected(e, ds, k);
    LiveChatIsExpected(e, ds', k);
    assert forall c: ChatRecord :: Candidate(e, ds, k, c) <==> Candidate(e, ds', k, c);
  }

  /** The record that was there first: the live row before the deliveries, else the first upsert. */
  function First(e: Entities, ds: seq<Delivery>, k: ChatId): Option<ChatRecord> {
    if ds == [] then LiveChat(e, k)
    else
      var (before, last) := (First(e, ds[..|ds| - 1], k), ds[|ds| - 1]);
      if before.None? && last.change.ChatUpsert? && last.change.chat.id == k then Some(last.change.chat) else before
  }

  ghost predicate SomeFull(e: Entities, ds: seq<Delivery>, k: ChatId) {
    exists c: ChatRecord :: Candidate(e, ds, k, c) && c.full
  }

  /** As long as only placeholders compete, the first one stays. */
  lemma {:induction false} FirstPlaceholderStays(e: Entities, ds: seq<Delivery>, k: ChatId)
    requires EntitiesInvariant(e) && Deliver(e, ds).Done? && !Deleted(e, ds, k) && !SomeFull(e, ds, k)
    ensures LiveChat(Deliver(e, ds).state, k) == First(e, ds, k)
  {
    if ds != [] {
      var n := |ds| - 1;
      var last := ds[n];
      assert ds == ds[..n] + [last];
      CandidatesExtend(e, ds[..n], last, k);
      FirstPlaceholderStays(e, ds[..n], k);
      LiveChatIsExpected(e, ds[..n], k);
      var before := Deliver(e, ds[..n]).state;
      if last.change.ChatUpsert? && last.change.chat.id == k {
        assert Candidate(e, ds, k, last.change.chat);
        PlaceholderKeepsFirst(before, last.change.chat, last.origin);
      } else {
        OtherChatsUntouched(before, last.change, last.origin, k);
      }
    }
  }

  lemma PlaceholderKeepsFirst(e: Entities, chat: ChatRecord, origin: Provenance)
    requires EntitiesInvariant(e) && MergeChat(e, chat, origin).Done? && !chat.full && chat.id !in e.chatTombstones
    ensures LiveChat(MergeChat(e, chat, origin).state, chat.id)
            == if LiveChat(e, chat.id).Some? then LiveChat(e, chat.id) else Some(chat)
  {
  }

  /** Exactly when two accepted orders of the same deliveries agree on chat `k`: it is deleted, or a full record
      competes, or the same record came first. */
  lemma ConvergeExactly(e: Entities, ds: seq<Delivery>, ds': seq<Delivery>, k: ChatId)
    requires EntitiesInvariant(e)
    requires Deliver(e, ds).Done? && Deliver(e, ds').Done?
    requires forall change :: Carries(ds, change) <==> Carries(ds', change)
    ensures LiveChat(Deliver(e, ds).state, k) == LiveChat(Deliver(e, ds').state, k)
            <==> Deleted(e, ds, k) || SomeFull(e, ds, k) || First(e, ds, k) == First(e, ds', k)
  {
    LiveChatIsExpected(e, ds, k);
    LiveChatIsExpected(e, ds', k);
    assert forall c: ChatRecord :: Candidate(e, ds, k, c) <==> Candidate(e, ds', k, c);
    if !Deleted(e, ds, k) && !SomeFull(e, ds, k) {
      FirstPlaceholderStays(e, ds, k);
      FirstPlaceholderStays(e, ds', k);
    }
  }

  /** Without that condition the first of two different placeholders wins, so order shows. */
  lemma DifferentPlaceholdersDoNotConverge()
    ensures var p := RawChat(1, false, None, Some("a"), None);
            var q := RawChat(1, false, None, Some("b"), None);
            var o := Provenance(1, 1, None);
            var pq := Deliver(NO_ENTITIES, [Delivery(ChatUpsert(p), o), Delivery(ChatUpsert(q), o)]);
            var qp := Deliver(NO_ENTITIES, [Delivery(ChatUpsert(q), o), Delivery(ChatUpsert(p), o)]);
            pq.Done? && qp.Done? && LiveChat(pq.state, 1) == Some(p) && LiveChat(qp.state, 1) == Some(q)
  {
    var p := RawChat(1, false, None, Some("a"), None);
    var q := RawChat(1, false, None, Some("b"), None);
    var o := Provenance(1, 1, None);
    assert "a"[0] != "b"[0];
    TwoDeliveries(Delivery(ChatUpsert(p), o), Delivery(ChatUpsert(q), o));
    TwoDeliveries(Delivery(ChatUpsert(q), o), Delivery(ChatUpsert(p), o));
  }

  lemma TwoDeliveries(a: Delivery, b: Delivery)
    requires ApplyEntity(NO_ENTITIES, a.change, a.origin).Done?
    ensures Deliver(NO_ENTITIES, [a, b]) ==
            (var first := ApplyEntity(NO_ENTITIES, a.change, a.origin);
             match ApplyEntity(first.state, b.change, b.origin)
             case Raised(why) => Raised(why)
             case Done(e2, changed2) => Done(e2, first.changed || changed2))
  {
    assert [a, b][..1] == [a];
    assert [a][..0] == [];
    assert Deliver(NO_ENTITIES, [a]) == ApplyEntity(NO_ENTITIES, a.change, a.origin);
  }
}
