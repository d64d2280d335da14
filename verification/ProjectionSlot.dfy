/** The tables of the slot being built, changed statement by statement inside one transaction. */
module ProjectionSlot {
  import opened Options
  import opened CanonicalModel
  import opened ProjectionTables
  import opened ProjectionBuild

  // ----- the statements compose to a replay -----

  lemma DeleteNothing(t: Tables)
    ensures DeleteRows(t, {}) == t
  {
  }

  lemma InsertNothing(t: Tables, c: Content)
    ensures Insert(t, c, {}, {}) == t
  {
    assert t.messages + PerMessageIn(c, TextRow, {}) == t.messages;
    assert t.analyses + PerMessageIn(c, AnalysisRow, {}) == t.analyses;
    assert t.messageNodes + PerMessageIn(c, MessageNodeRow, {}) == t.messageNodes;
    assert t.conversationNodes + ConversationNodesIn(c, {}) == t.conversationNodes;
    assert t.edges + EdgesIn(c, {}) == t.edges;
  }

  lemma MoreMessages<R>(table: map<MessageId, Row<R>>, c: Content, row: MessageRecord -> Row<R>, a: set<MessageId>, b: set<MessageId>)
    ensures table + PerMessageIn(c, row, a) + PerMessageIn(c, row, b) == table + PerMessageIn(c, row, a + b)
  {
  }

  lemma MoreEdges(table: map<EdgeId, Row<()>>, c: Content, a: set<MessageId>, b: set<MessageId>)
    ensures table + EdgesIn(c, a) + EdgesIn(c, b) == table + EdgesIn(c, a + b)
  {
  }

  lemma SameNodesAgain(table: map<ChatId, Row<ChatInfo>>, c: Content, ks: set<ChatId>)
    ensures table + ConversationNodesIn(c, ks) + ConversationNodesIn(c, ks) == table + ConversationNodesIn(c, ks)
  {
  }

  lemma InsertMore(t: Tables, c: Content, ks: set<ChatId>, a: set<MessageId>, b: set<MessageId>)
    ensures Insert(Insert(t, c, ks, a), c, ks, b) == Insert(t, c, ks, a + b)
  {
    MoreMessages(t.messages, c, TextRow, a, b);
    MoreMessages(t.analyses, c, AnalysisRow, a, b);
    MoreMessages(t.messageNodes, c, MessageNodeRow, a, b);
    MoreEdges(t.edges, c, a, b);
    SameNodesAgain(t.conversationNodes, c, ks);
  }

  lemma InsertTwice(t: Tables, c: Content, ks: set<ChatId>)
    ensures Insert(Insert(t, c, ks, {}), c, ks, {}) == Insert(t, c, ks, {})
  {
    var none: set<MessageId> := {};
    assert none + none == none;
    InsertMore(t, c, ks, none, none);
  }

  /** The part of a replay that concerns conversations. */
  ghost function ReplayRows(t: Tables, c: Content, refresh: set<ChatId>, rebuild: set<ChatId>): Tables {
    Replay(t, c, refresh, rebuild).(analytics := t.analytics)
  }

  lemma ReplacedMessages<R>(table: map<MessageId, Row<R>>, c: Content, row: MessageRecord -> Row<R>, ks: set<ChatId>)
    requires ContentInvariant(c) && forall m :: row(m).conversation == m.chat
    ensures Without(table, ks) + PerMessageIn(c, row, MessagesOf(c, ks)) == Replace(table, PerMessage(c, row), ks)
  {
    var (a, b) := (PerMessageIn(c, row, MessagesOf(c, ks)), Only(PerMessage(c, row), ks));
    forall m: MessageId
      ensures (m in a <==> m in b) && (m in a ==> a[m] == b[m])
    {
      assert m in c.messages ==> row(c.messages[m]).conversation == c.messages[m].chat;
    }
    assert a == b;
  }

  lemma ReplacedEdges(table: map<EdgeId, Row<()>>, c: Content, ks: set<ChatId>)
    requires ContentInvariant(c)
    ensures Without(table, ks) + EdgesIn(c, MessagesOf(c, ks)) == Replace(table, AllEdges(c), ks)
  {
  }

  lemma ReplacedNodes(table: map<ChatId, Row<ChatInfo>>, c: Content, ks: set<ChatId>)
    ensures Without(table, ks) + ConversationNodesIn(c, ks) == Replace(table, AllConversationNodes(c), ks)
  {
  }

  /** Delete, insert, rewrite summaries: together a replay of these conversations. */
  lemma ProcessIsReplay(t: Tables, c: Content, refresh: set<ChatId>, rebuild: set<ChatId>)
    requires ContentInvariant(c)
    ensures PutSummaries(Insert(DeleteRows(t, rebuild), c, rebuild, MessagesOf(c, rebuild)), c, refresh)
            == ReplayRows(t, c, refresh, rebuild)
  {
    ReplacedMessages(t.messages, c, TextRow, rebuild);
    ReplacedMessages(t.analyses, c, AnalysisRow, rebuild);
    ReplacedMessages(t.messageNodes, c, MessageNodeRow, rebuild);
    ReplacedEdges(t.edges, c, rebuild);
    ReplacedNodes(t.conversationNodes, c, rebuild);
    PutIsRefresh(t.summaries, c, Replace(t.messages, AllMessages(c), rebuild), refresh, rebuild);
  }

  lemma PutIsRefresh(summaries: map<ChatId, Summary>, c: Content, messages: map<MessageId, Row<Text>>,
                     refresh: set<ChatId>, rebuild: set<ChatId>)
    ensures (summaries - rebuild) + SummariesFor(c, messages, refresh)
            == RefreshSummaries(summaries, c, messages, refresh, rebuild)
  {
  }

  /** Only live conversations have nodes and messages to insert. */
  lemma LiveOnly(t: Tables, c: Content, ks: set<ChatId>)
    requires ContentInvariant(c)
    ensures Insert(t, c, ks * c.chats.Keys, MessagesOf(c, ks * c.chats.Keys)) == Insert(t, c, ks, MessagesOf(c, ks))
  {
    assert MessagesOf(c, ks * c.chats.Keys) == MessagesOf(c, ks) by {
      forall m | m in MessagesOf(c, ks) ensures m in MessagesOf(c, ks * c.chats.Keys) {
        assert c.messages[m].chat in c.chats;
      }
    }
    assert ConversationNodesIn(c, ks * c.chats.Keys) == ConversationNodesIn(c, ks);
  }

  // ----- batches compose -----

  lemma ReplaceMore<I, R>(rows: map<I, Row<R>>, full: map<I, Row<R>>, a: set<ChatId>, b: set<ChatId>)
    ensures Replace(Replace(rows, full, a), full, b) == Replace(rows, full, a + b)
  {
    assert Without(Replace(rows, full, a), b) + Only(full, b) == Without(rows, a + b) + Only(full, a + b);
  }

  lemma LaterRowsUntouched(rows: map<MessageId, Row<Text>>, c: Content, b: set<ChatId>, k: ChatId)
    requires k !in b
    requires forall m :: m in rows && m in c.messages ==> rows[m].conversation == c.messages[m].chat
    ensures LatestOf(Replace(rows, AllMessages(c), b), k) == LatestOf(rows, k)
  {
    forall m | m in AllMessages(c) ensures AllMessages(c)[m].conversation == c.messages[m].chat {
      assert AllMessages(c)[m] == TextRow(c.messages[m]);
    }
    var (x, y) := (Only(Replace(rows, AllMessages(c), b), {k}), Only(rows, {k}));
    forall m: MessageId
      ensures (m in x <==> m in y) && (m in x ==> x[m] == y[m])
    {
      assert m in Only(AllMessages(c), b) ==> m in c.messages && c.messages[m].chat in b;
    }
    assert x == y;
    SameLatest(Replace(rows, AllMessages(c), b), rows, k);
  }

  /** A second batch of other conversations extends the first. */
  lemma ReplayMore(t: Tables, c: Content, refresh: set<ChatId>, rebuild: set<ChatId>, refresh': set<ChatId>, rebuild': set<ChatId>)
    requires Aligned(ReplayRows(t, c, refresh, rebuild), c)
    requires refresh !! rebuild' && rebuild <= refresh && rebuild' <= refresh'
    ensures ReplayRows(ReplayRows(t, c, refresh, rebuild), c, refresh', rebuild')
            == ReplayRows(t, c, refresh + refresh', rebuild + rebuild')
  {
    ReplaceMore(t.messages, AllMessages(c), rebuild, rebuild');
    ReplaceMore(t.analyses, AllAnalyses(c), rebuild, rebuild');
    ReplaceMore(t.messageNodes, AllMessageNodes(c), rebuild, rebuild');
    ReplaceMore(t.conversationNodes, AllConversationNodes(c), rebuild, rebuild');
    ReplaceMore(t.edges, AllEdges(c), rebuild, rebuild');
    RefreshMore(t.summaries, c, Replace(t.messages, AllMessages(c), rebuild), refresh, rebuild, refresh', rebuild');
  }

  lemma RefreshMore(summaries: map<ChatId, Summary>, c: Content, messages: map<MessageId, Row<Text>>,
                    refresh: set<ChatId>, rebuild: set<ChatId>, refresh': set<ChatId>, rebuild': set<ChatId>)
    requires forall m :: m in messages && m in c.messages ==> messages[m].conversation == c.messages[m].chat
    requires refresh !! rebuild' && rebuild <= refresh && rebuild' <= refresh'
    ensures var messages' := Replace(messages, AllMessages(c), rebuild');
            RefreshSummaries(RefreshSummaries(summaries, c, messages, refresh, rebuild), c, messages', refresh', rebuild')
            == RefreshSummaries(summaries, c, messages', refresh + refresh', rebuild + rebuild')
  {
    var messages' := Replace(messages, AllMessages(c), rebuild');
    forall k | k in refresh && k in c.chats
      ensures SummaryOf(c, messages, k) == SummaryOf(c, messages', k)
    {
      LaterRowsUntouched(messages, c, rebuild', k);
    }
    SummariesCompose(summaries, c, messages, messages', refresh, rebuild, refresh', rebuild');
  }

  lemma SummariesCompose(summaries: map<ChatId, Summary>, c: Content, messages: map<MessageId, Row<Text>>,
                         messages': map<MessageId, Row<Text>>,
                         refresh: set<ChatId>, rebuild: set<ChatId>, refresh': set<ChatId>, rebuild': set<ChatId>)
    requires forall k :: k in refresh && k in c.chats ==> SummaryOf(c, messages, k) == SummaryOf(c, messages', k)
    requires refresh !! rebuild' && rebuild <= refresh && rebuild' <= refresh'
    ensures RefreshSummaries(RefreshSummaries(summaries, c, messages, refresh, rebuild), c, messages', refresh', rebuild')
            == RefreshSummaries(summaries, c, messages', refresh + refresh', rebuild + rebuild')
  {
  }

  lemma ReplayStaysAligned(t: Tables, c: Content, refresh: set<ChatId>, rebuild: set<ChatId>)
    requires Aligned(t, c)
    ensures Aligned(ReplayRows(t, c, refresh, rebuild), c)
  {
    ReplaceStaysAligned(t.messages, c, TextRow, rebuild);
    ReplaceStaysAligned(t.analyses, c, AnalysisRow, rebuild);
  }

  lemma ReplaceStaysAligned<R>(table: map<MessageId, Row<R>>, c: Content, row: MessageRecord -> Row<R>, ks: set<ChatId>)
    requires forall m :: m in table && m in c.messages ==> table[m].conversation == c.messages[m].chat
    requires forall m :: row(m).conversation == m.chat
    ensures var table' := Replace(table, PerMessage(c, row), ks);
            forall m :: m in table' && m in c.messages ==> table'[m].conversation == c.messages[m].chat
  {
    forall m | m in PerMessage(c, row) ensures PerMessage(c, row)[m].conversation == c.messages[m].chat {
      assert PerMessage(c, row)[m] == row(c.messages[m]);
    }
  }

  // ----- the slot -----

  function Min(a: nat, b: nat): nat { if a < b then a else b }

  class SlotTables {
    var summaries: map<ChatId, Summary>
    var messages: map<MessageId, Row<Text>>
    var analyses: map<MessageId, Row<Analysis>>
    var conversationNodes: map<ChatId, Row<ChatInfo>>
    var messageNodes: map<MessageId, Row<MessageDocument>>
    var edges: map<EdgeId, Row<()>>
    var analytics: Option<Analytics>

    function Value(): Tables
      reads this
    {
      Tables(summaries, messages, analyses, conversationNodes, messageNodes, edges, analytics)
    }

    constructor (t: Tables)
      ensures Value() == t
    {
      summaries, messages, analyses := t.summaries, t.messages, t.analyses;
      conversationNodes, messageNodes, edges, analytics := t.conversationNodes, t.messageNodes, t.edges, t.analytics;
    }

    method Clear()
      modifies this
      ensures Value() == NO_TABLES
    {
      edges, messageNodes, conversationNodes, analyses := map[], map[], map[], map[];
      messages, summaries, analytics := map[], map[], None;
    }

    method DeleteConversations(ids: seq<ChatId>)
      modifies this
      ensures Value() == DeleteRows(old(Value()), AsSet(ids))
    {
      if |ids| == 0 {
        DeleteNothing(Value());
        return;
      }
      var ks := set k | k in ids;
      edges := Without(edges, ks);
      messageNodes := Without(messageNodes, ks);
      conversationNodes := Without(conversationNodes, ks);
      analyses := Without(analyses, ks);
      messages := Without(messages, ks);
      summaries := summaries - ks;
    }

    /** Analyses are plain inserts, so none may exist yet; nodes and edges are upserts. An edge needs both
        of its nodes. */
    method InsertMaterial(b: Batch)
      requires forall i :: 0 <= i < |b.analyses| ==> b.analyses[i].0 !in analyses && b.analyses[i].0 in messages
      requires Linked(b)
      modifies this`analyses, this`conversationNodes, this`messageNodes, this`edges
      ensures analyses == PutAll(old(analyses), b.analyses)
      ensures conversationNodes == PutAll(old(conversationNodes), b.conversationNodes)
      ensures messageNodes == PutAll(old(messageNodes), b.messageNodes)
      ensures edges == PutAll(old(edges), b.edges)
    {
      analyses := PutAll(analyses, b.analyses);
      conversationNodes := PutAll(conversationNodes, b.conversationNodes);
      messageNodes := PutAll(messageNodes, b.messageNodes);
      edges := PutAll(edges, b.edges);
    }

    /** The message rows are plain inserts under a summary that must already exist. */
    method InsertMessages(ids: seq<MessageId>, records: seq<MessageRecord>, c: Content)
      requires Fetched(c, ids, records)
      requires forall i :: 0 <= i < |ids| ==> ids[i] !in messages && records[i].chat in summaries
      modifies this`messages
      ensures messages == old(messages) + PerMessageIn(c, TextRow, AsSet(ids))
    {
      var rows := seq(|records|, i requires 0 <= i < |records| => (records[i].id, TextRow(records[i])));
      PutMessageRows(messages, c, ids, records, TextRow, rows);
      messages := PutAll(messages, rows);
    }

    /** Project the given live conversations and their messages, in message batches. */
    method ProjectConversationEntities(c: Content, conversations: seq<ChatId>)
      requires ContentInvariant(c)
      requires forall k :: k in conversations ==> k in c.chats && k in summaries
      requires forall m :: m in MessagesOf(c, AsSet(conversations)) ==> m !in messages && m !in analyses
      modifies this
      ensures Value() == Insert(old(Value()), c, AsSet(conversations), MessagesOf(c, AsSet(conversations)))
    {
      if |conversations| == 0 {
        InsertNothing(Value(), c);
        return;
      }
      ProjectConversations(c, conversations);
      InsertTwice(old(Value()), c, AsSet(conversations));
      var rows := SelectMessages(c, conversations);
      AllSelected(c, conversations, rows);
      ProjectMessages(c, conversations, rows);
      assert {} + AsSet(rows) == AsSet(rows);
      InsertMore(old(Value()), c, AsSet(conversations), {}, AsSet(rows));
    }

    /** The nodes of the conversations, before any of their messages. */
    method ProjectConversations(c: Content, conversations: seq<ChatId>)
      requires forall k :: k in conversations ==> k in c.chats
      modifies this
      ensures Value() == Insert(old(Value()), c, AsSet(conversations), {})
      ensures messages == old(messages) && analyses == old(analyses) && summaries == old(summaries)
    {
      var b := Project(c, conversations, []);
      PutProjectedNodes(conversationNodes, c, conversations, [], b);
      InsertMaterial(b);
      InsertNothing(old(Value()), c);
    }

    /** The cursor loop over the selected messages. */
    method ProjectMessages(c: Content, conversations: seq<ChatId>, rows: seq<MessageId>)
      requires ContentInvariant(c) && Selected(c, conversations, rows)
      requires forall k :: k in conversations ==> k in summaries
      requires forall i :: 0 <= i < |rows| ==> rows[i] !in messages && rows[i] !in analyses
      requires forall i, j :: 0 <= i < j < |rows| ==> rows[i] != rows[j]
      requires Value() == Insert(Value(), c, AsSet(conversations), {})
      modifies this
      ensures Value() == Insert(old(Value()), c, AsSet(conversations), AsSet(rows))
    {
      ghost var t, ks := Value(), AsSet(conversations);
      var i := 0;
      assert rows[..0] == [];
      while i < |rows|
        invariant 0 <= i <= |rows|
        invariant InsertedUpTo(t, Value(), c, ks, rows, i)
        invariant summaries == t.summaries
      {
        ghost var before := Value();
        var j := Min(i + PROJECTION_BATCH_SIZE, |rows|);
        NextIsReady(t, before, c, conversations, rows, i, j);
        ProjectMessageBatch(c, conversations, rows[i..j]);
        NextMessages(t, before, c, ks, rows, i, j);
        i := j;
      }
      assert rows[..|rows|] == rows;
    }

    /** One `fetchmany` of messages. */
    method ProjectMessageBatch(c: Content, conversations: seq<ChatId>, ids: seq<MessageId>)
      requires ContentInvariant(c) && Selected(c, conversations, ids)
      requires forall k :: k in conversations ==> k in summaries
      requires forall i :: 0 <= i < |ids| ==> ids[i] !in messages && ids[i] !in analyses
      modifies this
      ensures Value() == Insert(old(Value()), c, AsSet(conversations), AsSet(ids))
    {
      var records := Records(c, ids);
      RecordsAreSelected(c, conversations, ids, records);
      var b := Project(c, conversations, records);
      InsertMessages(ids, records, c);
      InsertBatch(c, conversations, ids, records, b);
    }

    /** The pipeline's material for a batch whose message rows are in place. */
    method InsertBatch(c: Content, conversations: seq<ChatId>, ids: seq<MessageId>, ghost records: seq<MessageRecord>, b: Batch)
      requires Fetched(c, ids, records) && Projected(b, c, conversations, records)
      requires forall i :: 0 <= i < |ids| ==> ids[i] in messages && ids[i] !in analyses
      modifies this`analyses, this`conversationNodes, this`messageNodes, this`edges
      ensures analyses == old(analyses) + PerMessageIn(c, AnalysisRow, AsSet(ids))
      ensures conversationNodes == old(conversationNodes) + ConversationNodesIn(c, AsSet(conversations))
      ensures messageNodes == old(messageNodes) + PerMessageIn(c, MessageNodeRow, AsSet(ids))
      ensures edges == old(edges) + EdgesIn(c, AsSet(ids))
    {
      PutProjected(Value(), c, conversations, ids, records, b);
      PutProjectedNodes(conversationNodes, c, conversations, records, b);
      InsertMaterial(b);
    }

    /** The newest message of a conversation, by time and then identifier. */
    method FindLatest(k: ChatId) returns (r: Option<Latest>)
      ensures r == LatestOf(messages, k)
    {
      var rows := Enumerate(set m | m in messages && messages[m].conversation == k);
      InTheSet(rows);
      r := None;
      for i := 0 to |rows|
        invariant forall j :: 0 <= j < |rows| ==> rows[j] in messages && messages[rows[j]].conversation == k
        invariant r.None? <==> i == 0
        invariant r.Some? ==> r.value.id in messages && messages[r.value.id] == Row(k, r.value.text)
        invariant forall j :: 0 <= j < i ==>
                    messages[rows[j]].data.sentAt < r.value.text.sentAt
                    || (messages[rows[j]].data.sentAt == r.value.text.sentAt && rows[j] <= r.value.id)
      {
        var m, text := rows[i], messages[rows[i]].data;
        if r.None? || text.sentAt > r.value.text.sentAt || (text.sentAt == r.value.text.sentAt && m > r.value.id) {
          r := Some(Latest(m, text));
        }
      }
      forall m | m in messages && messages[m].conversation == k ensures m in rows {
        assert m in AsSet(rows);
      }
      LatestIsUnique(messages, k);
      assert r.Some? ==> IsLatest(messages, k, r.value.id);
    }

    method WriteConversationSummary(c: Content, k: ChatId)
      requires k in c.chats
      modifies this`summaries
      ensures summaries == old(summaries)[k := SummaryOf(c, messages, k)]
    {
      var latest := FindLatest(k);
      summaries := summaries[k := Summary(c.chats[k], latest, CoverageOf(c, k))];
    }

    /** Rewrite the summaries of live conversations from the slot's own messages. */
    method WriteConversationSummaries(c: Content, ids: seq<ChatId>)
      requires forall k :: k in ids ==> k in c.chats
      modifies this`summaries
      ensures summaries == old(summaries) + SummariesFor(c, messages, AsSet(ids))
      ensures Value() == PutSummaries(old(Value()), c, AsSet(ids))
    {
      NoSummaries(c, messages);
      for i := 0 to |ids|
        invariant summaries == old(summaries) + SummariesFor(c, messages, AsSet(ids[..i]))
      {
        WriteConversationSummary(c, ids[i]);
        OneSummary(c, messages, AsSet(ids[..i]), ids[i]);
        assert AsSet(ids[..i + 1]) == AsSet(ids[..i]) + {ids[i]};
      }
      assert ids[..|ids|] == ids;
    }

    /** One batch: delete the rows of the rebuilt conversations, write provisional summaries for the live
        ones, project their entities, then write every live summary of the batch. */
    method ProcessConversationIds(c: Content, ids: seq<ChatId>, rebuildIds: seq<ChatId>)
      requires ContentInvariant(c) && Aligned(Value(), c)
      requires AsSet(rebuildIds) <= AsSet(ids)
      modifies this
      ensures Value() == ReplayRows(old(Value()), c, AsSet(ids), AsSet(rebuildIds))
    {
      DeleteConversations(rebuildIds);
      var live := Enumerate(set k | k in ids && k in c.chats);
      var conversations := Enumerate(set k | k in rebuildIds && k in c.chats);
      InTheSet(live);
      InTheSet(conversations);
      LiveOf(c, ids, live);
      LiveOf(c, rebuildIds, conversations);
      WriteConversationSummaries(c, conversations);
      NothingLeft(old(Value()), c, AsSet(rebuildIds), AsSet(conversations));
      ProjectConversationEntities(c, conversations);
      WriteConversationSummaries(c, live);
      BatchIsReplay(old(Value()), c, AsSet(ids), AsSet(rebuildIds), AsSet(live), AsSet(conversations));
    }

    /** Process conversations in batches, rebuilding those in `rebuild`. */
    method ProcessAll(c: Content, ids: seq<ChatId>, rebuild: set<ChatId>)
      requires ContentInvariant(c) && Aligned(Value(), c)
      requires forall i, j :: 0 <= i < j < |ids| ==> ids[i] != ids[j]
      modifies this
      ensures Value() == ReplayRows(old(Value()), c, AsSet(ids), AsSet(ids) * rebuild)
      ensures Aligned(Value(), c)
    {
      ghost var t := Value();
      ReplayNothing(t, c);
      NothingTaken(ids, rebuild);
      var i := 0;
      while i < |ids|
        invariant 0 <= i <= |ids|
        invariant Value() == ReplayRows(t, c, AsSet(ids[..i]), AsSet(ids[..i]) * rebuild)
        invariant Aligned(Value(), c)
      {
        var j := Min(i + CONVERSATION_BATCH_SIZE, |ids|);
        ghost var v := Value();
        ProcessBatch(c, ids[i..j], rebuild);
        NextBatch(t, v, c, ids, i, j, rebuild);
        i := j;
      }
      EverythingTaken(ids);
    }

    /** One `fetchmany` of conversations. */
    method ProcessBatch(c: Content, batch: seq<ChatId>, rebuild: set<ChatId>)
      requires ContentInvariant(c) && Aligned(Value(), c)
      modifies this
      ensures Value() == ReplayRows(old(Value()), c, AsSet(batch), AsSet(batch) * rebuild)
      ensures Aligned(Value(), c)
    {
      var rebuildIds := Enumerate(set k | k in batch && k in rebuild);
      assert AsSet(rebuildIds) == AsSet(batch) * rebuild;
      ReplayStaysAligned(Value(), c, AsSet(batch), AsSet(rebuildIds));
      ProcessConversationIds(c, batch, rebuildIds);
    }

    /** Collect the touched conversations, marking those to rebuild. */
    method CollectTouched(rows: seq<WorkRow>) returns (touched: map<ChatId, bool>)
      ensures touched.Keys == Touched(rows)
      ensures forall k :: k in touched ==> (touched[k] <==> k in Rebuilt(rows))
    {
      touched := map[];
      for i := 0 to |rows|
        invariant touched.Keys == Touched(rows[..i])
        invariant forall k :: k in touched ==> (touched[k] <==> k in Rebuilt(rows[..i]))
      {
        OneMoreTouched(rows[..i], rows[i]);
        assert rows[..i + 1] == rows[..i] + [rows[i]];
        if rows[i].conversation.Some? {
          var k := rows[i].conversation.value;
          touched := touched[k := (k in touched && touched[k]) || !rows[i].kind.CoverageWork?];
        }
      }
      assert rows[..|rows|] == rows;
    }

    /** The whole transaction on the slot: start over or replay the work rows, then rewrite the analytics. */
    method Build(c: Content, rows: seq<WorkRow>, startOver: bool)
      requires ContentInvariant(c) && Aligned(Value(), c)
      modifies this
      ensures Value() == Built(if startOver then None else Some(old(Value())), c, rows)
    {
      if startOver || HasReseed(rows) {
        StartOver(c);
      } else {
        ReplayWork(c, rows);
      }
      analytics := Some(AnalyticsOf(c));
    }

    method StartOver(c: Content)
      requires ContentInvariant(c)
      modifies this
      ensures Value() == ReplayRows(NO_TABLES, c, c.chats.Keys, c.chats.Keys)
    {
      Clear();
      var ids := Enumerate(c.chats.Keys);
      ProcessAll(c, ids, c.chats.Keys);
      assert c.chats.Keys * c.chats.Keys == c.chats.Keys;
    }

    /** Replay the touched conversations; global coverage work then refreshes every live summary. */
    method ReplayWork(c: Content, rows: seq<WorkRow>)
      requires ContentInvariant(c) && Aligned(Value(), c)
      modifies this
      ensures Value() == ReplayRows(old(Value()), c, Refreshed(c, rows), Rebuilt(rows))
    {
      RebuiltAreTouched(rows);
      RefreshedAtLast(c, rows);
      ghost var t := Value();
      ReplayTouched(c, rows);
      ghost var v := Value();
      if HasGlobalCoverage(rows) {
        RefreshAll(c);
        GlobalPass(t, v, c, Touched(rows), Rebuilt(rows), c.chats.Keys);
      }
    }

    method ReplayTouched(c: Content, rows: seq<WorkRow>)
      requires ContentInvariant(c) && Aligned(Value(), c)
      modifies this
      ensures Value() == ReplayRows(old(Value()), c, Touched(rows), Rebuilt(rows))
      ensures Aligned(Value(), c)
    {
      var touched := CollectTouched(rows);
      RebuiltAreTouched(rows);
      var ids := Enumerate(touched.Keys);
      var rebuild := set k | k in touched && touched[k];
      assert rebuild == Rebuilt(rows) by {
        forall k ensures k in rebuild <==> k in Rebuilt(rows) {
          assert k in Rebuilt(rows) ==> k in touched;
        }
      }
      assert AsSet(ids) * rebuild == rebuild;
      ProcessAll(c, ids, rebuild);
    }

    method RefreshAll(c: Content)
      requires ContentInvariant(c) && Aligned(Value(), c)
      modifies this
      ensures Value() == ReplayRows(old(Value()), c, c.chats.Keys, {})
    {
      var all := Enumerate(c.chats.Keys);
      assert AsSet(all) * {} == {};
      ProcessAll(c, all, {});
    }
  }

  /** The conversations whose summary a replay refreshes. */
  ghost function Refreshed(c: Content, rows: seq<WorkRow>): set<ChatId> {
    Touched(rows) + (if HasGlobalCoverage(rows) then c.chats.Keys else {})
  }

  lemma RefreshedAtLast(c: Content, rows: seq<WorkRow>)
    ensures Refreshed(c, rows) == if HasGlobalCoverage(rows) then Touched(rows) + c.chats.Keys else Touched(rows)
  {
  }

  /** Two passes are one, with the sets joined. */
  lemma TwoPasses(t: Tables, v: Tables, c: Content, refresh: set<ChatId>, rebuild: set<ChatId>,
                  refresh': set<ChatId>, rebuild': set<ChatId>, refreshAll: set<ChatId>, rebuildAll: set<ChatId>)
    requires v == ReplayRows(t, c, refresh, rebuild) && Aligned(v, c)
    requires refresh !! rebuild' && rebuild <= refresh && rebuild' <= refresh'
    requires refreshAll == refresh + refresh' && rebuildAll == rebuild + rebuild'
    ensures ReplayRows(v, c, refresh', rebuild') == ReplayRows(t, c, refreshAll, rebuildAll)
  {
    ReplayMore(t, c, refresh, rebuild, refresh', rebuild');
  }

  lemma GlobalPass(t: Tables, v: Tables, c: Content, touched: set<ChatId>, rebuild: set<ChatId>, all: set<ChatId>)
    requires v == ReplayRows(t, c, touched, rebuild) && Aligned(v, c) && rebuild <= touched
    ensures ReplayRows(v, c, all, {}) == ReplayRows(t, c, touched + all, rebuild)
  {
    NothingMore(touched, rebuild, all);
    TwoPasses(t, v, c, touched, rebuild, all, {}, touched + all, rebuild);
  }

  lemma NothingMore(touched: set<ChatId>, rebuild: set<ChatId>, all: set<ChatId>)
    ensures touched !! {} && {} <= all && rebuild + {} == rebuild
  {
  }

  lemma NextBatch(t: Tables, v: Tables, c: Content, ids: seq<ChatId>, i: nat, j: nat, rebuild: set<ChatId>)
    requires i <= j <= |ids| && forall a, b :: 0 <= a < b < |ids| ==> ids[a] != ids[b]
    requires v == ReplayRows(t, c, AsSet(ids[..i]), AsSet(ids[..i]) * rebuild) && Aligned(v, c)
    ensures ReplayRows(v, c, AsSet(ids[i..j]), AsSet(ids[i..j]) * rebuild)
            == ReplayRows(t, c, AsSet(ids[..j]), AsSet(ids[..j]) * rebuild)
  {
    var (done, next, both) := (AsSet(ids[..i]), AsSet(ids[i..j]), AsSet(ids[..j]));
    DisjointTake(ids, i, j);
    TakeMore(ids, i, j);
    TwoPasses(t, v, c, done, done * rebuild, next, next * rebuild, both, both * rebuild);
  }

  lemma OneMoreTouched(rows: seq<WorkRow>, row: WorkRow)
    ensures Touched(rows + [row]) == Touched(rows) + (if row.conversation.Some? then {row.conversation.value} else {})
    ensures Rebuilt(rows + [row]) == Rebuilt(rows) + (if row.conversation.Some? && !row.kind.CoverageWork?
                                                      then {row.conversation.value} else {})
  {
    var all := rows + [row];
    assert all[|rows|] == row;
    assert forall i :: 0 <= i < |rows| ==> all[i] == rows[i];
    forall k | k in Touched(rows) ensures k in Touched(all) {
      var i :| 0 <= i < |rows| && rows[i].conversation.Some? && k == rows[i].conversation.value;
      assert all[i] == rows[i];
    }
    forall k | k in Rebuilt(rows) ensures k in Rebuilt(all) {
      var i :| 0 <= i < |rows| && rows[i].conversation.Some? && !rows[i].kind.CoverageWork? && k == rows[i].conversation.value;
      assert all[i] == rows[i];
    }
  }

  lemma RebuiltAreTouched(rows: seq<WorkRow>)
    ensures Rebuilt(rows) <= Touched(rows)
  {
  }

  lemma NothingTaken(ids: seq<ChatId>, rebuild: set<ChatId>)
    ensures AsSet(ids[..0]) == {} && AsSet(ids[..0]) * rebuild == {}
  {
  }

  lemma EverythingTaken(ids: seq<ChatId>)
    ensures AsSet(ids[..|ids|]) == AsSet(ids)
  {
  }

  lemma DisjointTake<T>(ids: seq<T>, i: nat, j: nat)
    requires i <= j <= |ids|
    requires forall i, j :: 0 <= i < j < |ids| ==> ids[i] != ids[j]
    ensures AsSet(ids[..i]) !! AsSet(ids[i..j])
  {
  }

  lemma ReplayNothing(t: Tables, c: Content)
    ensures ReplayRows(t, c, {}, {}) == t
  {
    var r := ReplayRows(t, c, {}, {});
    ReplaceNothing(t.messages, AllMessages(c));
    ReplaceNothing(t.analyses, AllAnalyses(c));
    ReplaceNothing(t.conversationNodes, AllConversationNodes(c));
    ReplaceNothing(t.messageNodes, AllMessageNodes(c));
    ReplaceNothing(t.edges, AllEdges(c));
    RefreshNothing(t.summaries, c, Replace(t.messages, AllMessages(c), {}));
    assert r.summaries == t.summaries && r.messages == t.messages && r.analyses == t.analyses;
    assert r.conversationNodes == t.conversationNodes && r.messageNodes == t.messageNodes && r.edges == t.edges;
  }

  lemma RefreshNothing(summaries: map<ChatId, Summary>, c: Content, messages: map<MessageId, Row<Text>>)
    ensures RefreshSummaries(summaries, c, messages, {}, {}) == summaries
  {
  }

  lemma ReplaceNothing<I, R>(rows: map<I, Row<R>>, full: map<I, Row<R>>)
    ensures Replace(rows, full, {}) == rows
  {
  }

  lemma BatchIsReplay(t: Tables, c: Content, refresh: set<ChatId>, rebuild: set<ChatId>, live: set<ChatId>, ks: set<ChatId>)
    requires ContentInvariant(c) && rebuild <= refresh
    requires live == refresh * c.chats.Keys && ks == rebuild * c.chats.Keys
    ensures PutSummaries(Insert(PutSummaries(DeleteRows(t, rebuild), c, ks), c, ks, MessagesOf(c, ks)), c, live)
            == ReplayRows(t, c, refresh, rebuild)
  {
    var t1 := DeleteRows(t, rebuild);
    ProvisionalIsOverwritten(t1, c, ks, MessagesOf(c, ks), live);
    LiveOnly(t1, c, rebuild);
    PutLiveOnly(Insert(t1, c, rebuild, MessagesOf(c, rebuild)), c, refresh);
    ProcessIsReplay(t, c, refresh, rebuild);
  }

  lemma InTheSet<T>(rows: seq<T>)
    ensures forall x :: x in rows ==> x in AsSet(rows)
    ensures forall j :: 0 <= j < |rows| ==> rows[j] in AsSet(rows)
  {
  }

  lemma LiveOf(c: Content, ids: seq<ChatId>, live: seq<ChatId>)
    requires AsSet(live) == set k | k in ids && k in c.chats
    ensures AsSet(live) == AsSet(ids) * c.chats.Keys && forall k :: k in live ==> k in c.chats
  {
    InTheSet(live);
  }

  lemma NoSummaries(c: Content, messages: map<MessageId, Row<Text>>)
    ensures SummariesFor(c, messages, {}) == map[]
  {
  }

  lemma OneSummary(c: Content, messages: map<MessageId, Row<Text>>, ks: set<ChatId>, k: ChatId)
    requires k in c.chats
    ensures SummariesFor(c, messages, ks + {k}) == SummariesFor(c, messages, ks)[k := SummaryOf(c, messages, k)]
    ensures forall s: map<ChatId, Summary> :: (s + SummariesFor(c, messages, ks))[k := SummaryOf(c, messages, k)]
                                              == s + SummariesFor(c, messages, ks + {k})
  {
  }

  lemma LiveSummaries(c: Content, messages: map<MessageId, Row<Text>>, ks: set<ChatId>)
    ensures SummariesFor(c, messages, ks * c.chats.Keys) == SummariesFor(c, messages, ks)
  {
  }

  lemma PutLiveOnly(t: Tables, c: Content, ks: set<ChatId>)
    ensures PutSummaries(t, c, ks * c.chats.Keys) == PutSummaries(t, c, ks)
  {
    LiveSummaries(c, t.messages, ks);
  }

  lemma Overwritten(summaries: map<ChatId, Summary>, c: Content, a: map<MessageId, Row<Text>>, b: map<MessageId, Row<Text>>,
                    ks: set<ChatId>, live: set<ChatId>)
    requires ks <= live
    ensures summaries + SummariesFor(c, a, ks) + SummariesFor(c, b, live) == summaries + SummariesFor(c, b, live)
  {
  }

  /** The provisional summaries, written before any message, do not survive the batch. */
  lemma ProvisionalIsOverwritten(t: Tables, c: Content, ks: set<ChatId>, ms: set<MessageId>, live: set<ChatId>)
    requires ks <= live
    ensures PutSummaries(Insert(PutSummaries(t, c, ks), c, ks, ms), c, live)
            == PutSummaries(Insert(t, c, ks, ms), c, live)
  {
    Overwritten(t.summaries, c, t.messages, Insert(t, c, ks, ms).messages, ks, live);
  }

  /** After the deletion no message or analysis of a rebuilt conversation is left, so plain inserts succeed. */
  lemma NothingLeft(t: Tables, c: Content, rebuild: set<ChatId>, ks: set<ChatId>)
    requires Aligned(t, c) && ks <= rebuild
    ensures forall m :: m in MessagesOf(c, ks) ==>
              m !in DeleteRows(t, rebuild).messages && m !in DeleteRows(t, rebuild).analyses
  {
  }

  lemma InsertedKeys(t: Tables, c: Content, ks: set<ChatId>, ms: set<MessageId>)
    ensures forall m :: m in Insert(t, c, ks, ms).messages ==> m in t.messages || m in ms
    ensures forall m :: m in Insert(t, c, ks, ms).analyses ==> m in t.analyses || m in ms
  {
  }

  /** Messages of live conversations. */
  ghost predicate Selected(c: Content, conversations: seq<ChatId>, ids: seq<MessageId>) {
    && (forall k :: k in conversations ==> k in c.chats)
    && (forall i :: 0 <= i < |ids| ==> ids[i] in c.messages && c.messages[ids[i]].chat in conversations)
  }

  lemma NextIsReady(t: Tables, v: Tables, c: Content, conversations: seq<ChatId>, rows: seq<MessageId>, i: nat, j: nat)
    requires Selected(c, conversations, rows) && i <= j <= |rows|
    requires InsertedUpTo(t, v, c, AsSet(conversations), rows, i)
    ensures Selected(c, conversations, rows[i..j])
    ensures forall n :: 0 <= n < |rows[i..j]| ==> rows[i..j][n] !in v.messages && rows[i..j][n] !in v.analyses
  {
    var next := rows[i..j];
    forall n | 0 <= n < |next|
      ensures next[n] in c.messages && c.messages[next[n]].chat in conversations
              && next[n] !in v.messages && next[n] !in v.analyses
    {
      assert next[n] == rows[i + n];
    }
  }

  lemma RecordsAreSelected(c: Content, conversations: seq<ChatId>, ids: seq<MessageId>, records: seq<MessageRecord>)
    requires Selected(c, conversations, ids) && Fetched(c, ids, records)
    ensures forall i :: 0 <= i < |records| ==> records[i].chat in conversations
  {
    forall i | 0 <= i < |records| ensures records[i].chat in conversations {
      assert records[i] == c.messages[ids[i]];
    }
  }

  /** The first `i` messages have been inserted, the others have no rows yet. */
  ghost predicate InsertedUpTo(t: Tables, v: Tables, c: Content, ks: set<ChatId>, rows: seq<MessageId>, i: nat) {
    && i <= |rows| && v == Insert(t, c, ks, AsSet(rows[..i]))
    && forall n :: i <= n < |rows| ==> rows[n] !in v.messages && rows[n] !in v.analyses
  }

  /** What one more batch of messages leaves to be inserted. */
  lemma NextMessages(t: Tables, v: Tables, c: Content, ks: set<ChatId>, rows: seq<MessageId>, i: nat, j: nat)
    requires i <= j <= |rows| && forall m, n :: 0 <= m < n < |rows| ==> rows[m] != rows[n]
    requires InsertedUpTo(t, v, c, ks, rows, i)
    ensures InsertedUpTo(t, Insert(v, c, ks, AsSet(rows[i..j])), c, ks, rows, j)
  {
    InsertMore(t, c, ks, AsSet(rows[..i]), AsSet(rows[i..j]));
    TakeMore(rows, i, j);
    InsertedKeys(v, c, ks, AsSet(rows[i..j]));
    forall n | j <= n < |rows| ensures rows[n] !in AsSet(rows[i..j]) {
    }
  }

  lemma TakeMore<T>(rows: seq<T>, i: nat, j: nat)
    requires i <= j <= |rows|
    ensures AsSet(rows[..j]) == AsSet(rows[..i]) + AsSet(rows[i..j])
  {
  }

  lemma AllSelected(c: Content, conversations: seq<ChatId>, rows: seq<MessageId>)
    requires AsSet(rows) == MessagesOf(c, AsSet(conversations))
    ensures forall i :: 0 <= i < |rows| ==> rows[i] in c.messages && c.messages[rows[i]].chat in conversations
    ensures forall i :: 0 <= i < |rows| ==> rows[i] in MessagesOf(c, AsSet(conversations))
  {
    forall i | 0 <= i < |rows| ensures rows[i] in MessagesOf(c, AsSet(conversations)) {
      assert rows[i] in AsSet(rows);
    }
  }

  /** The live messages of the given conversations, each once. */
  method SelectMessages(c: Content, conversations: seq<ChatId>) returns (rows: seq<MessageId>)
    ensures AsSet(rows) == MessagesOf(c, AsSet(conversations))
    ensures forall i, j :: 0 <= i < j < |rows| ==> rows[i] != rows[j]
  {
    var ks := set k | k in conversations;
    rows := Enumerate(set m | m in c.messages && c.messages[m].chat in ks);
  }

  method Enumerate<T(==)>(s: set<T>) returns (rows: seq<T>)
    ensures AsSet(rows) == s
    ensures forall i, j :: 0 <= i < j < |rows| ==> rows[i] != rows[j]
  {
    rows := [];
    var rest := s;
    while rest != {}
      invariant AsSet(rows) !! rest && AsSet(rows) + rest == s
      invariant forall i, j :: 0 <= i < j < |rows| ==> rows[i] != rows[j]
      decreases |rest|
    {
      var x :| x in rest;
      rest := rest - {x};
      rows := rows + [x];
    }
  }
}
