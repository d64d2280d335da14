/** Building one slot in bounded batches: whatever the batch sizes, the rows end up as one set-level replay. */
module ProjectionBuild {
  import opened Sequences
  import opened CanonicalModel
  import opened ProjectionTables

  const PROJECTION_BATCH_SIZE := 256
  const CONVERSATION_BATCH_SIZE := 64

  // ----- what each statement does to the tables -----

  function AsSet<T>(s: seq<T>): set<T> { set x | x in s }

  lemma SameElements(a: seq<ChatId>, b: seq<ChatId>)
    requires forall x :: x in a <==> x in b
    ensures AsSet(a) == AsSet(b)
  {
    forall x | x in AsSet(a) ensures x in AsSet(b) {
      assert x in a;
    }
    forall x | x in AsSet(b) ensures x in AsSet(a) {
      assert x in b;
    }
  }

  function DeleteRows(t: Tables, ks: set<ChatId>): Tables {
    Tables(t.summaries - ks, Without(t.messages, ks), Without(t.analyses, ks), Without(t.conversationNodes, ks),
           Without(t.messageNodes, ks), Without(t.edges, ks), t.analytics)
  }

  /** One row for each of the messages in `ms`. */
  function PerMessageIn<R>(c: Content, row: MessageRecord -> Row<R>, ms: set<MessageId>): map<MessageId, Row<R>> {
    map m | m in ms && m in c.messages :: row(c.messages[m])
  }

  function EdgeIdsIn(c: Content, ms: set<MessageId>): set<EdgeId> {
    set m | m in ms && m in c.messages :: EdgeId(c.messages[m].chat, m)
  }

  function EdgesIn(c: Content, ms: set<MessageId>): map<EdgeId, Row<()>> {
    map id | id in EdgeIdsIn(c, ms) :: Row(id.source, ())
  }

  function ConversationNodesIn(c: Content, ks: set<ChatId>): map<ChatId, Row<ChatInfo>> {
    map k | k in ks && k in c.chats :: ConversationNodeRow(k, c.chats[k])
  }

  /** The tables after the nodes of `ks` and everything about the messages `ms` has been inserted. */
  function Insert(t: Tables, c: Content, ks: set<ChatId>, ms: set<MessageId>): Tables {
    t.(messages := t.messages + PerMessageIn(c, TextRow, ms),
       analyses := t.analyses + PerMessageIn(c, AnalysisRow, ms),
       conversationNodes := t.conversationNodes + ConversationNodesIn(c, ks),
       messageNodes := t.messageNodes + PerMessageIn(c, MessageNodeRow, ms),
       edges := t.edges + EdgesIn(c, ms))
  }

  ghost function SummariesFor(c: Content, messages: map<MessageId, Row<Text>>, ks: set<ChatId>): map<ChatId, Summary> {
    map k | k in ks && k in c.chats :: SummaryOf(c, messages, k)
  }

  ghost function PutSummaries(t: Tables, c: Content, ks: set<ChatId>): Tables {
    t.(summaries := t.summaries + SummariesFor(c, t.messages, ks))
  }

  function MessagesOf(c: Content, ks: set<ChatId>): set<MessageId> {
    set m | m in c.messages && c.messages[m].chat in ks
  }

  /** Rows of the slot and messages of the content that share an identifier share the conversation. */
  ghost predicate Aligned(t: Tables, c: Content) {
    && (forall m :: m in t.messages && m in c.messages ==> t.messages[m].conversation == c.messages[m].chat)
    && (forall m :: m in t.analyses && m in c.messages ==> t.analyses[m].conversation == c.messages[m].chat)
  }

  // ----- the projection pipeline -----

  datatype Batch = Batch(analyses: seq<(MessageId, Row<Analysis>)>,
                         conversationNodes: seq<(ChatId, Row<ChatInfo>)>,
                         messageNodes: seq<(MessageId, Row<MessageDocument>)>,
                         edges: seq<(EdgeId, Row<()>)>)

  /** `rows` holds one row for each message, in order, keyed by message. */
  ghost predicate RowsFor<R>(rows: seq<(MessageId, Row<R>)>, messages: seq<MessageRecord>, row: MessageRecord -> Row<R>) {
    |rows| == |messages| && forall i :: 0 <= i < |rows| ==> rows[i] == (messages[i].id, row(messages[i]))
  }

  ghost predicate NodesFor(rows: seq<(ChatId, Row<ChatInfo>)>, c: Content, conversations: seq<ChatId>) {
    && |rows| == |conversations|
    && forall i :: 0 <= i < |rows| ==>
         conversations[i] in c.chats
         && rows[i] == (conversations[i], ConversationNodeRow(conversations[i], c.chats[conversations[i]]))
  }

  ghost predicate EdgesFor(rows: seq<(EdgeId, Row<()>)>, messages: seq<MessageRecord>) {
    && |rows| == |messages|
    && forall i :: 0 <= i < |rows| ==> rows[i] == (EdgeId(messages[i].chat, messages[i].id), Row(messages[i].chat, ()))
  }

  /** Every edge has both of its nodes in the same batch. */
  ghost predicate Linked(b: Batch) {
    forall i :: 0 <= i < |b.edges| ==> HasBothNodes(b, b.edges[i].0)
  }

  ghost predicate HasBothNodes(b: Batch, id: EdgeId) {
    && (exists j :: 0 <= j < |b.messageNodes| && b.messageNodes[j].0 == id.target)
    && (exists j :: 0 <= j < |b.conversationNodes| && b.conversationNodes[j].0 == id.source)
  }

  predicate ByIdentifier(a: ChatId, b: ChatId) { a <= b }

  predicate ByMessage(a: MessageRecord, b: MessageRecord) { a.id <= b.id }

  /** One node for each conversation; one analysis, one node and one edge for each message; all in the order of
      their identifiers, and every edge with both of its nodes. */
  ghost predicate Projected(b: Batch, c: Content, conversations: seq<ChatId>, messages: seq<MessageRecord>) {
    && NodesFor(b.conversationNodes, c, SortBy(conversations, ByIdentifier))
    && RowsFor(b.analyses, SortBy(messages, ByMessage), AnalysisRow)
    && RowsFor(b.messageNodes, SortBy(messages, ByMessage), MessageNodeRow)
    && EdgesFor(b.edges, SortBy(messages, ByMessage))
    && Linked(b)
  }

  lemma BatchIsLinked(b: Batch, c: Content, conversations: seq<ChatId>, messages: seq<MessageRecord>)
    requires NodesFor(b.conversationNodes, c, conversations) && RowsFor(b.messageNodes, messages, MessageNodeRow)
    requires EdgesFor(b.edges, messages)
    requires forall i :: 0 <= i < |messages| ==> messages[i].chat in conversations
    ensures Linked(b)
  {
  }

  lemma ConversationsInOrder(conversations: seq<ChatId>, ks: seq<ChatId>)
    requires ks == SortBy(conversations, ByIdentifier)
    ensures forall k :: k in ks <==> k in conversations
    ensures forall i, j :: 0 <= i < j < |ks| ==> ks[i] <= ks[j]
  {
    SortByHasTheSame(conversations, ByIdentifier);
    SortByAscends(conversations, ByIdentifier);
    assert Ascending(ks, ByIdentifier);
  }

  lemma MessagesInOrder(messages: seq<MessageRecord>, ms: seq<MessageRecord>)
    requires ms == SortBy(messages, ByMessage)
    ensures forall m :: m in ms <==> m in messages
    ensures forall i, j :: 0 <= i < j < |ms| ==> ms[i].id <= ms[j].id
  {
    SortByHasTheSame(messages, ByMessage);
    SortByAscends(messages, ByMessage);
    assert Ascending(ms, ByMessage);
  }

  lemma ChatsAreKnown(conversations: seq<ChatId>, messages: seq<MessageRecord>, ks: seq<ChatId>, ms: seq<MessageRecord>)
    requires forall i :: 0 <= i < |messages| ==> messages[i].chat in conversations
    requires (forall k :: k in ks <==> k in conversations) && (forall m :: m in ms <==> m in messages)
    ensures forall m :: m in ms ==> m.chat in ks
  {
  }

  method Project(c: Content, conversations: seq<ChatId>, messages: seq<MessageRecord>) returns (b: Batch)
    requires forall k :: k in conversations ==> k in c.chats
    requires forall i :: 0 <= i < |messages| ==> messages[i].chat in conversations
    ensures Projected(b, c, conversations, messages)
    ensures forall i, j :: 0 <= i < j < |b.conversationNodes| ==> b.conversationNodes[i].0 <= b.conversationNodes[j].0
    ensures forall i, j :: 0 <= i < j < |b.analyses| ==> b.analyses[i].0 <= b.analyses[j].0
  {
    var (ks, ms) := (SortBy(conversations, ByIdentifier), SortBy(messages, ByMessage));
    ConversationsInOrder(conversations, ks);
    MessagesInOrder(messages, ms);
    ChatsAreKnown(conversations, messages, ks, ms);
    b := ProjectInOrder(c, ks, ms);
  }

  /** The two loops, over what has been put in order. */
  method ProjectInOrder(c: Content, conversations: seq<ChatId>, messages: seq<MessageRecord>) returns (b: Batch)
    requires forall k :: k in conversations ==> k in c.chats
    requires forall m :: m in messages ==> m.chat in conversations
    ensures NodesFor(b.conversationNodes, c, conversations)
    ensures RowsFor(b.analyses, messages, AnalysisRow) && RowsFor(b.messageNodes, messages, MessageNodeRow)
    ensures EdgesFor(b.edges, messages) && Linked(b)
  {
    var nodes: seq<(ChatId, Row<ChatInfo>)> := [];
    var known: set<ChatId> := {};
    for i := 0 to |conversations|
      invariant NodesFor(nodes, c, conversations[..i])
      invariant known == AsSet(conversations[..i])
    {
      nodes := nodes + [(conversations[i], ConversationNodeRow(conversations[i], c.chats[conversations[i]]))];
      known := known + {conversations[i]};
    }
    assert conversations[..|conversations|] == conversations;
    var analyses: seq<(MessageId, Row<Analysis>)> := [];
    var messageNodes: seq<(MessageId, Row<MessageDocument>)> := [];
    var edges: seq<(EdgeId, Row<()>)> := [];
    for i := 0 to |messages|
      invariant RowsFor(analyses, messages[..i], AnalysisRow)
      invariant RowsFor(messageNodes, messages[..i], MessageNodeRow)
      invariant EdgesFor(edges, messages[..i])
    {
      var m := messages[i];
      assert m.chat in known;
      analyses := analyses + [(m.id, AnalysisRow(m))];
      messageNodes := messageNodes + [(m.id, MessageNodeRow(m))];
      edges := edges + [(EdgeId(m.chat, m.id), Row(m.chat, ()))];
    }
    assert messages[..|messages|] == messages;
    b := Batch(analyses, nodes, messageNodes, edges);
    BatchIsLinked(b, c, conversations, messages);
  }

  // ----- executemany -----

  /** Insert or replace the rows one after the other. */
  function PutAll<I, R>(table: map<I, R>, rows: seq<(I, R)>): map<I, R> {
    if rows == [] then table else PutAll(table, rows[..|rows| - 1])[rows[|rows| - 1].0 := rows[|rows| - 1].1]
  }

  lemma {:induction false} PutAllRows<I, R>(table: map<I, R>, rows: seq<(I, R)>, i: I)
    ensures (i in PutAll(table, rows)) <==> i in table || exists j :: 0 <= j < |rows| && rows[j].0 == i
    ensures i in PutAll(table, rows) ==>
              if exists j :: 0 <= j < |rows| && rows[j].0 == i
              then exists j :: 0 <= j < |rows| && rows[j] == (i, PutAll(table, rows)[i])
              else i in table && PutAll(table, rows)[i] == table[i]
  {
    if rows != [] {
      var n := |rows| - 1;
      PutAllRows(table, rows[..n], i);
      if i == rows[n].0 {
        assert rows[n] == (i, PutAll(table, rows)[i]);
      } else if exists j :: 0 <= j < |rows| && rows[j].0 == i {
        var j :| 0 <= j < |rows| && rows[j].0 == i;
        assert rows[..n][j].0 == i;
      }
    }
  }

  /** The records of the messages `ids` in the content. */
  ghost predicate Fetched(c: Content, ids: seq<MessageId>, messages: seq<MessageRecord>) {
    && |messages| == |ids|
    && forall i :: 0 <= i < |ids| ==> ids[i] in c.messages && messages[i] == c.messages[ids[i]] && messages[i].id == ids[i]
  }

  function Records(c: Content, ids: seq<MessageId>): (messages: seq<MessageRecord>)
    requires ContentInvariant(c) && forall i :: 0 <= i < |ids| ==> ids[i] in c.messages
    ensures Fetched(c, ids, messages)
  {
    seq(|ids|, i requires 0 <= i < |ids| => c.messages[ids[i]])
  }

  lemma FetchedRecord(c: Content, ids: seq<MessageId>, messages: seq<MessageRecord>, m: MessageRecord)
    requires Fetched(c, ids, messages) && m in messages
    ensures m.id in ids && m.id in c.messages && m == c.messages[m.id]
  {
  }

  /** The same messages in the order of their identifiers. */
  lemma FetchedInOrder(c: Content, ids: seq<MessageId>, messages: seq<MessageRecord>) returns (ids': seq<MessageId>)
    requires Fetched(c, ids, messages)
    ensures Fetched(c, ids', SortBy(messages, ByMessage)) && AsSet(ids') == AsSet(ids)
  {
    var sorted := SortBy(messages, ByMessage);
    MessagesInOrder(messages, sorted);
    ids' := seq(|sorted|, i requires 0 <= i < |sorted| => sorted[i].id);
    forall i | 0 <= i < |sorted|
      ensures ids'[i] in ids && ids'[i] in c.messages && sorted[i] == c.messages[ids'[i]]
    {
      FetchedRecord(c, ids, messages, sorted[i]);
    }
    forall i | 0 <= i < |ids| ensures ids[i] in ids' {
      assert messages[i] in sorted;
      var j :| 0 <= j < |sorted| && sorted[j] == messages[i];
      assert ids'[j] == ids[i];
    }
    SameElements(ids', ids);
  }

  lemma PutMessageRows<R>(table: map<MessageId, Row<R>>, c: Content, ids: seq<MessageId>, messages: seq<MessageRecord>,
                          row: MessageRecord -> Row<R>, rows: seq<(MessageId, Row<R>)>)
    requires Fetched(c, ids, messages) && RowsFor(rows, messages, row)
    ensures PutAll(table, rows) == table + PerMessageIn(c, row, AsSet(ids))
  {
    var (a, b) := (PutAll(table, rows), table + PerMessageIn(c, row, AsSet(ids)));
    forall m: MessageId
      ensures (m in a <==> m in b) && (m in a ==> a[m] == b[m])
    {
      PutAllRows(table, rows, m);
      if m in ids {
        var j :| 0 <= j < |ids| && ids[j] == m;
        assert rows[j].0 == m;
      }
    }
  }

  lemma PutEdgeRows(table: map<EdgeId, Row<()>>, c: Content, ids: seq<MessageId>, messages: seq<MessageRecord>,
                    rows: seq<(EdgeId, Row<()>)>)
    requires Fetched(c, ids, messages) && EdgesFor(rows, messages)
    ensures PutAll(table, rows) == table + EdgesIn(c, AsSet(ids))
  {
    var (a, b) := (PutAll(table, rows), table + EdgesIn(c, AsSet(ids)));
    forall id: EdgeId
      ensures (id in a <==> id in b) && (id in a ==> a[id] == b[id])
    {
      PutAllRows(table, rows, id);
      if id in EdgeIdsIn(c, AsSet(ids)) {
        var j :| 0 <= j < |ids| && id == EdgeId(c.messages[ids[j]].chat, ids[j]);
        assert rows[j].0 == id;
      }
      if exists j :: 0 <= j < |rows| && rows[j].0 == id {
        var j :| 0 <= j < |rows| && rows[j].0 == id;
        assert id == EdgeId(c.messages[ids[j]].chat, ids[j]) && ids[j] in AsSet(ids);
      }
    }
  }

  lemma PutNodeRows(table: map<ChatId, Row<ChatInfo>>, c: Content, conversations: seq<ChatId>,
                    rows: seq<(ChatId, Row<ChatInfo>)>)
    requires NodesFor(rows, c, conversations)
    ensures PutAll(table, rows) == table + ConversationNodesIn(c, AsSet(conversations))
  {
    var (a, b) := (PutAll(table, rows), table + ConversationNodesIn(c, AsSet(conversations)));
    forall k: ChatId
      ensures (k in a <==> k in b) && (k in a ==> a[k] == b[k])
    {
      PutAllRows(table, rows, k);
      if k in conversations {
        var j :| 0 <= j < |conversations| && conversations[j] == k;
        assert rows[j].0 == k;
      }
    }
  }

  /** Putting a projected batch puts the rows of its messages and conversations. */
  lemma PutProjected(t: Tables, c: Content, conversations: seq<ChatId>, ids: seq<MessageId>, messages: seq<MessageRecord>, b: Batch)
    requires Fetched(c, ids, messages) && Projected(b, c, conversations, messages)
    ensures PutAll(t.analyses, b.analyses) == t.analyses + PerMessageIn(c, AnalysisRow, AsSet(ids))
    ensures PutAll(t.messageNodes, b.messageNodes) == t.messageNodes + PerMessageIn(c, MessageNodeRow, AsSet(ids))
    ensures PutAll(t.edges, b.edges) == t.edges + EdgesIn(c, AsSet(ids))
    ensures forall i :: 0 <= i < |b.analyses| ==> b.analyses[i].0 in AsSet(ids)
  {
    var sorted := SortBy(messages, ByMessage);
    var ids' := FetchedInOrder(c, ids, messages);
    PutMessageRows(t.analyses, c, ids', sorted, AnalysisRow, b.analyses);
    PutMessageRows(t.messageNodes, c, ids', sorted, MessageNodeRow, b.messageNodes);
    PutEdgeRows(t.edges, c, ids', sorted, b.edges);
    assert forall i :: 0 <= i < |b.analyses| ==> b.analyses[i].0 == ids'[i] && ids'[i] in AsSet(ids');
  }

  lemma PutProjectedNodes(table: map<ChatId, Row<ChatInfo>>, c: Content, conversations: seq<ChatId>,
                          messages: seq<MessageRecord>, b: Batch)
    requires Projected(b, c, conversations, messages)
    ensures PutAll(table, b.conversationNodes) == table + ConversationNodesIn(c, AsSet(conversations))
  {
    var ks := SortBy(conversations, ByIdentifier);
    ConversationsInOrder(conversations, ks);
    PutNodeRows(table, c, ks, b.conversationNodes);
    SameElements(ks, conversations);
  }
}
