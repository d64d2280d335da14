/** The read model of one account: what a full projection holds, and what replaying work rows makes of
    an older one. */
module ProjectionTables {
  import opened Options
  import opened CanonicalModel
  import opened EntityMerge
  import opened CoverageModel
  import opened CanonicalRun

  // ----- the canonical content a projection is built from -----

  datatype ChatInfo = ChatInfo(platformUser: Option<string>, displayName: Option<string>)

  datatype Content = Content(chats: map<ChatId, ChatInfo>,
                             messages: map<MessageId, MessageRecord>,
                             generation: Option<GenerationId>,
                             closedAt: Option<Timestamp>,
                             complete: bool,
                             members: map<ChatId, Member>)

  /** The rows of the active generation, by conversation. */
  function ActiveMembers(cov: Coverage): map<ChatId, Member> {
    if cov.active.None? then map[]
    else
      var conversations := set key | key in cov.members && key.0 == cov.active.value :: key.1;
      map k | k in conversations && (cov.active.value, k) in cov.members :: cov.members[(cov.active.value, k)]
  }

  function View(c: Canon): Content {
    var e := c.entities;
    var cov := c.coverage;
    var g := if cov.active.Some? && cov.active.value in cov.generations
             then Some(cov.generations[cov.active.value]) else None;
    Content(map k | k in e.chats && !e.chats[k].deleted ::
              ChatInfo(e.chats[k].record.platformUser, e.chats[k].record.displayName),
            map m | m in e.messages && !e.messages[m].deleted :: e.messages[m].record,
            cov.active,
            if g.Some? then g.value.closedAt else None,
            g.Some? && g.value.state.Complete?,
            ActiveMembers(cov))
  }

  ghost predicate ContentInvariant(c: Content) {
    forall m :: m in c.messages ==> c.messages[m].id == m && c.messages[m].chat in c.chats
  }

  // ----- the tables of one slot -----

  datatype Sentiment = Unknown
  datatype CoverageStatus = StatusUnknown | StatusPartial | StatusComplete
  datatype CoverageReason = NoReason | NotObserved | HeadNotReconciled

  datatype CoverageDocument = CoverageDocument(status: CoverageStatus, historyStart: bool,
                                               earliest: Option<Timestamp>, latest: Option<Timestamp>,
                                               dataAsOf: Option<Timestamp>, reason: CoverageReason)

  /** A row that belongs to one conversation. */
  datatype Row<+R> = Row(conversation: ChatId, data: R)

  datatype Text = Text(text: string, sentAt: Timestamp, direction: Direction, sentiment: Sentiment)
  datatype Analysis = Analysis(source: MessageRecord, available: bool, sentiment: Sentiment)
  datatype MessageDocument = MessageDocument(sentAt: Timestamp, direction: Direction)
  /** The edge from a conversation node to a message node. */
  datatype EdgeId = EdgeId(source: ChatId, target: MessageId)
  datatype Latest = Latest(id: MessageId, text: Text)
  datatype Summary = Summary(info: ChatInfo, latest: Option<Latest>, coverage: CoverageDocument)
  datatype Analytics = Analytics(conversations: nat, messages: nat, inbound: nat, outbound: nat, complete: bool)

  /** Node and edge identifiers are injective in kind and entity, so the node table is kept by kind and entity. */
  datatype Tables = Tables(summaries: map<ChatId, Summary>,
                           messages: map<MessageId, Row<Text>>,
                           analyses: map<MessageId, Row<Analysis>>,
                           conversationNodes: map<ChatId, Row<ChatInfo>>,
                           messageNodes: map<MessageId, Row<MessageDocument>>,
                           edges: map<EdgeId, Row<()>>,
                           analytics: Option<Analytics>)

  const NO_TABLES := Tables(map[], map[], map[], map[], map[], map[], None)

  function TextRow(m: MessageRecord): Row<Text> { Row(m.chat, Text(m.text, m.sentAt, m.direction, Unknown)) }

  function AnalysisRow(m: MessageRecord): Row<Analysis> { Row(m.chat, Analysis(m, false, Unknown)) }

  function ConversationNodeRow(k: ChatId, info: ChatInfo): Row<ChatInfo> { Row(k, info) }

  function MessageNodeRow(m: MessageRecord): Row<MessageDocument> {
    Row(m.chat, MessageDocument(m.sentAt, m.direction))
  }

  function ConversationCoverage(member: Option<Member>, generationExists: bool,
                                closedAt: Option<Timestamp>): CoverageDocument {
    if member.None? || member.value.historyStarted.None? then
      CoverageDocument(if generationExists then StatusPartial else StatusUnknown, false,
                       if member.None? then None else member.value.earliest,
                       if member.None? then None else member.value.headReconciled,
                       closedAt, NotObserved)
    else
      var complete := member.value.headReconciled.Some?;
      CoverageDocument(if complete then StatusComplete else StatusPartial, true,
                       member.value.earliest, member.value.headReconciled,
                       if closedAt.Some? then closedAt else member.value.historyStarted,
                       if complete then NoReason else HeadNotReconciled)
  }

  function MemberOf(c: Content, k: ChatId): Option<Member> {
    if c.generation.Some? && k in c.members then Some(c.members[k]) else None
  }

  function CoverageOf(c: Content, k: ChatId): CoverageDocument {
    ConversationCoverage(MemberOf(c, k), c.generation.Some?, c.closedAt)
  }

  /** Position 1 when a conversation's messages are ranked by time, then identifier, descending. */
  ghost predicate IsLatest(messages: map<MessageId, Row<Text>>, k: ChatId, m: MessageId) {
    && m in messages && messages[m].conversation == k
    && forall n :: n in messages && messages[n].conversation == k ==>
         messages[n].data.sentAt < messages[m].data.sentAt
         || (messages[n].data.sentAt == messages[m].data.sentAt && n <= m)
  }

  ghost function LatestOf(messages: map<MessageId, Row<Text>>, k: ChatId): Option<Latest> {
    if m :| IsLatest(messages, k, m) then Some(Latest(m, messages[m].data)) else None
  }

  ghost function SummaryOf(c: Content, messages: map<MessageId, Row<Text>>, k: ChatId): Summary
    requires k in c.chats
  {
    Summary(c.chats[k], LatestOf(messages, k), CoverageOf(c, k))
  }

  function AnalyticsOf(c: Content): Analytics {
    Analytics(|c.chats|, |c.messages|,
              |set m | m in c.messages && c.messages[m].direction.Inbound?|,
              |set m | m in c.messages && c.messages[m].direction.Outbound?|,
              c.complete)
  }

  // ----- the full projection -----

  /** One row for every live message. */
  function PerMessage<R>(c: Content, row: MessageRecord -> Row<R>): map<MessageId, Row<R>> {
    map m | m in c.messages && c.messages[m].chat in c.chats :: row(c.messages[m])
  }

  function AllMessages(c: Content): map<MessageId, Row<Text>> { PerMessage(c, TextRow) }
  function AllAnalyses(c: Content): map<MessageId, Row<Analysis>> { PerMessage(c, AnalysisRow) }
  function AllMessageNodes(c: Content): map<MessageId, Row<MessageDocument>> { PerMessage(c, MessageNodeRow) }

  function AllConversationNodes(c: Content): map<ChatId, Row<ChatInfo>> {
    map k | k in c.chats :: ConversationNodeRow(k, c.chats[k])
  }

  function EdgeIds(c: Content): set<EdgeId> {
    set m | m in c.messages && c.messages[m].chat in c.chats :: EdgeId(c.messages[m].chat, m)
  }

  function AllEdges(c: Content): map<EdgeId, Row<()>> {
    map id | id in EdgeIds(c) :: Row(id.source, ())
  }

  ghost function AllSummaries(c: Content): map<ChatId, Summary> {
    map k | k in c.chats :: SummaryOf(c, AllMessages(c), k)
  }

  ghost function Full(c: Content): Tables {
    Tables(AllSummaries(c),
           AllMessages(c), AllAnalyses(c), AllConversationNodes(c), AllMessageNodes(c), AllEdges(c), Some(AnalyticsOf(c)))
  }

  // ----- replaying work rows onto an older projection -----

  datatype WorkKind = EntityWork | CoverageWork | ReseedWork
  datatype WorkRow = WorkRow(revision: nat, kind: WorkKind, conversation: Option<ChatId>, completed: bool)

  function Without<I, R>(rows: map<I, Row<R>>, ks: set<ChatId>): map<I, Row<R>> {
    map i | i in rows && rows[i].conversation !in ks :: rows[i]
  }

  function Only<I, R>(rows: map<I, Row<R>>, ks: set<ChatId>): map<I, Row<R>> {
    map i | i in rows && rows[i].conversation in ks :: rows[i]
  }

  /** Replace the rows of the conversations in `ks`. */
  function Replace<I, R>(rows: map<I, Row<R>>, full: map<I, Row<R>>, ks: set<ChatId>): map<I, Row<R>> {
    Without(rows, ks) + Only(full, ks)
  }

  /** The summaries after rebuilding `rebuild` and rewriting the live ones of `refresh`. */
  ghost function RefreshSummaries(summaries: map<ChatId, Summary>, c: Content, messages: map<MessageId, Row<Text>>,
                                  refresh: set<ChatId>, rebuild: set<ChatId>): map<ChatId, Summary>
  {
    map k | k in (summaries.Keys - rebuild) + (refresh * c.chats.Keys) ::
      if k in refresh && k in c.chats then SummaryOf(c, messages, k) else summaries[k]
  }

  /** Rebuild the conversations in `rebuild`, then rewrite the summaries of those in `refresh` that are live. */
  ghost function Replay(t: Tables, c: Content, refresh: set<ChatId>, rebuild: set<ChatId>): Tables {
    var messages := Replace(t.messages, AllMessages(c), rebuild);
    Tables(RefreshSummaries(t.summaries, c, messages, refresh, rebuild),
           messages,
           Replace(t.analyses, AllAnalyses(c), rebuild),
           Replace(t.conversationNodes, AllConversationNodes(c), rebuild),
           Replace(t.messageNodes, AllMessageNodes(c), rebuild),
           Replace(t.edges, AllEdges(c), rebuild),
           Some(AnalyticsOf(c)))
  }

  function Touched(rows: seq<WorkRow>): set<ChatId> {
    set i | 0 <= i < |rows| && rows[i].conversation.Some? :: rows[i].conversation.value
  }

  function Rebuilt(rows: seq<WorkRow>): set<ChatId> {
    set i | 0 <= i < |rows| && rows[i].conversation.Some? && !rows[i].kind.CoverageWork? :: rows[i].conversation.value
  }

  predicate HasGlobalCoverage(rows: seq<WorkRow>) {
    exists i :: 0 <= i < |rows| && rows[i].kind.CoverageWork? && rows[i].conversation.None?
  }

  predicate HasReseed(rows: seq<WorkRow>) {
    exists i :: 0 <= i < |rows| && rows[i].kind.ReseedWork?
  }

  // ----- the frame of a work row -----

  function MessagesIn(c: Content, k: ChatId): map<MessageId, MessageRecord> {
    map m | m in c.messages && c.messages[m].chat == k :: c.messages[m]
  }

  ghost predicate SameEntities(c: Content, c': Content, k: ChatId) {
    && (k in c.chats <==> k in c'.chats)
    && (k in c.chats ==> c.chats[k] == c'.chats[k])
    && MessagesIn(c, k) == MessagesIn(c', k)
  }

  /** The row names every conversation whose projection differs between the two revisions. */
  ghost predicate Names(row: WorkRow, c: Content, c': Content) {
    match row.kind
    case ReseedWork => true
    case EntityWork =>
      row.conversation.Some?
      && forall k :: k != row.conversation.value ==> SameEntities(c, c', k) && CoverageOf(c, k) == CoverageOf(c', k)
    case CoverageWork =>
      && (forall k :: SameEntities(c, c', k))
      && (row.conversation.Some? ==>
            forall k :: k != row.conversation.value ==> CoverageOf(c, k) == CoverageOf(c', k))
  }

  // ----- replay equals rebuild -----

  lemma OnlyOne<I, R>(rows: map<I, Row<R>>, full: map<I, Row<R>>, k: ChatId, i: I)
    requires Only(rows, {k}) == Only(full, {k})
    ensures (i in rows && rows[i].conversation == k) <==> (i in full && full[i].conversation == k)
    ensures i in rows && rows[i].conversation == k ==> rows[i] == full[i]
  {
    assert i in Only(rows, {k}) <==> i in rows && rows[i].conversation == k;
    assert i in Only(full, {k}) <==> i in full && full[i].conversation == k;
    assert i in Only(rows, {k}) ==> rows[i] == Only(rows, {k})[i] == Only(full, {k})[i];
  }

  lemma ReplaceIsExact<I(!new), R>(rows: map<I, Row<R>>, full: map<I, Row<R>>, ks: set<ChatId>)
    requires forall k :: k !in ks ==> Only(rows, {k}) == Only(full, {k})
    ensures Replace(rows, full, ks) == full
  {
    forall i ensures SameBut(rows, full, ks, i) {
      SameElsewhere(rows, full, ks, i);
    }
    ReplaceTheRest(rows, full, ks);
  }

  /** Row `i` is the same in both tables, unless it belongs to one of `ks`. */
  ghost predicate SameBut<I, R>(rows: map<I, Row<R>>, full: map<I, Row<R>>, ks: set<ChatId>, i: I) {
    && ((i in rows && rows[i].conversation !in ks) <==> (i in full && full[i].conversation !in ks))
    && (i in rows && rows[i].conversation !in ks ==> rows[i] == full[i])
  }

  lemma ReplaceTheRest<I(!new), R>(rows: map<I, Row<R>>, full: map<I, Row<R>>, ks: set<ChatId>)
    requires forall i :: SameBut(rows, full, ks, i)
    ensures Replace(rows, full, ks) == full
  {
    forall i | i in full || i in Replace(rows, full, ks)
      ensures i in Replace(rows, full, ks) && i in full && Replace(rows, full, ks)[i] == full[i]
    {
      assert SameBut(rows, full, ks, i);
    }
  }

  lemma SameElsewhere<I, R>(rows: map<I, Row<R>>, full: map<I, Row<R>>, ks: set<ChatId>, i: I)
    requires forall k :: k !in ks ==> Only(rows, {k}) == Only(full, {k})
    ensures SameBut(rows, full, ks, i)
  {
    if i in rows && rows[i].conversation !in ks {
      OnlyOne(rows, full, rows[i].conversation, i);
    }
    if i in full && full[i].conversation !in ks {
      OnlyOne(rows, full, full[i].conversation, i);
    }
  }

  /** The entity rows of conversation `k` are the same in both full projections. */
  ghost predicate SameRows(c: Content, c': Content, k: ChatId) {
    && Only(AllMessages(c), {k}) == Only(AllMessages(c'), {k})
    && Only(AllAnalyses(c), {k}) == Only(AllAnalyses(c'), {k})
    && Only(AllConversationNodes(c), {k}) == Only(AllConversationNodes(c'), {k})
    && Only(AllMessageNodes(c), {k}) == Only(AllMessageNodes(c'), {k})
    && Only(AllEdges(c), {k}) == Only(AllEdges(c'), {k})
  }

  /** The messages of conversation `k` are the same in both. */
  ghost predicate SameMessagesOf(c: Content, c': Content, k: ChatId) {
    forall m: MessageId ::
      && ((m in c.messages && c.messages[m].chat == k) <==> (m in c'.messages && c'.messages[m].chat == k))
      && (m in c.messages && c.messages[m].chat == k ==> c.messages[m] == c'.messages[m])
  }

  lemma SameEntitiesSameMessages(c: Content, c': Content, k: ChatId)
    requires SameEntities(c, c', k)
    ensures SameMessagesOf(c, c', k)
  {
    forall m: MessageId
      ensures (m in c.messages && c.messages[m].chat == k) <==> (m in c'.messages && c'.messages[m].chat == k)
      ensures m in c.messages && c.messages[m].chat == k ==> c.messages[m] == c'.messages[m]
    {
      assert m in MessagesIn(c, k) <==> m in MessagesIn(c', k);
      if m in MessagesIn(c, k) {
        assert MessagesIn(c, k)[m] == MessagesIn(c', k)[m];
      }
    }
  }

  lemma SameEntitiesSameRows(c: Content, c': Content, k: ChatId)
    requires ContentInvariant(c) && ContentInvariant(c') && SameEntities(c, c', k)
    ensures SameRows(c, c', k)
  {
    SameEntitiesSameMessages(c, c', k);
    SameMessageTables(c, c', k);
    SameEdgeRows(c, c', k);
    SameNodeRows(c, c', k);
  }

  lemma SameNodeRows(c: Content, c': Content, k: ChatId)
    requires SameEntities(c, c', k)
    ensures Only(AllConversationNodes(c), {k}) == Only(AllConversationNodes(c'), {k})
  {
  }

  lemma SameMessageRows<R>(c: Content, c': Content, k: ChatId, row: MessageRecord -> Row<R>)
    requires ContentInvariant(c) && ContentInvariant(c') && SameMessagesOf(c, c', k)
    requires forall m :: row(m).conversation == m.chat
    ensures Only(PerMessage(c, row), {k}) == Only(PerMessage(c', row), {k})
  {
    var a, b := Only(PerMessage(c, row), {k}), Only(PerMessage(c', row), {k});
    forall m: MessageId
      ensures (m in a <==> m in b) && (m in a ==> a[m] == b[m])
    {
      assert (m in c.messages && c.messages[m].chat == k) <==> (m in c'.messages && c'.messages[m].chat == k);
    }
  }

  lemma SameMessageTables(c: Content, c': Content, k: ChatId)
    requires ContentInvariant(c) && ContentInvariant(c') && SameMessagesOf(c, c', k)
    ensures Only(AllMessages(c), {k}) == Only(AllMessages(c'), {k})
    ensures Only(AllAnalyses(c), {k}) == Only(AllAnalyses(c'), {k})
    ensures Only(AllMessageNodes(c), {k}) == Only(AllMessageNodes(c'), {k})
  {
    SameMessageRows(c, c', k, TextRow);
    SameMessageRows(c, c', k, AnalysisRow);
    SameMessageRows(c, c', k, MessageNodeRow);
  }

  lemma SameEdgeRows(c: Content, c': Content, k: ChatId)
    requires ContentInvariant(c) && ContentInvariant(c') && SameMessagesOf(c, c', k)
    ensures Only(AllEdges(c), {k}) == Only(AllEdges(c'), {k})
  {
  }

  lemma LatestIsUnique(a: map<MessageId, Row<Text>>, k: ChatId)
    ensures forall m, n :: IsLatest(a, k, m) && IsLatest(a, k, n) ==> m == n
    ensures forall m :: IsLatest(a, k, m) ==> LatestOf(a, k) == Some(Latest(m, a[m].data))
  {
  }

  /** The latest message of a conversation depends on that conversation's messages only. */
  lemma SameLatest(a: map<MessageId, Row<Text>>, b: map<MessageId, Row<Text>>, k: ChatId)
    requires Only(a, {k}) == Only(b, {k})
    ensures LatestOf(a, k) == LatestOf(b, k)
  {
    assert forall n :: n in a && a[n].conversation == k ==> n in Only(a, {k}) && Only(a, {k})[n] == a[n];
    assert forall n :: n in b && b[n].conversation == k ==> n in Only(b, {k}) && Only(b, {k})[n] == b[n];
    forall m ensures IsLatest(a, k, m) <==> IsLatest(b, k, m) {
      assert m in Only(a, {k}) <==> m in Only(b, {k});
    }
    LatestIsUnique(a, k);
    LatestIsUnique(b, k);
  }

  /** Replaying onto an exact older projection gives the exact newer one, if every conversation left alone
      is the same in both contents. */
  lemma ReplayIsExact(c: Content, c': Content, refresh: set<ChatId>, rebuild: set<ChatId>)
    requires ContentInvariant(c) && ContentInvariant(c') && rebuild <= refresh
    requires forall k :: k !in rebuild ==> SameEntities(c, c', k)
    requires forall k :: k !in refresh && k in c'.chats ==> CoverageOf(c, k) == CoverageOf(c', k)
    ensures Replay(Full(c), c', refresh, rebuild) == Full(c')
  {
    forall k | k !in rebuild ensures SameRows(c, c', k) {
      SameEntitiesSameRows(c, c', k);
    }
    RowsAreExact(c, c', rebuild);
    SummariesAreExact(c, c', refresh, rebuild);
  }

  lemma RowsAreExact(c: Content, c': Content, rebuild: set<ChatId>)
    requires forall k :: k !in rebuild ==> SameRows(c, c', k)
    ensures Replace(AllMessages(c), AllMessages(c'), rebuild) == AllMessages(c')
    ensures Replace(AllAnalyses(c), AllAnalyses(c'), rebuild) == AllAnalyses(c')
    ensures Replace(AllConversationNodes(c), AllConversationNodes(c'), rebuild) == AllConversationNodes(c')
    ensures Replace(AllMessageNodes(c), AllMessageNodes(c'), rebuild) == AllMessageNodes(c')
    ensures Replace(AllEdges(c), AllEdges(c'), rebuild) == AllEdges(c')
  {
    ReplaceIsExact(AllMessages(c), AllMessages(c'), rebuild);
    ReplaceIsExact(AllAnalyses(c), AllAnalyses(c'), rebuild);
    ReplaceIsExact(AllConversationNodes(c), AllConversationNodes(c'), rebuild);
    ReplaceIsExact(AllMessageNodes(c), AllMessageNodes(c'), rebuild);
    ReplaceIsExact(AllEdges(c), AllEdges(c'), rebuild);
  }

  lemma SummariesAreExact(c: Content, c': Content, refresh: set<ChatId>, rebuild: set<ChatId>)
    requires rebuild <= refresh
    requires forall k :: k !in rebuild ==> SameEntities(c, c', k)
    requires forall k :: k !in refresh && k in c'.chats ==> CoverageOf(c, k) == CoverageOf(c', k)
    requires forall k :: k !in rebuild ==> SameRows(c, c', k)
    ensures RefreshSummaries(AllSummaries(c), c', AllMessages(c'), refresh, rebuild) == AllSummaries(c')
  {
    var a, b := RefreshSummaries(AllSummaries(c), c', AllMessages(c'), refresh, rebuild), AllSummaries(c');
    forall k
      ensures (k in a <==> k in b) && (k in a ==> a[k] == b[k])
    {
      assert k !in rebuild ==> (k in c.chats <==> k in c'.chats);
      if k !in refresh && k in c.chats {
        SummaryIsSame(c, c', k);
      }
    }
  }

  lemma SummaryIsSame(c: Content, c': Content, k: ChatId)
    requires SameEntities(c, c', k) && SameRows(c, c', k) && CoverageOf(c, k) == CoverageOf(c', k)
    requires k in c.chats
    ensures SummaryOf(c, AllMessages(c), k) == SummaryOf(c', AllMessages(c'), k)
  {
    SameLatest(AllMessages(c), AllMessages(c'), k);
  }

  // ----- a whole build -----

  /** Tables a build leaves in its slot: `base` is what the slot starts from, `rows` the work it replays. */
  ghost function Built(base: Option<Tables>, c: Content, rows: seq<WorkRow>): Tables {
    if base.None? || HasReseed(rows) then Replay(NO_TABLES, c, c.chats.Keys, c.chats.Keys)
    else Replay(base.value, c, Touched(rows) + (if HasGlobalCoverage(rows) then c.chats.Keys else {}), Rebuilt(rows))
  }

  /** Revision `i` of the history is `h[i]`; the work row of revision `i + 1` names what that revision changed. */
  ghost predicate Framed(h: seq<Content>, rows: seq<WorkRow>) {
    && |h| == |rows| + 1
    && (forall i :: 0 <= i < |h| ==> ContentInvariant(h[i]))
    && (forall i :: 0 <= i < |rows| ==> rows[i].revision == i + 1 && Names(rows[i], h[i], h[i + 1]))
  }

  lemma SameEntitiesTransitive(a: Content, b: Content, c: Content, k: ChatId)
    requires SameEntities(a, b, k) && SameEntities(b, c, k)
    ensures SameEntities(a, c, k)
  {
  }

  lemma {:induction false} UnnamedIsUnchanged(h: seq<Content>, rows: seq<WorkRow>, base: nat, target: nat, k: ChatId)
    requires Framed(h, rows) && base <= target <= |rows| && !HasReseed(rows[base..target])
    ensures k !in Rebuilt(rows[base..target]) ==> SameEntities(h[base], h[target], k)
    ensures k !in Touched(rows[base..target]) && !HasGlobalCoverage(rows[base..target]) ==>
              CoverageOf(h[base], k) == CoverageOf(h[target], k)
    decreases target - base
  {
    if base < target {
      var n := target - 1;
      var (before, all, last) := (rows[base..n], rows[base..target], rows[n]);
      assert all == before + [last];
      assert forall i :: 0 <= i < |before| ==> all[i] == before[i];
      assert all[|before|] == last;
      UnnamedIsUnchanged(h, rows, base, n, k);
      assert Names(last, h[n], h[target]);
      assert k in Rebuilt(before) ==> k in Rebuilt(all);
      assert k in Touched(before) ==> k in Touched(all);
      if SameEntities(h[base], h[n], k) && SameEntities(h[n], h[target], k) {
        SameEntitiesTransitive(h[base], h[n], h[target], k);
      }
    }
  }

  lemma FillIsExact<I, R>(full: map<I, Row<R>>, ks: set<ChatId>)
    requires forall i :: i in full ==> full[i].conversation in ks
    ensures Replace(map[], full, ks) == full
  {
  }

  lemma FillMessagesIsExact<R>(c: Content, row: MessageRecord -> Row<R>)
    requires forall m :: row(m).conversation == m.chat
    ensures Replace(map[], PerMessage(c, row), c.chats.Keys) == PerMessage(c, row)
  {
    FillIsExact(PerMessage(c, row), c.chats.Keys);
  }

  lemma FreshSummaries(c: Content, messages: map<MessageId, Row<Text>>)
    ensures RefreshSummaries(map[], c, messages, c.chats.Keys, c.chats.Keys)
            == map k | k in c.chats :: SummaryOf(c, messages, k)
  {
  }

  lemma FillMessageTables(c: Content)
    ensures Replace(map[], AllMessages(c), c.chats.Keys) == AllMessages(c)
    ensures Replace(map[], AllAnalyses(c), c.chats.Keys) == AllAnalyses(c)
    ensures Replace(map[], AllMessageNodes(c), c.chats.Keys) == AllMessageNodes(c)
  {
    FillMessagesIsExact(c, TextRow);
    FillMessagesIsExact(c, AnalysisRow);
    FillMessagesIsExact(c, MessageNodeRow);
  }

  lemma ReseedIsExact(c: Content)
    requires ContentInvariant(c)
    ensures Replay(NO_TABLES, c, c.chats.Keys, c.chats.Keys) == Full(c)
  {
    var all := c.chats.Keys;
    FillMessageTables(c);
    FillIsExact(AllConversationNodes(c), all);
    FillIsExact(AllEdges(c), all);
    FreshSummaries(c, AllMessages(c));
  }

  /** Incremental replay equals rebuild: a build whose slot starts from the full projection of any older
      revision ends in exactly the full projection of the target revision. */
  lemma BuildIsExact(h: seq<Content>, rows: seq<WorkRow>, base: nat, target: nat, start: Option<Tables>)
    requires Framed(h, rows) && base <= target <= |rows|
    requires start.Some? ==> start.value == Full(h[base])
    ensures Built(start, h[target], rows[base..target]) == Full(h[target])
  {
    var (c, slice) := (h[target], rows[base..target]);
    if start.None? || HasReseed(slice) {
      ReseedIsExact(c);
    } else {
      var refresh := Touched(slice) + (if HasGlobalCoverage(slice) then c.chats.Keys else {});
      forall k
        ensures k !in Rebuilt(slice) ==> SameEntities(h[base], c, k)
        ensures k !in Touched(slice) && !HasGlobalCoverage(slice) ==> CoverageOf(h[base], k) == CoverageOf(c, k)
      {
        UnnamedIsUnchanged(h, rows, base, target, k);
      }
      ReplayIsExact(h[base], c, refresh, Rebuilt(slice));
    }
  }
}
