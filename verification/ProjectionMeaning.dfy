/** What the rows of a slot show of the canonical account they were projected from, field by field. */
module ProjectionMeaning {
  import opened Options
  import opened Sequences
  import opened CanonicalModel
  import opened EntityMerge
  import opened CoverageModel
  import opened CanonicalRun
  import opened ProjectionTables
  import opened ProjectionFrames
  import opened ProjectionProtocol
  import opened ProjectionGuarantees

  // ----- the coverage a summary shows -----

  /** The conversation's member row in the active generation. */
  function ActiveMember(cov: Coverage, k: ChatId): Option<Member> {
    if cov.active.Some? && (cov.active.value, k) in cov.members then Some(cov.members[(cov.active.value, k)]) else None
  }

  predicate HasStart(cov: Coverage, k: ChatId) {
    ActiveMember(cov, k).Some? && ActiveMember(cov, k).value.historyStarted.Some?
  }

  predicate HasHead(cov: Coverage, k: ChatId) {
    ActiveMember(cov, k).Some? && ActiveMember(cov, k).value.headReconciled.Some?
  }

  function ActiveClosedAt(cov: Coverage): Option<Timestamp> {
    if cov.active.Some? && cov.active.value in cov.generations then cov.generations[cov.active.value].closedAt else None
  }

  /** Unknown without an active generation; complete with both a history start and a reconciled head; partial otherwise. */
  predicate CoverageShown(cov: Coverage, k: ChatId, d: CoverageDocument) {
    && (d.status == StatusUnknown <==> cov.active.None?)
    && (d.status == StatusComplete <==> HasStart(cov, k) && HasHead(cov, k))
    && (d.historyStart <==> HasStart(cov, k))
    && (d.reason == NotObserved <==> !HasStart(cov, k))
    && (d.reason == HeadNotReconciled <==> HasStart(cov, k) && !HasHead(cov, k))
    && d.earliest == (if ActiveMember(cov, k).Some? then ActiveMember(cov, k).value.earliest else None)
    && d.latest == (if ActiveMember(cov, k).Some? then ActiveMember(cov, k).value.headReconciled else None)
    && d.dataAsOf == (if ActiveClosedAt(cov).None? && HasStart(cov, k) then ActiveMember(cov, k).value.historyStarted
                      else ActiveClosedAt(cov))
  }

  // ----- rows -----

  predicate TextShown(m: MessageRecord, t: Text) {
    t.text == m.text && t.sentAt == m.sentAt && t.direction == m.direction && t.sentiment == Unknown
  }

  /** The newest live message of a conversation, by time and then identifier. */
  ghost predicate NewestOf(e: Entities, k: ChatId, id: MessageId) {
    && LiveMessage(e, id).Some? && LiveMessage(e, id).value.chat == k
    && forall n :: LiveMessage(e, n).Some? && LiveMessage(e, n).value.chat == k ==>
         LiveMessage(e, n).value.sentAt < LiveMessage(e, id).value.sentAt
         || (LiveMessage(e, n).value.sentAt == LiveMessage(e, id).value.sentAt && n <= id)
  }

  ghost predicate LatestShown(e: Entities, k: ChatId, latest: Option<Latest>) {
    match latest
    case None => forall n :: LiveMessage(e, n).Some? ==> LiveMessage(e, n).value.chat != k
    case Some(l) => NewestOf(e, k, l.id) && TextShown(LiveMessage(e, l.id).value, l.text)
  }

  ghost predicate SummaryShown(c: Canon, k: ChatId, s: Summary) {
    && LiveChat(c.entities, k).Some?
    && s.info == ChatInfo(LiveChat(c.entities, k).value.platformUser, LiveChat(c.entities, k).value.displayName)
    && LatestShown(c.entities, k, s.latest) && CoverageShown(c.coverage, k, s.coverage)
  }

  ghost predicate MessageRowsShown(e: Entities, t: Tables) {
    && (forall m :: m in t.messages <==> LiveMessage(e, m).Some?)
    && (forall m :: m in t.messages ==>
          && t.messages[m].conversation == LiveMessage(e, m).value.chat
          && TextShown(LiveMessage(e, m).value, t.messages[m].data))
  }

  ghost predicate AnalysesShown(e: Entities, t: Tables) {
    && (forall m :: m in t.analyses <==> LiveMessage(e, m).Some?)
    && (forall m :: m in t.analyses ==>
          && t.analyses[m].conversation == LiveMessage(e, m).value.chat
          && t.analyses[m].data.source == LiveMessage(e, m).value
          && !t.analyses[m].data.available && t.analyses[m].data.sentiment == Unknown)
  }

  ghost predicate NodesShown(e: Entities, t: Tables) {
    && (forall k :: k in t.conversationNodes <==> LiveChat(e, k).Some?)
    && (forall k :: k in t.conversationNodes ==>
          && t.conversationNodes[k].conversation == k
          && t.conversationNodes[k].data.platformUser == LiveChat(e, k).value.platformUser
          && t.conversationNodes[k].data.displayName == LiveChat(e, k).value.displayName)
    && (forall m :: m in t.messageNodes <==> LiveMessage(e, m).Some?)
    && (forall m :: m in t.messageNodes ==>
          && t.messageNodes[m].conversation == LiveMessage(e, m).value.chat
          && t.messageNodes[m].data.sentAt == LiveMessage(e, m).value.sentAt
          && t.messageNodes[m].data.direction == LiveMessage(e, m).value.direction)
  }

  /** Exactly one edge from each live message's conversation to it. */
  ghost predicate EdgesShown(e: Entities, t: Tables) {
    && (forall id :: id in t.edges <==> LiveMessage(e, id.target).Some? && LiveMessage(e, id.target).value.chat == id.source)
    && (forall id :: id in t.edges ==> t.edges[id].conversation == id.source)
  }

  // ----- counts -----

  ghost function LiveChats(e: Entities): set<ChatId> { set k | k in e.chats && LiveChat(e, k).Some? }

  ghost function LiveMessages(e: Entities): set<MessageId> { set m | m in e.messages && LiveMessage(e, m).Some? }

  ghost function LiveInbound(e: Entities): set<MessageId> {
    set m | m in LiveMessages(e) && LiveMessage(e, m).value.direction == Inbound
  }

  ghost predicate AnalyticsShown(c: Canon, a: Analytics) {
    && a.conversations == |LiveChats(c.entities)| && a.messages == |LiveMessages(c.entities)|
    && a.inbound == |LiveInbound(c.entities)| && a.inbound + a.outbound == a.messages
    && (a.complete <==> exists g :: c.coverage.active == Some(g) && ActiveComplete(c.coverage, g))
  }

  /** Everything a slot holds, against the account it was projected from. */
  ghost predicate Shows(c: Canon, t: Tables) {
    && (forall k :: k in t.summaries <==> LiveChat(c.entities, k).Some?)
    && (forall k :: k in t.summaries ==> SummaryShown(c, k, t.summaries[k]))
    && MessageRowsShown(c.entities, t) && AnalysesShown(c.entities, t)
    && NodesShown(c.entities, t) && EdgesShown(c.entities, t)
    && t.analytics.Some? && AnalyticsShown(c, t.analytics.value)
  }

  // ----- a full projection shows its account -----

  lemma ViewOfEntities(c: Canon)
    requires CanonInvariant(c)
    ensures var v := View(c);
            && (forall k :: k in v.chats <==> LiveChat(c.entities, k).Some?)
            && (forall k :: k in v.chats ==>
                  v.chats[k] == ChatInfo(LiveChat(c.entities, k).value.platformUser, LiveChat(c.entities, k).value.displayName))
            && (forall m :: m in v.messages <==> LiveMessage(c.entities, m).Some?)
            && (forall m :: m in v.messages ==> v.messages[m] == LiveMessage(c.entities, m).value
                                                && v.messages[m].id == m && v.messages[m].chat in v.chats)
  {
  }

  lemma ViewOfCoverage(c: Canon, k: ChatId)
    ensures var v := View(c);
            && v.generation == c.coverage.active && v.closedAt == ActiveClosedAt(c.coverage)
            && MemberOf(v, k) == ActiveMember(c.coverage, k)
  {
    if c.coverage.active.Some? && (c.coverage.active.value, k) in c.coverage.members {
      var key := (c.coverage.active.value, k);
      assert key.0 == c.coverage.active.value && key.1 == k;
      assert k in ActiveMembers(c.coverage);
    }
  }

  lemma CoverageIsShown(c: Canon, k: ChatId)
    ensures CoverageShown(c.coverage, k, CoverageOf(View(c), k))
  {
    ViewOfCoverage(c, k);
  }

  lemma RowsOfMessages(c: Canon)
    requires CanonInvariant(c)
    ensures var t := Full(View(c));
            MessageRowsShown(c.entities, t) && AnalysesShown(c.entities, t) && NodesShown(c.entities, t)
  {
    ViewOfEntities(c);
  }

  lemma RowsOfEdges(c: Canon)
    requires CanonInvariant(c)
    ensures EdgesShown(c.entities, Full(View(c)))
  {
    ViewOfEntities(c);
    var v := View(c);
    forall id: EdgeId
      ensures id in AllEdges(v) <==> LiveMessage(c.entities, id.target).Some? && LiveMessage(c.entities, id.target).value.chat == id.source
    {
      if LiveMessage(c.entities, id.target).Some? && LiveMessage(c.entities, id.target).value.chat == id.source {
        assert EdgeId(v.messages[id.target].chat, id.target) == id;
        assert id in EdgeIds(v);
      }
    }
  }

  lemma {:induction false} NewestAmong(rows: map<MessageId, Row<Text>>, ms: set<MessageId>) returns (id: MessageId)
    requires |ms| > 0 && ms <= rows.Keys
    ensures id in ms
    ensures forall n :: n in ms ==>
              rows[n].data.sentAt < rows[id].data.sentAt || (rows[n].data.sentAt == rows[id].data.sentAt && n <= id)
  {
    id := SomeElement(ms);
    var rest := ms - {id};
    assert forall n :: n in ms ==> n == id || n in rest;
    if rest != {} {
      var other := NewestAmong(rows, rest);
      if rows[id].data.sentAt < rows[other].data.sentAt
         || (rows[id].data.sentAt == rows[other].data.sentAt && id <= other) {
        id := other;
      }
    }
  }

  lemma LatestExists(rows: map<MessageId, Row<Text>>, k: ChatId)
    ensures LatestOf(rows, k).None? ==> forall m :: m in rows ==> rows[m].conversation != k
    ensures LatestOf(rows, k).Some? ==>
              IsLatest(rows, k, LatestOf(rows, k).value.id)
              && LatestOf(rows, k).value.text == rows[LatestOf(rows, k).value.id].data
  {
    var ms := set m | m in rows && rows[m].conversation == k;
    if |ms| > 0 {
      var id := NewestAmong(rows, ms);
      assert IsLatest(rows, k, id);
    } else {
      forall m | m in rows ensures rows[m].conversation != k {
        assert m !in ms;
      }
    }
  }

  lemma LatestIsShown(c: Canon, k: ChatId)
    requires CanonInvariant(c)
    ensures LatestShown(c.entities, k, LatestOf(AllMessages(View(c)), k))
  {
    ViewOfEntities(c);
    var rows := AllMessages(View(c));
    RowsOfMessages(c);
    LatestExists(rows, k);
    match LatestOf(rows, k)
    case None =>
      forall n | LiveMessage(c.entities, n).Some? ensures LiveMessage(c.entities, n).value.chat != k {
        assert n in rows && rows[n].conversation == LiveMessage(c.entities, n).value.chat;
      }
    case Some(l) =>
      assert IsLatest(rows, k, l.id) && l.text == rows[l.id].data;
      forall n | LiveMessage(c.entities, n).Some? && LiveMessage(c.entities, n).value.chat == k
        ensures LiveMessage(c.entities, n).value.sentAt < LiveMessage(c.entities, l.id).value.sentAt
                || (LiveMessage(c.entities, n).value.sentAt == LiveMessage(c.entities, l.id).value.sentAt && n <= l.id)
      {
        assert n in rows && rows[n].conversation == k;
      }
  }

  lemma DirectionsCount(messages: map<MessageId, MessageRecord>)
    ensures |set m | m in messages && messages[m].direction.Inbound?| + |set m | m in messages && messages[m].direction.Outbound?|
            == |messages|
  {
    var (inbound, outbound) := (set m | m in messages && messages[m].direction.Inbound?,
                                set m | m in messages && messages[m].direction.Outbound?);
    assert inbound + outbound == messages.Keys;
    assert |messages| == |messages.Keys|;
  }

  lemma CountsAreShown(c: Canon)
    requires CanonInvariant(c)
    ensures AnalyticsShown(c, AnalyticsOf(View(c)))
  {
    ViewOfEntities(c);
    var v := View(c);
    DirectionsCount(v.messages);
    assert v.chats.Keys == LiveChats(c.entities);
    assert v.messages.Keys == LiveMessages(c.entities);
    assert (set m | m in v.messages && v.messages[m].direction.Inbound?) == LiveInbound(c.entities);
    assert |v.messages| == |v.messages.Keys| && |v.chats| == |v.chats.Keys|;
    CompletenessIsShown(c);
  }

  lemma CompletenessIsShown(c: Canon)
    ensures View(c).complete <==> exists g :: c.coverage.active == Some(g) && ActiveComplete(c.coverage, g)
  {
    if View(c).complete {
      assert ActiveComplete(c.coverage, c.coverage.active.value);
    }
  }

  /** The full projection of an account's content shows the account. */
  lemma FullShows(c: Canon)
    requires CanonInvariant(c)
    ensures Shows(c, Full(View(c)))
  {
    ViewOfEntities(c);
    RowsOfMessages(c);
    RowsOfEdges(c);
    CountsAreShown(c);
    forall k | k in Full(View(c)).summaries ensures SummaryShown(c, k, Full(View(c)).summaries[k]) {
      LatestIsShown(c, k);
      CoverageIsShown(c, k);
    }
  }

  // ----- over runs -----

  lemma {:induction false} RunInTwo(s: System, a: seq<Action>, b: seq<Action>)
    ensures RunAll(RunAll(s, a), b) == RunAll(s, a + b)
    decreases a
  {
    if a == [] {
      assert a + b == b;
    } else {
      RunInTwo(Next(s, a[0]), a[1..], b);
      assert (a + b)[0] == a[0] && (a + b)[1..] == a[1..] + b;
    }
  }

  /** The account as it was after the first `n` actions. */
  ghost function StateAt(actions: seq<Action>, n: nat): System
    requires n <= |actions|
  {
    RunAll(INITIAL, actions[..n])
  }

  lemma StateIsNext(actions: seq<Action>)
    requires actions != []
    ensures RunAll(INITIAL, actions) == Next(StateAt(actions, |actions| - 1), actions[|actions| - 1])
  {
    var n := |actions| - 1;
    assert actions == actions[..n] + [actions[n]];
    RunInTwo(INITIAL, actions[..n], [actions[n]]);
    RunFirst(RunAll(INITIAL, actions[..n]), actions[n], []);
  }

  lemma HistoryGrowsByOne(s: System, a: Action)
    ensures |Next(s, a).history| <= |s.history| + 1
  {
    StepIsLater(s, a);
  }

  lemma HeadIsView(actions: seq<Action>)
    ensures var s := RunAll(INITIAL, actions);
            CanonInvariant(s.canon) && |s.history| > 0 && View(s.canon) == s.history[s.Head()]
  {
    InitiallyInv();
    RunKeepsInv(INITIAL, actions);
  }

  /** Revision `r` is the content the account had at some moment of the run, when `r` was its newest revision. */
  ghost predicate IsRevision(actions: seq<Action>, r: int, n: int) {
    && 0 <= n <= |actions|
    && StateAt(actions, n).Head() == r && CanonInvariant(StateAt(actions, n).canon)
    && 0 <= r < |RunAll(INITIAL, actions).history|
    && View(StateAt(actions, n).canon) == RunAll(INITIAL, actions).history[r]
  }

  lemma OnlyOneMore(actions: seq<Action>)
    requires actions != []
    ensures var (h, h') := (RunAll(INITIAL, actions[..|actions| - 1]).history, RunAll(INITIAL, actions).history);
            |h| <= |h'| <= |h| + 1 && h'[..|h|] == h
  {
    var n := |actions| - 1;
    StateIsNext(actions);
    HistoryGrowsByOne(RunAll(INITIAL, actions[..n]), actions[n]);
    StepIsLater(RunAll(INITIAL, actions[..n]), actions[n]);
  }

  lemma RevisionStays(actions: seq<Action>, r: int, n: int)
    requires actions != [] && IsRevision(actions[..|actions| - 1], r, n)
    ensures IsRevision(actions, r, n)
  {
    OnlyOneMore(actions);
    assert actions[..|actions| - 1][..n] == actions[..n];
  }

  lemma {:induction false} RevisionHadState(actions: seq<Action>, r: nat)
    requires r < |RunAll(INITIAL, actions).history|
    ensures exists n :: IsRevision(actions, r, n)
    decreases |actions|
  {
    var last := RunAll(INITIAL, actions);
    HeadIsView(actions);
    assert actions[..|actions|] == actions;
    if r == last.Head() {
      assert IsRevision(actions, r, |actions|);
    } else {
      assert actions != [];
      var before := actions[..|actions| - 1];
      OnlyOneMore(actions);
      RevisionHadState(before, r);
      var n :| IsRevision(before, r, n);
      RevisionStays(actions, r, n);
    }
  }

  /** The tables show the account as it was at some moment of the run, when `r` was its newest revision. */
  ghost predicate ShowsRevision(actions: seq<Action>, r: int, t: Tables) {
    exists n :: IsRevision(actions, r, n) && Shows(StateAt(actions, n).canon, t)
  }

  lemma FullShowsRevision(actions: seq<Action>, r: nat)
    requires r < |RunAll(INITIAL, actions).history|
    ensures ShowsRevision(actions, r, Full(RunAll(INITIAL, actions).history[r]))
  {
    RevisionHadState(actions, r);
    var n :| IsRevision(actions, r, n);
    FullShows(StateAt(actions, n).canon);
  }

  /** Every committed slot of every run shows the account of the revision it claims. */
  lemma EverySlotShows(actions: seq<Action>, i: int)
    requires i in RunAll(INITIAL, actions).slots
    ensures var s := RunAll(INITIAL, actions);
            ShowsRevision(actions, s.slots[i].projected, s.slots[i].tables)
  {
    EverySlotIsExact(actions, i);
    FullShowsRevision(actions, RunAll(INITIAL, actions).slots[i].projected);
  }

  /** Whatever happens between the two reads of a reader, what it gets shows the account of the authorised revision. */
  lemma ReadersAreShown(before: seq<Action>, between: seq<Action>)
    ensures var s := RunAll(INITIAL, before);
            var a := ReadAuthority(s);
            var row := ReadSlot(RunAll(s, between), a);
            row.Some? ==> ShowsRevision(before, a.value.projected, row.value.tables)
  {
    ReadersNeverSeeAMix(before, between);
    var s := RunAll(INITIAL, before);
    var a := ReadAuthority(s);
    var row := ReadSlot(RunAll(s, between), a);
    if row.Some? {
      FullShowsRevision(before, a.value.projected);
    }
  }

  // ----- what a reader may conclude -----

  /** A conversation shown as complete has a history start, and a head reconciled at or past the time its generation asks for. */
  lemma CompleteIsReconciled(c: Canon, t: Tables, k: ChatId)
    requires CanonInvariant(c) && Shows(c, t) && k in t.summaries && t.summaries[k].coverage.status == StatusComplete
    ensures exists g :: c.coverage.active == Some(g) && g in c.coverage.generations && (g, k) in c.coverage.members
                        && c.coverage.members[(g, k)].historyStarted.Some? && c.coverage.members[(g, k)].headReconciled.Some?
                        && c.coverage.generations[g].asOf <= c.coverage.members[(g, k)].headReconciled.value
  {
    var g := c.coverage.active.value;
    assert SummaryShown(c, k, t.summaries[k]);
    assert (g, k) in c.coverage.members;
  }

  /** Where the active generation is complete, every live member is shown as complete. */
  lemma CompleteShowsItsMembers(c: Canon, t: Tables, g: GenerationId, k: ChatId)
    requires CanonInvariant(c) && Shows(c, t) && ActiveComplete(c.coverage, g)
    requires (g, k) in c.coverage.members && LiveChat(c.entities, k).Some?
    ensures k in t.summaries && t.summaries[k].coverage.status == StatusComplete
    ensures t.summaries[k].coverage.latest == c.coverage.members[(g, k)].headReconciled
    ensures t.analytics.Some? && t.analytics.value.complete
  {
    assert SummaryShown(c, k, t.summaries[k]);
    assert Sealed(c.coverage, g);
  }
}
