/** When staging and publishing succeed, when a reader sees something, and that it is the artifact's own graph. */
module PublicationOutcomes {
  import opened Options
  import opened Sequences
  import opened Graph
  import opened GraphGenerations
  import opened Publication
  import opened GraphOutcomes
  import H = GraphHistory
  import P = PublicationGuarantees
  import R = PublicationRuns

  // ----- building an artifact's graph -----

  /** The generation is frozen and holds exactly the artifact's nodes and edges. */
  ghost predicate FrozenAs(g: Generation, a: Artifact) {
    && g.status != Building && g.snapshot.Some?
    && Holds(g.snapshot.value.nodes, a.nodes) && Holds(g.snapshot.value.edges, a.edges)
  }

  /** The lease outlasts every step of the build. */
  predicate InTime(w: StageWorld) {
    && w.lease > 0
    && w.replace.enter < w.begin + w.lease && w.replace.leave < w.begin + w.lease
    && w.validate.enter < w.begin + w.lease && w.validate.leave < w.begin + w.lease
  }

  ghost predicate Consistent(a: Artifact) { !Contradictory(a.nodes) && !Contradictory(a.edges) }

  lemma EntriesAreRecords<V(!new)>(table: map<int, V>, records: seq<(int, V)>)
    requires Holds(table, records)
    ensures (set n | n in table :: (n, table[n])) == (set i | 0 <= i < |records| :: records[i])
  {
    var (entries, given) := ((set n | n in table :: (n, table[n])), (set i | 0 <= i < |records| :: records[i]));
    forall x | x in entries ensures x in given {
      HeldExactly(table, records, x.0, table[x.0]);
      var i :| 0 <= i < |records| && records[i] == x;
    }
    forall x | x in given ensures x in entries {
      var i :| 0 <= i < |records| && records[i] == x;
      assert x == (x.0, x.1);
      HeldExactly(table, records, x.0, x.1);
    }
  }

  lemma DigestOfRecords(g: Generation, a: Artifact)
    requires Holds(g.nodes, a.nodes) && Holds(g.edges, a.edges)
    ensures GenerationDigest(g) == RecordsDigest(a.nodes, a.edges)
  {
    EntriesAreRecords(g.nodes, a.nodes);
    EntriesAreRecords(g.edges, a.edges);
  }

  lemma ArtifactRecordsFit(a: Artifact, identity: Identity, table: map<NodeId, Node>)
    requires ArtifactOk(a, identity) && Holds(table, a.nodes)
    ensures NodesRefused(a.projection.account, a.nodes) <==> Contradictory(a.nodes)
    ensures EdgesRefused(a.projection.account, a.edges, table) <==> Contradictory(a.edges)
  {
    var p := a.projection.account;
    forall x | x in a.nodes ensures x.1.partition == p {
    }
    forall x | x in a.edges ensures !EdgeRefused(p, x.1, table) {
      var i :| 0 <= i < |a.edges| && a.edges[i] == x;
      var j :| 0 <= j < |a.nodes| && a.nodes[j].0 == x.1.source;
      var k :| 0 <= k < |a.nodes| && a.nodes[k].0 == x.1.target;
      assert (a.nodes[j].0, a.nodes[j].1) in a.nodes && (a.nodes[k].0, a.nodes[k].1) in a.nodes;
    }
  }

  lemma ContradictoryNodesAreRefused(a: Artifact, identity: Identity)
    requires ArtifactOk(a, identity)
    ensures NodesRefused(a.projection.account, a.nodes) <==> Contradictory(a.nodes)
  {
    forall x | x in a.nodes ensures x.1.partition == a.projection.account {
    }
  }

  /** Building succeeds exactly if the records do not contradict each other and the lease lasts; the digest then agrees,
      and the generation holds the artifact's records. */
  lemma BuildOutcome(repo: Repo, a: Artifact, identity: Identity, w: StageWorld, keep: Retention)
    requires ArtifactOk(a, identity) && w.id !in repo.generations
    ensures var b := BuildGraph(repo, a, a.projection.account, identity.revision, w, keep);
            && (b.error.None? <==> InTime(w) && Consistent(a))
            && (b.error.None? ==>
                  && w.id in b.repo.generations && FrozenAs(b.repo.generations[w.id], a)
                  && b.repo.generations[w.id].status == Validated && b.repo.generations[w.id].owner == w.owner
                  && b.repo.generations[w.id].leaseUntil == w.begin + w.lease
                  && b.repo.generations[w.id].partition == a.projection.account && b.repo.active == repo.active
                  && SameExcept(repo.generations, b.repo.generations, w.id))
  {
    BeginOutcome(repo, w.id, a.projection.account, identity.revision, w.owner, w.begin, w.lease);
    var begun := Begin(repo, w.id, a.projection.account, identity.revision, w.owner, w.begin, w.lease);
    if begun.answer == Done {
      var h := Handle(w.id, w.owner, w.lease, true);
      FillOutcome(begun.repo, a, identity, h, w, keep);
    }
  }

  /** The build as it was begun. */
  predicate JustBegun(s: Repo, a: Artifact, h: Handle, w: StageWorld) {
    && h == Handle(w.id, w.owner, w.lease, true) && w.id in s.generations
    && s.generations[w.id].status == Building && s.generations[w.id].owner == w.owner && s.generations[w.id].partition == a.projection.account
    && s.generations[w.id].leaseUntil == w.begin + w.lease && w.lease > 0
  }

  lemma FillOutcome(s: Repo, a: Artifact, identity: Identity, h: Handle, w: StageWorld, keep: Retention)
    requires ArtifactOk(a, identity) && JustBegun(s, a, h, w)
    ensures var b := BuildFilled(s, a, h, w, keep);
            && (b.error.None? <==> InTime(w) && Consistent(a))
            && (b.error.None? ==>
                  && w.id in b.repo.generations && FrozenAs(b.repo.generations[w.id], a)
                  && b.repo.generations[w.id].status == Validated && b.repo.generations[w.id].owner == w.owner
                  && b.repo.generations[w.id].leaseUntil == w.begin + w.lease
                  && b.repo.generations[w.id].partition == a.projection.account && b.repo.active == s.active
                  && SameExcept(s.generations, b.repo.generations, w.id))
  {
    ReplaceAnswer(s, a, identity, h, w);
    FillGoesOn(s, a, h, w, keep);
    var filled := Replace(s, h, a.nodes, a.edges, w.replace);
    if filled.answer == Done {
      ReplaceStores(s, h, a.nodes, a.edges, w.replace);
      FreezeOutcome(filled.repo, a, h, w, keep);
    }
  }

  lemma FillGoesOn(s: Repo, a: Artifact, h: Handle, w: StageWorld, keep: Retention)
    ensures var filled := Replace(s, h, a.nodes, a.edges, w.replace);
            if filled.answer.Raised? then BuildFilled(s, a, h, w, keep).error.Some?
            else BuildFilled(s, a, h, w, keep) == BuildFrozen(filled.repo, a, h, w, keep)
  {
  }

  /** The replacement is done exactly if the records do not contradict each other and the lease lasts that long. */
  lemma ReplaceAnswer(s: Repo, a: Artifact, identity: Identity, h: Handle, w: StageWorld)
    requires ArtifactOk(a, identity) && JustBegun(s, a, h, w)
    ensures Replace(s, h, a.nodes, a.edges, w.replace).answer == Done <==>
              Consistent(a) && w.replace.enter < w.begin + w.lease && w.replace.leave < w.begin + w.lease
    ensures Replace(s, h, a.nodes, a.edges, w.replace).answer == Done || Replace(s, h, a.nodes, a.edges, w.replace).answer.Raised?
  {
    ReplaceOutcome(s, h, a.nodes, a.edges, w.replace);
    ContradictoryNodesAreRefused(a, identity);
    if MayWrite(s, h, w.replace.enter) && !Contradictory(a.nodes) {
      forall table | Holds(table, a.nodes)
        ensures EdgesRefused(a.projection.account, a.edges, table) <==> Contradictory(a.edges)
      {
        ArtifactRecordsFit(a, identity, table);
      }
    }
  }

  lemma FreezeOutcome(s: Repo, a: Artifact, h: Handle, w: StageWorld, keep: Retention)
    requires JustBegun(s, a, h, w) && a.projection.graph == RecordsDigest(a.nodes, a.edges)
    requires Holds(s.generations[w.id].nodes, a.nodes) && Holds(s.generations[w.id].edges, a.edges)
    ensures var b := BuildFrozen(s, a, h, w, keep);
            && (b.error.None? <==> w.validate.enter < w.begin + w.lease && w.validate.leave < w.begin + w.lease)
            && (b.error.None? ==>
                  && w.id in b.repo.generations && FrozenAs(b.repo.generations[w.id], a)
                  && b.repo.generations[w.id].status == Validated && b.repo.generations[w.id].owner == w.owner
                  && b.repo.generations[w.id].leaseUntil == w.begin + w.lease
                  && b.repo.generations[w.id].partition == a.projection.account && b.repo.active == s.active
                  && SameExcept(s.generations, b.repo.generations, w.id))
  {
    ValidateOutcome(s, h, w.validate);
    var frozen := Validate(s, h, w.validate);
    if frozen.answer == Done {
      DigestOfRecords(frozen.repo.generations[w.id], a);
    }
  }

  // ----- authority and replacement -----

  /** The caller's canonical state is not older than the one the store remembers, or is exactly the one that is read. */
  predicate Admits(s: Store, account: Account, identity: Identity, reading: Reading) {
    match reading
    case Direct => account in s.authority ==> s.authority[account].revision <= identity.revision
    case Observed(seen) => seen == Some(identity)
  }

  lemma AuthorityOutcome(s: Store, account: Account, identity: Identity, reading: Reading)
    ensures var r := RequireAuthority(s, account, identity, reading);
            && (r.Some? <==> Admits(s, account, identity, reading))
            && (r.Some? ==> r.value == s.(authority := if reading.Direct? then s.authority[account := identity] else s.authority))
  {
  }

  /** A reading that is admitted stays so once the same state has been admitted. */
  lemma AdmittedTwice(s: Store, account: Account, identity: Identity, first: Reading, second: Reading)
    requires Admits(s, account, identity, first)
    ensures Admits(RequireAuthority(s, account, identity, first).value, account, identity, second)
            <==> Admits(s, account, identity, second) || (first.Direct? && second.Direct?)
  {
  }

  /** What may replace what: never an older revision; the very same projection, or one made differently with a higher number. */
  predicate MayReplace(p: Projection, current: Projection) {
    && current.revision <= p.revision
    && (p == current
        || (&& current.number < p.number
            && (p.revision != current.revision || p.pipeline != current.pipeline || p.config != current.config)))
  }

  predicate Replaceable(s: Store, p: Projection, account: Account) {
    account in s.active && s.active[account] in s.candidates ==>
      MayReplace(p, s.candidates[s.active[account]].artifact.projection)
  }

  lemma ReplacementOutcome(s: Store, p: Projection, account: Account)
    ensures ReplacementError(p, Current(s, account)).None? <==> Replaceable(s, p, account)
  {
  }

  // ----- staging -----

  /** The epoch a caller names is open; without one a fresh direct epoch is registered for the call. */
  predicate EpochReady(s: Store, epoch: Option<Epoch>, w: StageWorld) {
    match epoch
    case None => w.registered
    case Some(e) => e in s.epochs && s.epochs[e].open
  }

  /** Everything staging asks for. */
  ghost predicate Stageable(s: Store, a: Artifact, account: Account, identity: Identity, epoch: Option<Epoch>, w: StageWorld) {
    && ArtifactOk(a, identity) && a.projection.account == account && Admits(s, account, identity, w.reading)
    && Replaceable(s, a.projection, account) && EpochReady(s, epoch, w) && InTime(w) && Consistent(a)
  }

  /** The artifact's own graph is in a generation of its own, validated and leased. */
  ghost predicate StagedGraph(repo: Repo, repo': Repo, a: Artifact, w: StageWorld) {
    && repo'.active == repo.active && SameExcept(repo.generations, repo'.generations, w.id)
    && w.id in repo'.generations && FrozenAs(repo'.generations[w.id], a)
    && repo'.generations[w.id].status == Validated && repo'.generations[w.id].owner == w.owner
    && repo'.generations[w.id].leaseUntil == w.begin + w.lease && repo'.generations[w.id].partition == a.projection.account
  }

  /** The candidate is for this artifact and epoch, and waits for the pointer that was there. */
  predicate StagedCandidate(s: Store, s': Store, a: Artifact, identity: Identity, e: Epoch, w: StageWorld) {
    && w.id in s'.candidates
    && var c := s'.candidates[w.id];
       && c.artifact == a && c.identity == identity && c.epoch == e && c.owner == w.owner && c.account == a.projection.account
       && c.status == Validated && c.intent == NoIntent && c.ordinal == s'.ordinal == s.ordinal + 1
       && c.expected == (if a.projection.account in s.repo.active then Some(s.repo.active[a.projection.account]) else None)
       && e in s'.epochs && s'.epochs[e].open && c.capability == s'.epochs[e].capability
  }

  /** A staged candidate waits, validated, for the pointer that was there, with the artifact's own graph in its generation. */
  ghost predicate Staged(s: Store, s': Store, a: Artifact, identity: Identity, epoch: Option<Epoch>, w: StageWorld) {
    && SameExcept(s.candidates, s'.candidates, w.id) && StagedGraph(s.repo, s'.repo, a, w)
    && s'.active == s.active && s'.fenced == s.fenced && s'.log == s.log
    && var e := if epoch.Some? then epoch.value else w.freshEpoch;
       StagedCandidate(s, s', a, identity, e, w) && SameExcept(s.epochs, s'.epochs, e)
  }

  lemma StageBuildOutcome(s: Store, a: Artifact, identity: Identity, epoch: Epoch, w: StageWorld, keep: Retention)
    requires PointersOk(s.repo) && ArtifactOk(a, identity) && w.id !in s.repo.generations
    requires epoch in s.epochs && s.epochs[epoch].open
    ensures var r := StageBuild(s, a, identity, epoch, w, keep);
            && (r.reply == Ok <==> InTime(w) && Consistent(a)) && (r.reply == Ok || r.reply.Refused?)
            && (r.reply == Ok ==> Staged(s, r.store, a, identity, Some(epoch), w) && r.store.epochs == s.epochs)
  {
    BuildOutcome(s.repo, a, identity, w, keep);
    BuildIsEntered(s, a, identity, epoch, w, keep);
    EnterOutcome(s, BuildGraph(s.repo, a, a.projection.account, identity.revision, w, keep), a, identity, epoch, w);
  }

  lemma BuildIsEntered(s: Store, a: Artifact, identity: Identity, epoch: Epoch, w: StageWorld, keep: Retention)
    requires PointersOk(s.repo) && epoch in s.epochs
    ensures StageBuild(s, a, identity, epoch, w, keep)
            == EnterBuild(s, BuildGraph(s.repo, a, a.projection.account, identity.revision, w, keep), a, identity, epoch, w)
  {
    H.ActiveIsActive(s.repo, a.projection.account);
  }

  lemma EnterOutcome(s: Store, b: Build, a: Artifact, identity: Identity, epoch: Epoch, w: StageWorld)
    requires epoch in s.epochs && s.epochs[epoch].open
    ensures var r := EnterBuild(s, b, a, identity, epoch, w);
            && r.reply == (if b.error.Some? then Refused(b.error.value) else Ok)
            && (b.error.None? && StagedGraph(s.repo, b.repo, a, w) ==>
                  Staged(s, r.store, a, identity, Some(epoch), w) && r.store.epochs == s.epochs)
  {
  }

  /** The store in which the build starts: authority taken over, and a direct epoch if none was named. */
  function Prepared(s: Store, account: Account, identity: Identity, epoch: Option<Epoch>, w: StageWorld): Store {
    s.(authority := if w.reading.Direct? then s.authority[account := identity] else s.authority,
       epochs := if epoch.Some? then s.epochs else s.epochs[w.freshEpoch := DIRECT])
  }

  /** Staging goes on to the build exactly if every check before it is passed. */
  lemma StageGoesOn(s: Store, a: Artifact, account: Account, identity: Identity, epoch: Option<Epoch>, w: StageWorld, keep: Retention)
    ensures var r := Stage(s, a, account, identity, epoch, w, keep);
            var e := if epoch.Some? then epoch.value else w.freshEpoch;
            var prepared := Prepared(s, account, identity, epoch, w);
            if ArtifactOk(a, identity) && a.projection.account == account && Admits(s, account, identity, w.reading)
               && Replaceable(s, a.projection, account) && EpochReady(s, epoch, w)
            then e in prepared.epochs && prepared.epochs[e].open && r == StageBuild(prepared, a, identity, e, w, keep)
            else r.reply.Refused? && r.store.repo == s.repo && r.store.candidates == s.candidates
  {
    AuthorityOutcome(s, account, identity, w.reading);
    ReplacementOutcome(s, a.projection, account);
  }

  /** Staging succeeds exactly if everything it asks for is there. */
  lemma StageOutcome(s: Store, a: Artifact, account: Account, identity: Identity, epoch: Option<Epoch>, w: StageWorld, keep: Retention)
    requires PointersOk(s.repo) && w.id !in s.repo.generations
    ensures var r := Stage(s, a, account, identity, epoch, w, keep);
            && (r.reply == Ok <==> Stageable(s, a, account, identity, epoch, w)) && (r.reply == Ok || r.reply.Refused?)
            && (r.reply == Ok ==> Staged(s, r.store, a, identity, epoch, w))
  {
    StageGoesOn(s, a, account, identity, epoch, w, keep);
    if ArtifactOk(a, identity) && a.projection.account == account && Admits(s, account, identity, w.reading)
       && Replaceable(s, a.projection, account) && EpochReady(s, epoch, w)
    {
      StageBuildOutcome(Prepared(s, account, identity, epoch, w), a, identity,
                        if epoch.Some? then epoch.value else w.freshEpoch, w, keep);
    }
  }

  // ----- publishing -----

  /** The generation is the candidate's own, frozen and still leased at this time. */
  predicate StillOwned(s: Store, id: GenerationId, now: int)
    requires id in s.candidates
  {
    && id in s.repo.generations && s.repo.generations[id].status == Validated
    && s.repo.generations[id].owner == s.candidates[id].owner && now < s.repo.generations[id].leaseUntil
  }

  /** Everything a publication asks for: of the candidate, the ledger, the epoch, the pointer, and the canonical state at
      each of its three readings. */
  predicate Publishable(s: Store, id: GenerationId, account: Account, identity: Identity, w: PublishWorld) {
    && id in s.candidates
    && var c := s.candidates[id];
       && c.account == account && c.status == Validated && c.identity == identity
       && StillOwned(s, id, w.enter) && StillOwned(s, id, w.again) && StillOwned(s, id, w.swap)
       && Admits(s, account, identity, w.before)
       && (Admits(s, account, identity, w.after) || (w.before.Direct? && w.after.Direct?))
       && (Admits(s, account, identity, w.last) || ((w.before.Direct? || w.after.Direct?) && w.last.Direct?))
       && w.reserved && w.completed
       && c.epoch in s.epochs && s.epochs[c.epoch].open && c.epoch !in s.fenced && w.epochOpen
       && c.expected == (if account in s.repo.active then Some(s.repo.active[account]) else None)
       && Replaceable(s, c.artifact.projection, account)
  }

  /** The swap at the end of a publication. */
  predicate Swappable(s: Store, id: GenerationId, identity: Identity, w: PublishWorld)
    requires id in s.candidates
  {
    && Admits(s, s.candidates[id].account, identity, w.last) && StillOwned(s, id, w.swap)
    && s.candidates[id].expected == ActiveOf(s.repo, s.candidates[id].account)
  }

  lemma SwapOutcome(s: Store, id: GenerationId, identity: Identity, w: PublishWorld, keep: Retention)
    requires PointersOk(s.repo) && id in s.candidates
    requires id in s.repo.generations ==> s.repo.generations[id].partition == s.candidates[id].account
    ensures var r := SwapPointers(s, id, identity, w, keep);
            (r.reply == Ok <==> Swappable(s, id, identity, w)) && (r.reply == Ok || r.reply.Refused?)
  {
    AuthorityOutcome(s, s.candidates[id].account, identity, w.last);
    ActivateOutcome(s.repo, id, s.candidates[id].expected, Some(s.candidates[id].owner), w.swap, keep);
  }

  lemma TryOutcome(s: Store, id: GenerationId, identity: Identity, w: PublishWorld, keep: Retention)
    requires PointersOk(s.repo) && id in s.candidates
    requires id in s.repo.generations ==> s.repo.generations[id].partition == s.candidates[id].account
    ensures var r := TryActivate(s, id, identity, w, keep);
            var c := s.candidates[id];
            && (r.reply == Ok <==>
                  && c.epoch in s.epochs && s.epochs[c.epoch].open && c.epoch !in s.fenced && w.epochOpen
                  && Admits(s, c.account, identity, w.after) && StillOwned(s, id, w.again) && StillOwned(s, id, w.swap)
                  && c.expected == ActiveOf(s.repo, c.account) && Replaceable(s, c.artifact.projection, c.account)
                  && (Admits(s, c.account, identity, w.last) || (w.after.Direct? && w.last.Direct?)))
            && (r.reply == Ok || r.reply.Refused?)
  {
    var c := s.candidates[id];
    AuthorityOutcome(s, c.account, identity, w.after);
    if Admits(s, c.account, identity, w.after) {
      var s1 := RequireAuthority(s, c.account, identity, w.after).value;
      AdmittedTwice(s, c.account, identity, w.after, w.last);
      ReplacementOutcome(s1, c.artifact.projection, c.account);
      SwapOutcome(s1, id, identity, w, keep);
    }
  }

  lemma ReservedOutcome(s: Store, id: GenerationId, identity: Identity, w: PublishWorld, keep: Retention)
    requires id in s.candidates
    ensures var r := PublishReserved(s, id, identity, w, keep);
            && (r.reply == Ok <==> w.reserved && w.completed && TryActivate(SetIntent(s, id, Completed), id, identity, w, keep).reply == Ok)
            && (r.reply == Ok ==> r == TryActivate(SetIntent(s, id, Completed), id, identity, w, keep))
  {
    P.TryActivateEnds(SetIntent(s, id, Completed), id, identity, w, keep);
  }

  /** A publication succeeds exactly if everything it asks for is there. */
  lemma PublishOutcome(s: Store, id: GenerationId, account: Account, identity: Identity, w: PublishWorld, keep: Retention)
    requires P.StoreSound(s, keep)
    ensures Publish(s, id, account, identity, w, keep).reply == Ok <==> Publishable(s, id, account, identity, w)
  {
    if id in s.candidates && s.candidates[id].account == account && s.candidates[id].status == Validated {
      assert P.CandidateOk(s, id);
      AuthorityOutcome(s, account, identity, w.before);
      if Admits(s, account, identity, w.before) {
        var s1 := RequireAuthority(s, account, identity, w.before).value;
        AdmittedTwice(s, account, identity, w.before, w.after);
        AdmittedTwice(s, account, identity, w.before, w.last);
        ReservedOutcome(s1, id, identity, w, keep);
        TryOutcome(SetIntent(s1, id, Completed), id, identity, w, keep);
        IntentIsNoMatter(s1, id, w);
      }
    }
  }

  /** The ledger entry of a waiting candidate changes nothing else that a publication asks for. */
  lemma IntentIsNoMatter(s: Store, id: GenerationId, w: PublishWorld)
    requires id in s.candidates
    ensures var s' := SetIntent(s, id, Completed);
            && s'.candidates[id] == s.candidates[id].(intent := Completed)
            && (forall p, account :: Replaceable(s', p, account) <==> Replaceable(s, p, account))
            && (forall now :: StillOwned(s', id, now) <==> StillOwned(s, id, now))
  {
  }

  // ----- publications that fail -----

  /** The candidate passes the checks before the ledger is asked. */
  predicate Enters(s: Store, id: GenerationId, account: Account, identity: Identity, w: PublishWorld) {
    && id in s.candidates
    && var c := s.candidates[id];
       && c.account == account && c.status == Validated && c.identity == identity && StillOwned(s, id, w.enter)
       && Admits(s, account, identity, w.before)
  }

  lemma FailedTryLeaves(s: Store, id: GenerationId, identity: Identity, w: PublishWorld, keep: Retention)
    requires PointersOk(s.repo) && id in s.candidates && TryActivate(s, id, identity, w, keep).reply != Ok
    ensures var s' := TryActivate(s, id, identity, w, keep).store;
            s'.repo == s.repo && s'.candidates == s.candidates && s'.active == s.active && s'.log == s.log
  {
    var c := s.candidates[id];
    AuthorityOutcome(s, c.account, identity, w.after);
    if Admits(s, c.account, identity, w.after) {
      var s1 := RequireAuthority(s, c.account, identity, w.after).value;
      AuthorityOutcome(s1, c.account, identity, w.last);
      ActivateOutcome(s.repo, id, c.expected, Some(c.owner), w.swap, keep);
    }
  }

  /** The generation was given up while its lease lasted, or is left to whoever reclaims it. */
  ghost predicate GivenUp(repo: Repo, repo': Repo, id: GenerationId, now: int)
    requires id in repo.generations
  {
    if now < repo.generations[id].leaseUntil then OnlyRetired(repo, repo', id) else repo' == repo
  }

  lemma FailedCompletion(s: Store, id: GenerationId, identity: Identity, w: PublishWorld, keep: Retention)
    requires PointersOk(s.repo) && id in s.candidates && StillOwned(s, id, w.enter)
    requires PublishCompleted(s, id, identity, w, keep).reply != Ok
    ensures var s' := PublishCompleted(s, id, identity, w, keep).store;
            && s'.active == s.active && s'.log == s.log && GivenUp(s.repo, s'.repo, id, w.discard)
            && s'.candidates == s.candidates[id := s.candidates[id].(status := Retired)]
  {
    P.TryActivateEnds(s, id, identity, w, keep);
    FailedTryLeaves(s, id, identity, w, keep);
    DiscardOutcome(s.repo, id, s.candidates[id].owner, w.discard, keep);
  }

  /** A publication that fails moves no pointer. Before the ledger is asked it leaves the candidate as it is; a candidate
      whose entry could not be reserved or completed goes on waiting; and one whose entry was completed is retired, and its
      graph given up. */
  lemma FailedPublication(s: Store, id: GenerationId, account: Account, identity: Identity, w: PublishWorld, keep: Retention)
    requires P.StoreSound(s, keep) && Publish(s, id, account, identity, w, keep).reply != Ok
    ensures var s' := Publish(s, id, account, identity, w, keep).store;
            && s'.active == s.active && s'.log == s.log
            && if !Enters(s, id, account, identity, w) then s'.candidates == s.candidates && s'.repo == s.repo
               else if !w.reserved then s'.candidates == s.candidates && s'.repo == s.repo
               else if !w.completed then
                 s'.candidates == s.candidates[id := s.candidates[id].(intent := Reserved)] && s'.repo == s.repo
               else
                 && s'.candidates == s.candidates[id := s.candidates[id].(intent := Completed, status := Retired)]
                 && GivenUp(s.repo, s'.repo, id, w.discard)
  {
    AuthorityOutcome(s, account, identity, w.before);
    if Enters(s, id, account, identity, w) {
      var s1 := RequireAuthority(s, account, identity, w.before).value;
      if w.reserved && w.completed {
        FailedCompletion(SetIntent(s1, id, Completed), id, identity, w, keep);
      }
    }
  }

  lemma AgreeingPointers(s: Store)
    requires P.PointersAgree(s)
    ensures s.repo.active == s.active
  {
    forall a ensures (a in s.repo.active <==> a in s.active) && (a in s.active ==> s.repo.active[a] == s.active[a]) {
      assert a in s.active || a in s.repo.active ==> a in s.active && a in s.repo.active && s.active[a] == s.repo.active[a];
    }
  }

  lemma ActiveCandidate(s: Store, account: Account)
    requires P.AccountsOk(s) && account in s.active
    ensures s.active[account] in s.candidates
    ensures s.candidates[s.active[account]].status == Active && s.candidates[s.active[account]].intent == Completed
  {
    assert P.LiveOk(s, account);
  }

  lemma PublishedMoves(s: Store, s': Store, account: Account, id: GenerationId, keep: Retention)
    requires P.StoreSound(s, keep) && P.StoreSound(s', keep) && P.StillOrPublished(s, s', account, id, true)
    ensures s'.active == s.active[account := id] && s'.repo.active == s.repo.active[account := id]
    ensures id in s'.candidates && s'.candidates[id].status == Active && s'.candidates[id].intent == Completed
  {
    AgreeingPointers(s);
    AgreeingPointers(s');
    ActiveCandidate(s', account);
  }

  /** After a success the account's pointer, in the store and in the graph, leads to the candidate, which is active and
      whose ledger entry is completed; no other account's pointer moves. */
  lemma PublishedIsActive(s: Store, id: GenerationId, account: Account, identity: Identity, w: PublishWorld, keep: Retention)
    requires keep.Valid() && P.StoreSound(s, keep) && Publish(s, id, account, identity, w, keep).reply == Ok
    ensures var s' := Publish(s, id, account, identity, w, keep).store;
            && s'.active == s.active[account := id] && s'.repo.active == s.repo.active[account := id]
            && id in s'.candidates && s'.candidates[id].status == Active && s'.candidates[id].intent == Completed
  {
    P.PublishKeepsSound(s, id, account, identity, w, keep);
    PublishedMoves(s, Publish(s, id, account, identity, w, keep).store, account, id, keep);
  }

  // ----- reading -----

  /** A reader sees the active candidate exactly if the canonical state it observes, and the one it requires if it does,
      is the one the candidate was made from, and the ledger's entry is completed. */
  lemma VisibleOutcome(s: Store, keep: Retention, account: Account, required: Option<Identity>, observed: Option<Identity>,
                       ledger: Option<Intent>)
    requires P.StoreSound(s, keep)
    ensures var seen := Visible(s, account, required, observed, ledger);
            && (seen.Some? <==>
                  && account in s.active && s.active[account] in s.candidates
                  && observed == Some(s.candidates[s.active[account]].identity) && (required.None? || required == observed)
                  && ledger == Some(Completed))
            && (seen.Some? ==> seen.value == s.candidates[s.active[account]])
  {
    assert P.LiveOk(s, account);
  }

  // ----- what is published is the artifact's own graph -----

  /** Every candidate whose generation is still there has its artifact's records in it, for good. */
  ghost predicate ContentsOk(s: Store) {
    forall id :: id in s.candidates && id in s.repo.generations ==> FrozenAs(s.repo.generations[id], s.candidates[id].artifact)
  }

  /** Candidates kept their artifacts while the graph went on. */
  ghost predicate CarriedOver(s: Store, s': Store) {
    && Onward(s.repo, s'.repo)
    && forall id :: id in s'.candidates ==>
         id in s.candidates && s'.candidates[id].artifact == s.candidates[id].artifact
         && s'.candidates[id].identity == s.candidates[id].identity
  }

  lemma CarriedFurther(a: Store, b: Store, c: Store)
    requires CarriedOver(a, b) && CarriedOver(b, c)
    ensures CarriedOver(a, c)
  {
    OnwardIsTransitive(a.repo, b.repo, c.repo);
  }

  lemma CarriedKeepsContents(s: Store, s': Store)
    requires P.CandidatesOk(s) && ContentsOk(s) && CarriedOver(s, s')
    ensures ContentsOk(s')
  {
    forall id | id in s'.candidates && id in s'.repo.generations
      ensures FrozenAs(s'.repo.generations[id], s'.candidates[id].artifact)
    {
      assert P.CandidateOk(s, id);
      assert Frozen(s.repo.generations[id], s'.repo.generations[id]);
    }
  }

  lemma SameRepoIsOnward(s: Repo)
    requires s.generations.Keys <= s.issued
    ensures Onward(s, s)
  {
  }

  /** Only the authority, an intent, epochs or fences changed. */
  lemma SameGraphIsCarried(s: Store, s': Store)
    requires GenerationsOk(s.repo) && s'.repo == s.repo
    requires forall id :: id in s'.candidates ==>
               id in s.candidates && s'.candidates[id].artifact == s.candidates[id].artifact
               && s'.candidates[id].identity == s.candidates[id].identity
    ensures CarriedOver(s, s')
  {
    SameRepoIsOnward(s.repo);
  }

  lemma WithdrawCarries(s: Store, id: GenerationId, w: PublishWorld, keep: Retention, error: StoreError)
    requires keep.Valid() && Sound(s.repo, keep) && id in s.candidates
    ensures CarriedOver(s, Withdraw(s, id, w, keep, error).store)
  {
    H.DiscardKeepsSound(s.repo, id, s.candidates[id].owner, w.discard, keep);
  }

  lemma PromoteCarries(s: Store, id: GenerationId, repo: Repo, keep: Retention)
    requires id in s.candidates && Onward(s.repo, repo)
    ensures CarriedOver(s, Promote(s, id, repo, keep))
  {
  }

  lemma SwapCarries(s: Store, id: GenerationId, identity: Identity, w: PublishWorld, keep: Retention)
    requires keep.Valid() && Sound(s.repo, keep) && id in s.candidates
    ensures CarriedOver(s, SwapPointers(s, id, identity, w, keep).store)
  {
    var c := s.candidates[id];
    SameGraphIsCarried(s, s);
    AuthorityOutcome(s, c.account, identity, w.last);
    if Admits(s, c.account, identity, w.last) {
      var s1 := RequireAuthority(s, c.account, identity, w.last).value;
      var swapped := Activate(s1.repo, id, c.expected, Some(c.owner), w.swap, keep);
      H.ActivateKeepsSound(s1.repo, id, c.expected, Some(c.owner), w.swap, keep);
      PromoteCarries(s1, id, swapped.repo, keep);
    }
  }

  lemma TryCarries(s: Store, id: GenerationId, identity: Identity, w: PublishWorld, keep: Retention)
    requires keep.Valid() && Sound(s.repo, keep) && id in s.candidates
    ensures CarriedOver(s, TryActivate(s, id, identity, w, keep).store)
  {
    var c := s.candidates[id];
    P.TryActivateEnds(s, id, identity, w, keep);
    SameGraphIsCarried(s, s);
    AuthorityOutcome(s, c.account, identity, w.after);
    if Admits(s, c.account, identity, w.after) {
      var s1 := RequireAuthority(s, c.account, identity, w.after).value;
      SameGraphIsCarried(s, s1);
      SwapCarries(s1, id, identity, w, keep);
      CarriedFurther(s, s1, SwapPointers(s1, id, identity, w, keep).store);
    }
  }

  lemma CompletedCarries(s: Store, id: GenerationId, identity: Identity, w: PublishWorld, keep: Retention)
    requires keep.Valid() && P.StoreSound(s, keep) && id in s.candidates
    requires s.candidates[id].status == Validated && s.candidates[id].intent == Completed
    ensures CarriedOver(s, PublishCompleted(s, id, identity, w, keep).store)
  {
    TryCarries(s, id, identity, w, keep);
    P.TryActivateKeepsSound(s, id, identity, w, keep);
    var attempt := TryActivate(s, id, identity, w, keep);
    if attempt.reply.Refused? {
      WithdrawCarries(attempt.store, id, w, keep, attempt.reply.error);
      CarriedFurther(s, attempt.store, Withdraw(attempt.store, id, w, keep, attempt.reply.error).store);
    }
  }

  lemma ReservedCarries(s: Store, id: GenerationId, identity: Identity, w: PublishWorld, keep: Retention)
    requires keep.Valid() && P.StoreSound(s, keep) && id in s.candidates && s.candidates[id].status == Validated
    ensures CarriedOver(s, PublishReserved(s, id, identity, w, keep).store)
  {
    var ready := SetIntent(s, id, Completed);
    SameGraphIsCarried(s, s);
    SameGraphIsCarried(s, SetIntent(s, id, Reserved));
    SameGraphIsCarried(s, ready);
    P.IntentKeepsSound(s, id, Completed, keep);
    CompletedCarries(ready, id, identity, w, keep);
    CarriedFurther(s, ready, PublishCompleted(ready, id, identity, w, keep).store);
  }

  lemma PublishCarries(s: Store, id: GenerationId, account: Account, identity: Identity, w: PublishWorld, keep: Retention)
    requires keep.Valid() && P.StoreSound(s, keep)
    ensures CarriedOver(s, Publish(s, id, account, identity, w, keep).store)
  {
    P.PublishEnds(s, id, account, identity, w, keep);
    SameGraphIsCarried(s, s);
    var first := RequireAuthority(s, account, identity, w.before);
    if first.Some? && id in s.candidates && s.candidates[id].status == Validated {
      P.AuthorityKeepsSound(s, account, identity, w.before, keep);
      SameGraphIsCarried(s, first.value);
      ReservedCarries(first.value, id, identity, w, keep);
      CarriedFurther(s, first.value, PublishReserved(first.value, id, identity, w, keep).store);
    }
  }

  lemma DiscardCarries(s: Store, id: GenerationId, ledger: bool, now: int, keep: Retention)
    requires keep.Valid() && P.StoreSound(s, keep)
    ensures CarriedOver(s, DiscardCandidate(s, id, ledger, now, keep).store)
  {
    P.DiscardIsThreeSteps(s, id, ledger, now, keep);
    SameGraphIsCarried(s, s);
    if DiscardCandidate(s, id, ledger, now, keep).reply == Ok {
      H.DiscardKeepsSound(s.repo, id, s.candidates[id].owner, now, keep);
    }
  }

  lemma StageKeepsContents(s: Store, a: Artifact, account: Account, identity: Identity, epoch: Option<Epoch>, w: StageWorld,
                           keep: Retention)
    requires keep.Valid() && P.StoreSound(s, keep) && ContentsOk(s) && w.id !in s.repo.issued
    ensures ContentsOk(Stage(s, a, account, identity, epoch, w, keep).store)
  {
    var r := Stage(s, a, account, identity, epoch, w, keep);
    StageOutcome(s, a, account, identity, epoch, w, keep);
    if r.reply == Ok {
      NewCandidateKeepsContents(s, r.store, a, identity, epoch, w);
    } else {
      RefusedStageCarries(s, a, account, identity, epoch, w, keep);
      CarriedKeepsContents(s, r.store);
    }
  }

  lemma NewCandidateKeepsContents(s: Store, s': Store, a: Artifact, identity: Identity, epoch: Option<Epoch>, w: StageWorld)
    requires ContentsOk(s) && Staged(s, s', a, identity, epoch, w)
    ensures ContentsOk(s')
  {
  }

  /** What refused staging leaves: the candidates as they were, and a graph that may have begun and given up a generation. */
  lemma RefusedStageCarries(s: Store, a: Artifact, account: Account, identity: Identity, epoch: Option<Epoch>, w: StageWorld,
                            keep: Retention)
    requires keep.Valid() && P.StoreSound(s, keep) && w.id !in s.repo.issued
    requires Stage(s, a, account, identity, epoch, w, keep).reply != Ok
    ensures CarriedOver(s, Stage(s, a, account, identity, epoch, w, keep).store)
  {
    var s' := Stage(s, a, account, identity, epoch, w, keep).store;
    StageGoesOn(s, a, account, identity, epoch, w, keep);
    if s'.repo == s.repo && s'.candidates == s.candidates {
      SameGraphIsCarried(s, s');
    } else {
      var e := if epoch.Some? then epoch.value else w.freshEpoch;
      RefusedBuild(Prepared(s, account, identity, epoch, w), a, identity, e, w, keep);
      P.BuildGraphMoves(s.repo, a, account, identity.revision, w, keep);
      SameGraphIsCarried(s, s.(repo := s.repo));
    }
  }

  lemma RefusedBuild(s: Store, a: Artifact, identity: Identity, epoch: Epoch, w: StageWorld, keep: Retention)
    requires epoch in s.epochs && StageBuild(s, a, identity, epoch, w, keep).reply != Ok
    ensures var s' := StageBuild(s, a, identity, epoch, w, keep).store;
            && s'.candidates == s.candidates
            && (s'.repo == s.repo || s'.repo == BuildGraph(s.repo, a, a.projection.account, identity.revision, w, keep).repo)
  {
  }

  lemma PerformKeepsContents(s: Store, call: R.Call, keep: Retention)
    requires keep.Valid() && P.StoreSound(s, keep) && ContentsOk(s) && R.Legal(s, call)
    ensures ContentsOk(R.Perform(s, call, keep).store)
  {
    var s' := R.Perform(s, call, keep).store;
    match call
    case StageCall(artifact, account, identity, epoch, world) =>
      StageKeepsContents(s, artifact, account, identity, epoch, world, keep);
    case PublishCall(id, account, identity, world) =>
      PublishCarries(s, id, account, identity, world, keep);
      CarriedKeepsContents(s, s');
    case DiscardCall(id, ledger, now) =>
      DiscardCarries(s, id, ledger, now, keep);
      CarriedKeepsContents(s, s');
    case ReclaimCall(id, now) =>
      H.ReclaimKeepsSound(s.repo, id, now, keep);
      CarriedKeepsContents(s, s');
    case _ =>
      SameGraphIsCarried(s, s');
      CarriedKeepsContents(s, s');
  }

  ghost predicate Holding(s: Store, keep: Retention) { P.StoreSound(s, keep) && ContentsOk(s) }

  lemma StepKeepsContents(states: seq<Store>, calls: seq<R.Call>, keep: Retention, i: nat)
    requires keep.Valid() && R.IsRun(states, calls, keep) && i < |calls| && Holding(states[i], keep)
    ensures Holding(states[i + 1], keep)
  {
    R.StepKeepsSound(states, calls, keep, i);
    assert R.IsStep(states, calls, keep, i);
    PerformKeepsContents(states[i], calls[i], keep);
  }

  lemma RunKeepsContents(states: seq<Store>, calls: seq<R.Call>, keep: Retention, i: nat)
    requires keep.Valid() && R.IsRun(states, calls, keep) && i <= |calls|
    ensures Holding(states[i], keep)
  {
    var p := (s: Store) => Holding(s, keep);
    R.EmptyIsSound(keep);
    forall j | 0 <= j < |states| - 1 ensures Carried(states, p, j) {
      if p(states[j]) {
        StepKeepsContents(states, calls, keep, j);
      }
    }
    HoldsAlong(states, p, i);
  }

  /** In any run, what a reader sees leads to a graph that holds exactly the nodes and edges of the artifact it sees. */
  lemma VisibleIsItsOwnGraph(states: seq<Store>, calls: seq<R.Call>, keep: Retention, i: nat, account: Account,
                             required: Option<Identity>, observed: Option<Identity>, ledger: Option<Intent>)
    requires keep.Valid() && R.IsRun(states, calls, keep) && i <= |calls|
    requires Visible(states[i], account, required, observed, ledger).Some?
    ensures var a := Visible(states[i], account, required, observed, ledger).value.artifact;
            var read := H.ReadActive(states[i].repo, account, true);
            && read.Some? && read.value.0 == states[i].active[account]
            && Holds(read.value.1.nodes, a.nodes) && Holds(read.value.1.edges, a.edges)
  {
    RunKeepsContents(states, calls, keep, i);
    R.PointersAlwaysAgree(states, calls, keep, i, account);
    VisibleOutcome(states[i], keep, account, required, observed, ledger);
  }

  // ----- from staging to the reader -----

  lemma StillReplaceable(s: Store, s': Store, a: Artifact, account: Account, w: StageWorld, keep: Retention)
    requires P.StoreSound(s, keep) && w.id !in s.repo.issued && s'.active == s.active
    requires SameExcept(s.candidates, s'.candidates, w.id) && Replaceable(s, a.projection, account)
    ensures Replaceable(s', a.projection, account)
  {
    if account in s.active {
      assert P.LiveOk(s, account);
      assert P.CandidateOk(s, s.active[account]);
    }
  }

  /** The publication comes in time, for the canonical state that is read throughout, and the ledger goes along. */
  predicate Undisturbed(w: StageWorld, v: PublishWorld, identity: Identity) {
    && v.enter < w.begin + w.lease && v.again < w.begin + w.lease && v.swap < w.begin + w.lease
    && v.reserved && v.completed && v.epochOpen
    && v.before == Observed(Some(identity)) && v.after == Observed(Some(identity)) && v.last == Observed(Some(identity))
  }

  lemma StagedIsPublishable(s: Store, s': Store, a: Artifact, account: Account, identity: Identity, epoch: Epoch, w: StageWorld,
                            v: PublishWorld, keep: Retention)
    requires P.StoreSound(s, keep) && w.id !in s.repo.issued && Staged(s, s', a, identity, Some(epoch), w)
    requires a.projection.account == account && Replaceable(s, a.projection, account)
    requires epoch !in s.fenced && Undisturbed(w, v, identity)
    ensures Publishable(s', w.id, account, identity, v)
  {
    StillReplaceable(s, s', a, account, w, keep);
  }

  /** A candidate that is staged and then published without disturbance is what readers of that canonical state see. */
  lemma StagedIsPublished(s: Store, a: Artifact, account: Account, identity: Identity, epoch: Epoch, w: StageWorld, v: PublishWorld,
                          keep: Retention)
    requires keep.Valid() && P.StoreSound(s, keep) && w.id !in s.repo.issued
    requires Stageable(s, a, account, identity, Some(epoch), w) && epoch !in s.fenced && Undisturbed(w, v, identity)
    ensures var staged := Stage(s, a, account, identity, Some(epoch), w, keep);
            var published := Publish(staged.store, w.id, account, identity, v, keep);
            && staged.reply == Ok && published.reply == Ok && published.store.active == s.active[account := w.id]
            && var seen := Visible(published.store, account, Some(identity), Some(identity), Some(Completed));
               seen.Some? && seen.value.artifact == a
  {
    StageOutcome(s, a, account, identity, Some(epoch), w, keep);
    var staged := Stage(s, a, account, identity, Some(epoch), w, keep).store;
    StagedIsPublishable(s, staged, a, account, identity, epoch, w, v, keep);
    P.StageKeepsSound(s, a, account, identity, Some(epoch), w, keep);
    PublishableIsSeen(staged, w.id, account, identity, v, keep);
  }

  lemma PublishableIsSeen(s: Store, id: GenerationId, account: Account, identity: Identity, v: PublishWorld, keep: Retention)
    requires keep.Valid() && P.StoreSound(s, keep) && Publishable(s, id, account, identity, v)
    ensures var published := Publish(s, id, account, identity, v, keep);
            && published.reply == Ok && published.store.active == s.active[account := id]
            && var seen := Visible(published.store, account, Some(identity), Some(identity), Some(Completed));
               seen.Some? && seen.value.artifact == s.candidates[id].artifact
  {
    PublishOutcome(s, id, account, identity, v, keep);
    PublishedIsActive(s, id, account, identity, v, keep);
    PublishCarries(s, id, account, identity, v, keep);
    P.PublishKeepsSound(s, id, account, identity, v, keep);
    VisibleOutcome(Publish(s, id, account, identity, v, keep).store, keep, account, Some(identity), Some(identity), Some(Completed));
  }

  // ----- discarding and epochs -----

  /** A waiting candidate can be given up by its lease, and by its ledger entry if it has one; it is then retired or gone. */
  lemma DiscardCandidateOutcome(s: Store, id: GenerationId, ledger: bool, now: int, keep: Retention)
    ensures var r := DiscardCandidate(s, id, ledger, now, keep);
            && (r.reply == Ok <==>
                  && id in s.candidates && s.candidates[id].status != Retired && s.candidates[id].status != Active
                  && (s.candidates[id].intent == NoIntent || ledger)
                  && id in s.repo.generations
                  && (s.repo.generations[id].status == GraphGenerations.Building || s.repo.generations[id].status == Validated)
                  && s.repo.generations[id].owner == s.candidates[id].owner && now < s.repo.generations[id].leaseUntil)
            && (r.reply == NoChange <==> id in s.candidates && s.candidates[id].status == Retired)
            && (r.reply != Ok ==> r.store == s)
            && (r.reply == Ok ==>
                  && r.store.active == s.active && r.store.log == s.log && r.store.fenced == s.fenced && r.store.epochs == s.epochs
                  && (id in r.store.candidates ==> r.store.candidates[id].status == Retired)
                  && (id in r.store.repo.generations ==> r.store.repo.generations[id].status == Retired)
                  && (forall x :: x in r.store.candidates && x != id ==>
                        x in s.candidates && r.store.candidates[x] == s.candidates[x])
                  && (forall x :: x in s.candidates && x !in r.store.candidates ==>
                        x == id || (s.candidates[x].status == Retired && s.candidates[x].account == s.candidates[id].account)))
  {
    P.DiscardIsThreeSteps(s, id, ledger, now, keep);
    if id in s.candidates {
      DiscardOutcome(s.repo, id, s.candidates[id].owner, now, keep);
    }
  }

  /** Opening makes an epoch usable for its owner; only the owner can revoke it, which closes and fences it. */
  lemma EpochOutcome(s: Store, epoch: Epoch, scheduler: int, capability: int, ok: bool)
    ensures var r := OpenEpoch(s, epoch, scheduler, capability, ok);
            && (r.reply == Ok <==> ok) && (r.reply != Ok ==> r.store == s)
            && (r.reply == Ok ==> r.store == s.(epochs := r.store.epochs) && SameExcept(s.epochs, r.store.epochs, epoch)
                                  && epoch in r.store.epochs && r.store.epochs[epoch] == EpochState(scheduler, capability, true))
    ensures var r := RevokeEpoch(s, epoch, scheduler, capability, ok);
            && (r.reply == Ok <==> ok && epoch in s.epochs && s.epochs[epoch].scheduler == scheduler
                                   && s.epochs[epoch].capability == capability)
            && (r.reply != Ok ==> r.store == s)
            && (r.reply == Ok ==> r.store == s.(epochs := r.store.epochs, fenced := s.fenced + {epoch})
                                  && SameExcept(s.epochs, r.store.epochs, epoch)
                                  && epoch in r.store.epochs && !r.store.epochs[epoch].open)
    ensures Fence(s, epoch).store == s.(fenced := s.fenced + {epoch})
  {
  }
}
