/** Publication is a safe compare-and-swap, over every interleaving of its operations. */
module PublicationGuarantees {
  import opened Options
  import opened Graph
  import opened GraphGenerations
  import opened Publication
  import opened GraphHistory

  // ----- the invariant -----

  /** The store's pointer and the graph's pointer are the same. */
  ghost predicate PointersAgree(s: Store) {
    forall a :: a in s.active || a in s.repo.active ==>
      a in s.active && a in s.repo.active && s.active[a] == s.repo.active[a]
  }

  /** One publication may follow another: the revision does not fall, and the number rises unless nothing changed. */
  predicate Follows(p: Projection, q: Projection) {
    p.revision <= q.revision && (p == q || p.number < q.number)
  }

  /** The pointer an activation at position `k` replaced. */
  function Before(log: seq<Activation>, k: nat): Option<GenerationId>
    requires k <= |log|
  {
    if k == 0 then None else Some(log[k - 1].generation)
  }

  ghost predicate Linked(log: seq<Activation>) {
    forall k :: 0 <= k < |log| ==> log[k].expected == Before(log, k)
  }

  ghost predicate Unrepeated(log: seq<Activation>) {
    forall j, k :: 0 <= j < k < |log| ==> log[j].generation != log[k].generation
  }

  ghost predicate Advancing(log: seq<Activation>) {
    forall k :: 0 < k < |log| ==> Follows(log[k - 1].projection, log[k].projection)
  }

  /** Each activation was expecting exactly the one before it, and nothing is activated twice. */
  ghost predicate Chain(log: seq<Activation>) {
    Linked(log) && Unrepeated(log) && Advancing(log)
  }

  /** The active candidate is the one published last. */
  ghost predicate LiveOk(s: Store, a: Account) {
    if a in s.active then
      && s.active[a] in s.candidates
      && s.candidates[s.active[a]].account == a && s.candidates[s.active[a]].status == Active
      && s.candidates[s.active[a]].intent == Completed
      && |LogOf(s, a)| > 0
      && LogOf(s, a)[|LogOf(s, a)| - 1].generation == s.active[a]
      && LogOf(s, a)[|LogOf(s, a)| - 1].projection == s.candidates[s.active[a]].artifact.projection
    else
      LogOf(s, a) == []
  }

  /** What was once published is active or retired in the graph repository, if it is still there. */
  ghost predicate PublishedOk(s: Store, a: Account) {
    forall k :: 0 <= k < |LogOf(s, a)| ==>
      && LogOf(s, a)[k].generation in s.repo.issued
      && (LogOf(s, a)[k].generation in s.repo.generations ==>
            s.repo.generations[LogOf(s, a)[k].generation].status in {Active, Retired})
  }

  ghost predicate CandidateOk(s: Store, id: GenerationId)
    requires id in s.candidates
  {
    && id in s.repo.issued
    && (id in s.repo.generations ==> s.repo.generations[id].partition == s.candidates[id].account)
    && s.candidates[id].artifact.projection.account == s.candidates[id].account
    && (s.candidates[id].status == Active ==>
          s.candidates[id].account in s.active && s.active[s.candidates[id].account] == id)
  }

  /** The active candidate and the history of every account. */
  ghost predicate AccountsOk(s: Store) {
    forall a :: LiveOk(s, a) && PublishedOk(s, a) && Chain(LogOf(s, a))
  }

  ghost predicate CandidatesOk(s: Store) {
    forall id :: id in s.candidates ==> CandidateOk(s, id)
  }

  ghost predicate StoreSound(s: Store, keep: Retention) {
    Sound(s.repo, keep) && PointersAgree(s) && AccountsOk(s) && CandidatesOk(s)
  }

  // ----- steps that leave the pointers alone -----

  /** The graph went on without moving a pointer; candidates were added, withdrawn or dropped, but no active one. */
  ghost predicate Quiet(s: Store, s': Store) {
    && s'.active == s.active && s'.log == s.log && s'.repo.active == s.repo.active && Onward(s.repo, s'.repo)
    && (forall a :: a in s.active && s.active[a] in s.candidates ==>
          s.active[a] in s'.candidates && s'.candidates[s.active[a]] == s.candidates[s.active[a]])
    && (forall id :: id in s'.candidates ==>
          if id in s.candidates then
            && s'.candidates[id].account == s.candidates[id].account
            && s'.candidates[id].artifact == s.candidates[id].artifact
            && (s'.candidates[id].status == Active ==> s.candidates[id].status == Active)
          else
            CandidateOk(s', id) && s'.candidates[id].status != Active)
  }

  lemma QuietKeepsPublished(s: Store, s': Store, a: Account)
    requires PublishedOk(s, a) && LogOf(s', a) == LogOf(s, a) && Onward(s.repo, s'.repo)
    ensures PublishedOk(s', a)
  {
  }

  lemma QuietKeepsCandidates(s: Store, s': Store)
    requires Quiet(s, s') && CandidatesOk(s)
    ensures CandidatesOk(s')
  {
    forall id | id in s'.candidates ensures CandidateOk(s', id) {
      assert id in s.candidates ==> CandidateOk(s, id);
    }
  }

  lemma QuietKeepsAccounts(s: Store, s': Store)
    requires Quiet(s, s') && AccountsOk(s)
    ensures AccountsOk(s')
  {
    forall a ensures LiveOk(s', a) && PublishedOk(s', a) && Chain(LogOf(s', a)) {
      assert LiveOk(s, a) && PublishedOk(s, a) && Chain(LogOf(s, a));
      QuietKeepsPublished(s, s', a);
    }
  }

  lemma QuietKeepsPointers(s: Store, s': Store)
    requires Quiet(s, s') && PointersAgree(s)
    ensures PointersAgree(s')
  {
  }

  lemma QuietKeepsSound(s: Store, s': Store, keep: Retention)
    requires StoreSound(s, keep) && Quiet(s, s') && Sound(s'.repo, keep)
    ensures StoreSound(s', keep)
  {
    QuietKeepsPointers(s, s');
    QuietKeepsAccounts(s, s');
    QuietKeepsCandidates(s, s');
  }

  /** Nothing was published: pointers and history are as they were, and fences only grow. */
  ghost predicate Still(s: Store, s': Store) {
    s'.active == s.active && s'.log == s.log && s'.repo.active == s.repo.active && s.fenced <= s'.fenced
  }

  // ----- the graph repository moves on underneath -----

  /** The graph repository went on without moving a pointer. */
  ghost predicate Moved(s: Repo, s': Repo, keep: Retention) {
    Sound(s', keep) && Onward(s, s') && s'.active == s.active
  }

  lemma MovedTwice(a: Repo, b: Repo, c: Repo, keep: Retention)
    requires Moved(a, b, keep) && Moved(b, c, keep)
    ensures Moved(a, c, keep)
  {
  }

  lemma NotMoved(s: Repo, keep: Retention)
    requires Sound(s, keep)
    ensures Moved(s, s, keep)
  {
  }

  /** Every repository operation but an activation leaves the pointers alone. */
  lemma OnlyActivationMovesPointers(s: Repo, op: Op, keep: Retention)
    requires keep.Valid() && Sound(s, keep) && Legal(s, op) && !op.ActivateOp?
    ensures Moved(s, Apply(s, op, keep).repo, keep)
  {
    ApplyKeepsSound(s, op, keep);
    PointersUntouched(s, op, keep);
  }

  lemma PointersUntouched(s: Repo, op: Op, keep: Retention)
    requires !op.ActivateOp?
    ensures Apply(s, op, keep).repo.active == s.active
  {
  }

  lemma DiscardMoves(s: Repo, id: GenerationId, owner: Owner, now: int, keep: Retention)
    requires keep.Valid() && Sound(s, keep)
    ensures Moved(s, Discard(s, id, owner, now, keep).repo, keep)
  {
    var op := DiscardOp(id, owner, now);
    OnlyActivationMovesPointers(s, op, keep);
    assert Apply(s, op, keep) == Discard(s, id, owner, now, keep);
  }

  lemma ReclaimMoves(s: Repo, id: GenerationId, now: int, keep: Retention)
    requires keep.Valid() && Sound(s, keep)
    ensures Moved(s, Reclaim(s, id, now, keep).repo, keep)
  {
    var op := ReclaimOp(id, now);
    OnlyActivationMovesPointers(s, op, keep);
    assert Apply(s, op, keep) == Reclaim(s, id, now, keep);
  }

  /** Only the graph repository changed, without moving a pointer. */
  lemma GraphMovesUnderneath(s: Store, repo: Repo, keep: Retention)
    requires StoreSound(s, keep) && Moved(s.repo, repo, keep)
    ensures StoreSound(s.(repo := repo), keep) && Still(s, s.(repo := repo))
  {
    QuietKeepsSound(s, s.(repo := repo), keep);
  }

  // ----- staging -----

  lemma EnterKeepsSound(s: Store, id: GenerationId, c: Candidate, ordinal: nat, keep: Retention)
    requires StoreSound(s, keep) && id !in s.candidates && c.status == Validated
    requires id in s.repo.issued && id in s.repo.generations && s.repo.generations[id].partition == c.account
    requires c.artifact.projection.account == c.account
    ensures var s' := s.(ordinal := ordinal, candidates := s.candidates[id := c]);
            StoreSound(s', keep) && Still(s, s')
  {
    var s' := s.(ordinal := ordinal, candidates := s.candidates[id := c]);
    NotMoved(s.repo, keep);
    assert Quiet(s, s');
    QuietKeepsSound(s, s', keep);
  }

  lemma AbandonMoves(s: Repo, repo: Repo, w: StageWorld, keep: Retention, error: StoreError)
    requires keep.Valid() && Moved(s, repo, keep)
    ensures Moved(s, Abandon(repo, w, keep, error).repo, keep)
  {
    DiscardMoves(repo, w.id, w.owner, w.discard, keep);
    MovedTwice(s, repo, Discard(repo, w.id, w.owner, w.discard, keep).repo, keep);
  }

  lemma ValidateMoves(s: Repo, filled: Repo, handle: Handle, t: Clock, keep: Retention)
    requires keep.Valid() && Moved(s, filled, keep)
    ensures Moved(s, Validate(filled, handle, t).repo, keep)
  {
    ValidateKeepsSound(filled, handle, t, keep);
    ValidateRewrites(filled, handle, t);
    MovedTwice(s, filled, Validate(filled, handle, t).repo, keep);
  }

  lemma FrozenMoves(s: Repo, filled: Repo, a: Artifact, handle: Handle, w: StageWorld, keep: Retention)
    requires keep.Valid() && Moved(s, filled, keep)
    ensures Moved(s, BuildFrozen(filled, a, handle, w, keep).repo, keep)
  {
    var frozen := Validate(filled, handle, w.validate);
    ValidateMoves(s, filled, handle, w.validate, keep);
    AbandonMoves(s, frozen.repo, w, keep, ArtifactInvalid);
    if frozen.answer.Raised? {
      AbandonMoves(s, frozen.repo, w, keep, GraphRefused(frozen.answer.error));
    }
  }

  lemma FilledMoves(s: Repo, begun: Repo, a: Artifact, handle: Handle, w: StageWorld, keep: Retention)
    requires keep.Valid() && Moved(s, begun, keep)
    ensures Moved(s, BuildFilled(begun, a, handle, w, keep).repo, keep)
  {
    var filled := Replace(begun, handle, a.nodes, a.edges, w.replace);
    OnlyActivationMovesPointers(begun, ReplaceOp(handle, a.nodes, a.edges, w.replace), keep);
    MovedTwice(s, begun, filled.repo, keep);
    if filled.answer.Raised? {
      AbandonMoves(s, filled.repo, w, keep, GraphRefused(filled.answer.error));
    } else {
      FrozenMoves(s, filled.repo, a, handle, w, keep);
    }
  }

  lemma BuildGraphMoves(s: Repo, a: Artifact, account: Account, revision: nat, w: StageWorld, keep: Retention)
    requires keep.Valid() && Sound(s, keep) && w.id !in s.issued
    ensures Moved(s, BuildGraph(s, a, account, revision, w, keep).repo, keep)
  {
    OnlyActivationMovesPointers(s, BeginOp(w.id, account, revision, w.owner, w.begin, w.lease), keep);
    var begun := Begin(s, w.id, account, revision, w.owner, w.begin, w.lease);
    FilledMoves(s, begun.repo, a, Handle(w.id, w.owner, w.lease, true), w, keep);
  }

  lemma BuildIsNew(s: Repo, a: Artifact, account: Account, revision: nat, w: StageWorld, keep: Retention)
    ensures var b := BuildGraph(s, a, account, revision, w, keep);
            b.error.None? ==> w.id in b.repo.issued && w.id in b.repo.generations && b.repo.generations[w.id].partition == account
  {
  }

  lemma EnterBuildKeepsSound(s: Store, build: Build, a: Artifact, identity: Identity, epoch: Epoch, w: StageWorld, keep: Retention)
    requires StoreSound(s, keep) && epoch in s.epochs && w.id !in s.repo.issued && Moved(s.repo, build.repo, keep)
    requires build.error.None? ==>
               && w.id in build.repo.issued && w.id in build.repo.generations
               && build.repo.generations[w.id].partition == a.projection.account
    ensures var s' := EnterBuild(s, build, a, identity, epoch, w).store;
            StoreSound(s', keep) && Still(s, s')
  {
    GraphMovesUnderneath(s, build.repo, keep);
    if build.error.None? {
      assert w.id !in s.candidates by {
        assert w.id in s.candidates ==> CandidateOk(s, w.id);
      }
      var account := a.projection.account;
      var c := Candidate(a, identity, epoch, ActiveOf(s.repo, account), w.owner, account, s.epochs[epoch].capability,
                         s.ordinal + 1, Validated, NoIntent);
      EnterKeepsSound(s.(repo := build.repo), w.id, c, s.ordinal + 1, keep);
    }
  }

  lemma StageBuildKeepsSound(s: Store, a: Artifact, identity: Identity, epoch: Epoch, w: StageWorld, keep: Retention)
    requires keep.Valid() && StoreSound(s, keep) && epoch in s.epochs && w.id !in s.repo.issued
    ensures var s' := StageBuild(s, a, identity, epoch, w, keep).store;
            StoreSound(s', keep) && Still(s, s')
  {
    var account := a.projection.account;
    BuildGraphMoves(s.repo, a, account, identity.revision, w, keep);
    BuildIsNew(s.repo, a, account, identity.revision, w, keep);
    EnterBuildKeepsSound(s, BuildGraph(s.repo, a, account, identity.revision, w, keep), a, identity, epoch, w, keep);
  }

  lemma AuthorityKeepsSound(s: Store, account: Account, expected: Identity, reading: Reading, keep: Retention)
    requires StoreSound(s, keep)
    ensures var r := RequireAuthority(s, account, expected, reading);
            r.Some? ==> && StoreSound(r.value, keep) && Still(s, r.value)
                        && r.value == s.(authority := r.value.authority)
  {
    NotMoved(s.repo, keep);
    var r := RequireAuthority(s, account, expected, reading);
    if r.Some? {
      assert Quiet(s, r.value);
      QuietKeepsSound(s, r.value, keep);
    }
  }

  /** Opening, revoking and fencing epochs leaves everything else alone. */
  lemma EpochsKeepSound(s: Store, epochs: map<Epoch, EpochState>, fenced: set<Epoch>, keep: Retention)
    requires StoreSound(s, keep) && s.fenced <= fenced
    ensures StoreSound(s.(epochs := epochs, fenced := fenced), keep) && Still(s, s.(epochs := epochs, fenced := fenced))
  {
    NotMoved(s.repo, keep);
    assert Quiet(s, s.(epochs := epochs, fenced := fenced));
    QuietKeepsSound(s, s.(epochs := epochs, fenced := fenced), keep);
  }

  lemma AdmittedKeepsSound(s: Store, a: Artifact, identity: Identity, epoch: Option<Epoch>, w: StageWorld, keep: Retention)
    requires keep.Valid() && StoreSound(s, keep) && w.id !in s.repo.issued
    ensures var s' := StageAdmitted(s, a, identity, epoch, w, keep).store;
            StoreSound(s', keep) && Still(s, s')
  {
    var s1 := if epoch.Some? then s else s.(epochs := s.epochs[w.freshEpoch := DIRECT]);
    var e := if epoch.Some? then epoch.value else w.freshEpoch;
    EpochsKeepSound(s, s1.epochs, s1.fenced, keep);
    if e in s1.epochs {
      StageBuildKeepsSound(s1, a, identity, e, w, keep);
    }
  }

  lemma StageKeepsSound(s: Store, a: Artifact, account: Account, identity: Identity, epoch: Option<Epoch>, w: StageWorld,
                        keep: Retention)
    requires keep.Valid() && StoreSound(s, keep) && w.id !in s.repo.issued
    ensures var s' := Stage(s, a, account, identity, epoch, w, keep).store;
            StoreSound(s', keep) && Still(s, s')
  {
    var admitted := RequireAuthority(s, account, identity, w.reading);
    if ArtifactOk(a, identity) && a.projection.account == account && admitted.Some? {
      AuthorityKeepsSound(s, account, identity, w.reading, keep);
      AdmittedKeepsSound(admitted.value, a, identity, epoch, w, keep);
      assert Stage(s, a, account, identity, epoch, w, keep) == StageAdmitted(admitted.value, a, identity, epoch, w, keep);
    } else {
      assert Stage(s, a, account, identity, epoch, w, keep).store == s;
    }
  }

  // ----- publishing -----

  /** `act` was published for `account`: it expected the pointer it replaced, and its epoch was not fenced. */
  ghost predicate Published(s: Store, s': Store, account: Account, act: Activation) {
    && s'.active == s.active[account := act.generation]
    && s'.log == s.log[account := LogOf(s, account) + [act]]
    && act.expected == (if account in s.active then Some(s.active[account]) else None)
    && act.epoch !in s.fenced && s'.fenced == s.fenced
  }

  lemma ActivationFacts(s: Repo, id: GenerationId, expected: Option<GenerationId>, owner: Option<Owner>, now: int, keep: Retention)
    requires Activate(s, id, expected, owner, now, keep).answer.Done?
    ensures id in s.generations && s.generations[id].status == Validated
    ensures ActiveOf(s, s.generations[id].partition) == expected
    ensures Activate(s, id, expected, owner, now, keep).repo.active == s.active[s.generations[id].partition := id]
  {
  }

  /** What must hold at the moment the pointers are swapped. */
  ghost predicate ReadyToPromote(s: Store, id: GenerationId, repo: Repo) {
    && id in s.candidates && s.candidates[id].status == Validated && s.candidates[id].intent == Completed
    && id in s.repo.generations && s.repo.generations[id].status == Validated
    && ActiveOf(s.repo, s.candidates[id].account) == s.candidates[id].expected
    && ReplacementError(s.candidates[id].artifact.projection, Current(s, s.candidates[id].account)).None?
    && s.candidates[id].epoch !in s.fenced
    && Onward(s.repo, repo) && repo.active == s.repo.active[s.candidates[id].account := id]
  }

  lemma LinkedExtends(log: seq<Activation>, act: Activation)
    requires Linked(log) && act.expected == Before(log, |log|)
    ensures Linked(log + [act])
  {
  }

  lemma AdvancingExtends(log: seq<Activation>, act: Activation)
    requires Advancing(log) && (log != [] ==> Follows(log[|log| - 1].projection, act.projection))
    ensures Advancing(log + [act])
  {
  }

  lemma PromotionExtendsChain(s: Store, id: GenerationId, repo: Repo)
    requires ReadyToPromote(s, id, repo) && PointersAgree(s)
    requires LiveOk(s, s.candidates[id].account) && PublishedOk(s, s.candidates[id].account)
    requires Chain(LogOf(s, s.candidates[id].account))
    ensures var c := s.candidates[id];
            Chain(LogOf(s, c.account) + [Activation(id, c.expected, c.epoch, c.artifact.projection)])
  {
    var c := s.candidates[id];
    var log := LogOf(s, c.account);
    var act := Activation(id, c.expected, c.epoch, c.artifact.projection);
    LinkedExtends(log, act);
    AdvancingExtends(log, act);
  }

  lemma PromotedIsLive(s: Store, id: GenerationId, repo: Repo, keep: Retention)
    requires ReadyToPromote(s, id, repo)
    ensures LiveOk(Promote(s, id, repo, keep), s.candidates[id].account)
  {
  }

  lemma PromotionKeepsLive(s: Store, id: GenerationId, repo: Repo, keep: Retention, b: Account)
    requires ReadyToPromote(s, id, repo) && b != s.candidates[id].account
    requires LiveOk(s, b) && LiveOk(s, s.candidates[id].account)
    ensures LiveOk(Promote(s, id, repo, keep), b)
  {
  }

  lemma PromotionKeepsPublished(s: Store, id: GenerationId, repo: Repo, keep: Retention, b: Account)
    requires ReadyToPromote(s, id, repo) && PointersOk(repo) && PublishedOk(s, b) && id in s.repo.issued
    ensures PublishedOk(Promote(s, id, repo, keep), b)
  {
    var s' := Promote(s, id, repo, keep);
    forall k | 0 <= k < |LogOf(s', b)|
      ensures LogOf(s', b)[k].generation in repo.issued
      ensures LogOf(s', b)[k].generation in repo.generations ==>
                repo.generations[LogOf(s', b)[k].generation].status in {Active, Retired}
    {
      var x := LogOf(s', b)[k].generation;
      if k < |LogOf(s, b)| {
        assert LogOf(s, b)[k].generation == x;
        if x in repo.generations {
          assert Frozen(s.repo.generations[x], repo.generations[x]);
        }
      } else {
        assert x == id && repo.active[b] == id;
      }
    }
  }

  lemma PromotionKeepsCandidates(s: Store, id: GenerationId, repo: Repo, keep: Retention, x: GenerationId)
    requires ReadyToPromote(s, id, repo) && x in Promote(s, id, repo, keep).candidates
    requires x in s.candidates ==> CandidateOk(s, x)
    ensures CandidateOk(Promote(s, id, repo, keep), x)
  {
  }

  lemma PromoteKeepsAccounts(s: Store, id: GenerationId, repo: Repo, keep: Retention)
    requires ReadyToPromote(s, id, repo) && PointersAgree(s) && AccountsOk(s) && PointersOk(repo) && id in s.repo.issued
    ensures AccountsOk(Promote(s, id, repo, keep))
  {
    var c := s.candidates[id];
    var s' := Promote(s, id, repo, keep);
    assert LiveOk(s, c.account);
    forall b ensures LiveOk(s', b) && PublishedOk(s', b) && Chain(LogOf(s', b)) {
      assert LiveOk(s, b) && PublishedOk(s, b) && Chain(LogOf(s, b));
      if b == c.account {
        PromotedIsLive(s, id, repo, keep);
        PromotionExtendsChain(s, id, repo);
      } else {
        PromotionKeepsLive(s, id, repo, keep, b);
      }
      PromotionKeepsPublished(s, id, repo, keep, b);
    }
  }

  lemma PromoteKeepsCandidates(s: Store, id: GenerationId, repo: Repo, keep: Retention)
    requires ReadyToPromote(s, id, repo) && CandidatesOk(s)
    ensures CandidatesOk(Promote(s, id, repo, keep))
  {
    forall x | x in Promote(s, id, repo, keep).candidates ensures CandidateOk(Promote(s, id, repo, keep), x) {
      PromotionKeepsCandidates(s, id, repo, keep, x);
    }
  }

  lemma PromoteMovesBoth(s: Store, id: GenerationId, repo: Repo, keep: Retention)
    requires ReadyToPromote(s, id, repo) && PointersAgree(s)
    ensures var c := s.candidates[id];
            && PointersAgree(Promote(s, id, repo, keep)) && Promote(s, id, repo, keep).repo == repo
            && Published(s, Promote(s, id, repo, keep), c.account, Activation(id, c.expected, c.epoch, c.artifact.projection))
  {
  }

  lemma PromoteKeepsSound(s: Store, id: GenerationId, repo: Repo, keep: Retention)
    requires StoreSound(s, keep) && ReadyToPromote(s, id, repo) && Sound(repo, keep)
    ensures StoreSound(Promote(s, id, repo, keep), keep)
    ensures exists act :: Published(s, Promote(s, id, repo, keep), s.candidates[id].account, act)
  {
    assert CandidateOk(s, id);
    PromoteMovesBoth(s, id, repo, keep);
    PromoteKeepsAccounts(s, id, repo, keep);
    PromoteKeepsCandidates(s, id, repo, keep);
  }

  /** Either nothing was published, or exactly this candidate was. */
  ghost predicate StillOrPublished(s: Store, s': Store, account: Account, id: GenerationId, published: bool) {
    if published then exists act :: Published(s, s', account, act) && act.generation == id else Still(s, s')
  }

  lemma StillThen(s: Store, s1: Store, r: Outcome, account: Account, id: GenerationId)
    requires Still(s, s1) && s1.fenced == s.fenced && StillOrPublished(s1, r.store, account, id, r.reply.Ok?)
    ensures StillOrPublished(s, r.store, account, id, r.reply.Ok?)
  {
  }

  lemma SwapPromotes(s: Store, id: GenerationId, w: PublishWorld, keep: Retention)
    requires keep.Valid() && StoreSound(s, keep) && id in s.candidates
    requires s.candidates[id].status == Validated && s.candidates[id].intent == Completed
    requires s.candidates[id].epoch !in s.fenced
    requires ReplacementError(s.candidates[id].artifact.projection, Current(s, s.candidates[id].account)).None?
    ensures var c := s.candidates[id];
            var swapped := Activate(s.repo, id, c.expected, Some(c.owner), w.swap, keep);
            if swapped.answer.Raised? then swapped.repo == s.repo
            else ReadyToPromote(s, id, swapped.repo) && Sound(swapped.repo, keep)
  {
    var c := s.candidates[id];
    var swapped := Activate(s.repo, id, c.expected, Some(c.owner), w.swap, keep);
    ActivateKeepsSound(s.repo, id, c.expected, Some(c.owner), w.swap, keep);
    if swapped.answer.Done? {
      ActivationFacts(s.repo, id, c.expected, Some(c.owner), w.swap, keep);
      assert CandidateOk(s, id);
    }
  }

  lemma SwapKeepsSound(s: Store, id: GenerationId, identity: Identity, w: PublishWorld, keep: Retention)
    requires keep.Valid() && StoreSound(s, keep) && id in s.candidates
    requires s.candidates[id].status == Validated && s.candidates[id].intent == Completed
    requires s.candidates[id].epoch !in s.fenced
    requires ReplacementError(s.candidates[id].artifact.projection, Current(s, s.candidates[id].account)).None?
    ensures var r := SwapPointers(s, id, identity, w, keep);
            && StoreSound(r.store, keep) && (r.reply.Refused? || r.reply.Ok?)
            && StillOrPublished(s, r.store, s.candidates[id].account, id, r.reply.Ok?)
            && (r.reply.Refused? ==> r.store.candidates == s.candidates && r.store.repo == s.repo)
  {
    var c := s.candidates[id];
    AuthorityKeepsSound(s, c.account, identity, w.last, keep);
    var first := RequireAuthority(s, c.account, identity, w.last);
    if first.Some? {
      var s1 := first.value;
      var swapped := Activate(s1.repo, id, c.expected, Some(c.owner), w.swap, keep);
      SwapPromotes(s1, id, w, keep);
      if swapped.answer.Raised? {
        assert s1.(repo := swapped.repo) == s1;
      } else {
        PromoteKeepsSound(s1, id, swapped.repo, keep);
        var act :| Published(s1, Promote(s1, id, swapped.repo, keep), c.account, act);
        assert Promote(s1, id, swapped.repo, keep).active[c.account] == id;
        assert Published(s, Promote(s1, id, swapped.repo, keep), c.account, act);
      }
    }
  }

  /** An attempt is refused before the pointers are touched, or swaps them. */
  lemma TryActivateEnds(s: Store, id: GenerationId, identity: Identity, w: PublishWorld, keep: Retention)
    requires id in s.candidates
    ensures var c := s.candidates[id];
            var r := TryActivate(s, id, identity, w, keep);
            var first := RequireAuthority(s, c.account, identity, w.after);
            || (r.store == s && r.reply.Refused?)
            || (first.Some? && r.store == first.value && r.reply.Refused?)
            || (&& first.Some? && c.epoch !in s.fenced && first.value == s.(authority := first.value.authority)
                && ReplacementError(c.artifact.projection, Current(first.value, c.account)).None?
                && r == SwapPointers(first.value, id, identity, w, keep))
  {
  }

  lemma TryActivateKeepsSound(s: Store, id: GenerationId, identity: Identity, w: PublishWorld, keep: Retention)
    requires keep.Valid() && StoreSound(s, keep) && id in s.candidates
    requires s.candidates[id].status == Validated && s.candidates[id].intent == Completed
    ensures var r := TryActivate(s, id, identity, w, keep);
            && StoreSound(r.store, keep) && (r.reply.Refused? || r.reply.Ok?)
            && StillOrPublished(s, r.store, s.candidates[id].account, id, r.reply.Ok?)
            && (r.reply.Refused? ==> r.store.candidates == s.candidates && r.store.repo == s.repo)
  {
    var c := s.candidates[id];
    var r := TryActivate(s, id, identity, w, keep);
    AuthorityKeepsSound(s, c.account, identity, w.after, keep);
    TryActivateEnds(s, id, identity, w, keep);
    var first := RequireAuthority(s, c.account, identity, w.after);
    if !(r.store == s && r.reply.Refused?) && !(r.store == first.value && r.reply.Refused?) {
      SwapKeepsSound(first.value, id, identity, w, keep);
      StillThen(s, first.value, r, c.account, id);
    }
  }

  lemma WithdrawKeepsSound(s: Store, id: GenerationId, w: PublishWorld, keep: Retention, error: StoreError)
    requires keep.Valid() && StoreSound(s, keep) && id in s.candidates && s.candidates[id].status == Validated
    ensures var s' := Withdraw(s, id, w, keep, error).store;
            StoreSound(s', keep) && Still(s, s')
  {
    var c := s.candidates[id];
    DiscardMoves(s.repo, id, c.owner, w.discard, keep);
    var repo := Discard(s.repo, id, c.owner, w.discard, keep).repo;
    GraphMovesUnderneath(s, repo, keep);
    RetireKeepsStoreSound(s.(repo := repo), id, keep);
  }

  /** Retiring a candidate that is not active. */
  lemma RetireKeepsStoreSound(s: Store, id: GenerationId, keep: Retention)
    requires StoreSound(s, keep) && id in s.candidates && s.candidates[id].status != Active
    ensures var s' := s.(candidates := s.candidates[id := s.candidates[id].(status := Retired)]);
            StoreSound(s', keep) && Still(s, s')
  {
    NotMoved(s.repo, keep);
    var s' := s.(candidates := s.candidates[id := s.candidates[id].(status := Retired)]);
    forall a | a in s.active ensures s.active[a] != id {
      assert LiveOk(s, a);
    }
    assert Quiet(s, s');
    QuietKeepsSound(s, s', keep);
  }

  lemma IntentKeepsSound(s: Store, id: GenerationId, intent: Intent, keep: Retention)
    requires StoreSound(s, keep) && id in s.candidates && s.candidates[id].status == Validated
    ensures StoreSound(SetIntent(s, id, intent), keep) && Still(s, SetIntent(s, id, intent))
  {
    NotMoved(s.repo, keep);
    forall a | a in s.active ensures s.active[a] != id {
      assert LiveOk(s, a);
    }
    assert Quiet(s, SetIntent(s, id, intent));
    QuietKeepsSound(s, SetIntent(s, id, intent), keep);
  }

  lemma CompletedKeepsSound(s: Store, id: GenerationId, identity: Identity, w: PublishWorld, keep: Retention)
    requires keep.Valid() && StoreSound(s, keep) && id in s.candidates
    requires s.candidates[id].status == Validated && s.candidates[id].intent == Completed
    ensures var r := PublishCompleted(s, id, identity, w, keep);
            StoreSound(r.store, keep) && StillOrPublished(s, r.store, s.candidates[id].account, id, r.reply.Ok?)
  {
    TryActivateKeepsSound(s, id, identity, w, keep);
    var attempt := TryActivate(s, id, identity, w, keep);
    if attempt.reply.Refused? {
      WithdrawKeepsSound(attempt.store, id, w, keep, attempt.reply.error);
    }
  }

  lemma ReservedKeepsSound(s: Store, id: GenerationId, identity: Identity, w: PublishWorld, keep: Retention)
    requires keep.Valid() && StoreSound(s, keep) && id in s.candidates && s.candidates[id].status == Validated
    ensures var r := PublishReserved(s, id, identity, w, keep);
            StoreSound(r.store, keep) && StillOrPublished(s, r.store, s.candidates[id].account, id, r.reply.Ok?)
  {
    IntentKeepsSound(s, id, Reserved, keep);
    IntentKeepsSound(s, id, Completed, keep);
    var ready := SetIntent(s, id, Completed);
    CompletedKeepsSound(ready, id, identity, w, keep);
    StillThen(s, ready, PublishCompleted(ready, id, identity, w, keep), s.candidates[id].account, id);
  }

  /** A publication is turned away at once, or goes on to its ledger entry. */
  lemma PublishEnds(s: Store, id: GenerationId, account: Account, identity: Identity, w: PublishWorld, keep: Retention)
    ensures var r := Publish(s, id, account, identity, w, keep);
            var first := RequireAuthority(s, account, identity, w.before);
            || (r.store == s && !r.reply.Ok?)
            || (&& first.Some? && id in s.candidates && s.candidates[id].account == account
                && s.candidates[id].status == Validated && first.value == s.(authority := first.value.authority)
                && r == PublishReserved(first.value, id, identity, w, keep))
  {
  }

  /** A publication either moves the pointer to its candidate, or leaves the pointers where they are. */
  lemma PublishKeepsSound(s: Store, id: GenerationId, account: Account, identity: Identity, w: PublishWorld, keep: Retention)
    requires keep.Valid() && StoreSound(s, keep)
    ensures var r := Publish(s, id, account, identity, w, keep);
            StoreSound(r.store, keep) && StillOrPublished(s, r.store, account, id, r.reply.Ok?)
  {
    var r := Publish(s, id, account, identity, w, keep);
    PublishEnds(s, id, account, identity, w, keep);
    if !(r.store == s && !r.reply.Ok?) {
      var first := RequireAuthority(s, account, identity, w.before);
      AuthorityKeepsSound(s, account, identity, w.before, keep);
      ReservedKeepsSound(first.value, id, identity, w, keep);
      StillThen(s, first.value, r, account, id);
    }
  }

  /** A candidate is discarded in three steps: in the graph, in its status, and by dropping old ones. */
  lemma DiscardIsThreeSteps(s: Store, id: GenerationId, ledger: bool, now: int, keep: Retention)
    ensures var r := DiscardCandidate(s, id, ledger, now, keep);
            if r.reply.Ok? then
              && id in s.candidates && s.candidates[id].status != Active
              && var c := s.candidates[id];
                 var s2 := s.(repo := Discard(s.repo, id, c.owner, now, keep).repo,
                              candidates := s.candidates[id := c.(status := Retired)]);
                 r.store == s2.(candidates := CollectCandidates(s2.candidates, c.account, keep))
            else r.store == s
  {
  }

  lemma DiscardKeepsSound(s: Store, id: GenerationId, ledger: bool, now: int, keep: Retention)
    requires keep.Valid() && StoreSound(s, keep)
    ensures var s' := DiscardCandidate(s, id, ledger, now, keep).store;
            StoreSound(s', keep) && Still(s, s')
  {
    DiscardIsThreeSteps(s, id, ledger, now, keep);
    if DiscardCandidate(s, id, ledger, now, keep).reply.Ok? {
      DroppedKeepsSound(s, id, now, keep);
    }
  }

  lemma DroppedKeepsSound(s: Store, id: GenerationId, now: int, keep: Retention)
    requires keep.Valid() && StoreSound(s, keep) && id in s.candidates && s.candidates[id].status != Active
    ensures var c := s.candidates[id];
            var s2 := s.(repo := Discard(s.repo, id, c.owner, now, keep).repo,
                         candidates := s.candidates[id := c.(status := Retired)]);
            var s' := s2.(candidates := CollectCandidates(s2.candidates, c.account, keep));
            StoreSound(s', keep) && Still(s, s')
  {
    var c := s.candidates[id];
    var repo := Discard(s.repo, id, c.owner, now, keep).repo;
    DiscardMoves(s.repo, id, c.owner, now, keep);
    GraphMovesUnderneath(s, repo, keep);
    RetireKeepsStoreSound(s.(repo := repo), id, keep);
    CollectKeepsStoreSound(s.(repo := repo, candidates := s.candidates[id := c.(status := Retired)]), c.account, keep);
  }

  lemma CollectKeepsStoreSound(s: Store, account: Account, keep: Retention)
    requires StoreSound(s, keep)
    ensures var s' := s.(candidates := CollectCandidates(s.candidates, account, keep));
            StoreSound(s', keep) && Still(s, s')
  {
    NotMoved(s.repo, keep);
    var s' := s.(candidates := CollectCandidates(s.candidates, account, keep));
    forall a | a in s.active ensures s.active[a] in s'.candidates {
      assert LiveOk(s, a);
    }
    assert Quiet(s, s');
    QuietKeepsSound(s, s', keep);
  }
}
