/** The projection store as the object that is updated in place, over the graph repository it shares a lock with. */
module ProjectionStore {
  import opened Options
  import opened Graph
  import opened GraphGenerations
  import opened Publication
  import R = GraphRepository
  import Runs = PublicationRuns

  class InMemoryAnalyticsProjectionStore {
    const repository: R.InMemoryGraphRepository
    var candidates: map<GenerationId, Candidate>
    var active: map<Account, GenerationId>
    var epochs: map<Epoch, EpochState>
    var fenced: set<Epoch>
    var ordinal: nat
    var authority: map<Account, Identity>
    ghost var log: map<Account, seq<Activation>>

    ghost function State(): Store
      reads this, repository
    {
      Store(repository.State(), candidates, active, epochs, fenced, ordinal, authority, log)
    }

    constructor (keep: Retention)
      requires keep.Valid()
      ensures State() == Runs.EMPTY && repository.keep == keep && fresh(repository)
    {
      repository := new R.InMemoryGraphRepository(keep);
      candidates, active, epochs, fenced, ordinal, authority, log := map[], map[], map[], {}, 0, map[], map[];
    }

    /** Is the canonical state still the expected one? Without a reader the store remembers it itself. */
    method RequireAuthorityLocked(account: Account, expected: Identity, reading: Reading) returns (ok: bool)
      modifies this
      ensures repository.State() == old(repository.State())
      ensures ok == RequireAuthority(old(State()), account, expected, reading).Some?
      ensures State() == if ok then RequireAuthority(old(State()), account, expected, reading).value else old(State())
    {
      if reading.Observed? {
        return reading.identity == Some(expected);
      }
      if account in authority && expected.revision < authority[account].revision { return false; }
      authority := authority[account := expected];
      ok := true;
    }

    /** Build, validate and check the graph of a candidate; a failed build is given back. */
    method BuildLocked(a: Artifact, account: Account, revision: nat, w: StageWorld) returns (error: Option<StoreError>)
      requires w.id !in repository.issued
      modifies repository
      ensures Build(repository.State(), error) == BuildGraph(old(repository.State()), a, account, revision, w, repository.keep)
    {
      var writer, answer := repository.BeginGeneration(w.id, account, revision, w.owner, w.begin, w.lease);
      if answer.Raised? { return Some(GraphRefused(answer.error)); }
      answer := writer.Replace(a.nodes, a.edges, w.replace);
      if answer.Raised? {
        var _ := repository.DiscardGeneration(w.id, w.owner, w.discard);
        return Some(GraphRefused(answer.error));
      }
      answer := writer.Validate(w.validate);
      if answer.Raised? {
        var _ := repository.DiscardGeneration(w.id, w.owner, w.discard);
        return Some(GraphRefused(answer.error));
      }
      if w.id in repository.generations && GenerationDigest(repository.generations[w.id]) != a.projection.graph {
        var _ := repository.DiscardGeneration(w.id, w.owner, w.discard);
        return Some(ArtifactInvalid);
      }
      error := None;
    }

    method StageArtifact(a: Artifact, account: Account, identity: Identity, epoch: Option<Epoch>, w: StageWorld)
      returns (reply: Reply)
      requires w.id !in repository.issued
      modifies this, repository
      ensures Outcome(State(), reply) == Stage(old(State()), a, account, identity, epoch, w, repository.keep)
    {
      if !ArtifactOk(a, identity) { return Refused(ArtifactInvalid); }
      if a.projection.account != account { return Refused(AccountInvalid); }
      var ok := RequireAuthorityLocked(account, identity, w.reading);
      if !ok { return Refused(CanonicalChanged); }
      reply := StageLocked(a, identity, epoch, w);
    }

    method StageLocked(a: Artifact, identity: Identity, epoch: Option<Epoch>, w: StageWorld) returns (reply: Reply)
      requires w.id !in repository.issued
      modifies this, repository
      ensures Outcome(State(), reply) == StageAdmitted(old(State()), a, identity, epoch, w, repository.keep)
    {
      var account := a.projection.account;
      var bad := ReplacementError(a.projection, CurrentLocked(account));
      if bad.Some? { return Refused(bad.value); }
      var e := w.freshEpoch;
      if epoch.None? {
        if !w.registered { return Refused(LedgerFailed); }
        epochs := epochs[w.freshEpoch := DIRECT];
      } else {
        e := epoch.value;
      }
      if e !in epochs || !epochs[e].open { return Refused(EpochUnavailable); }
      reply := EnterLocked(a, identity, e, w);
    }

    /** Build the graph and record the candidate, together with the pointer it expects. */
    method EnterLocked(a: Artifact, identity: Identity, epoch: Epoch, w: StageWorld) returns (reply: Reply)
      requires epoch in epochs && w.id !in repository.issued
      modifies this, repository
      ensures Outcome(State(), reply) == StageBuild(old(State()), a, identity, epoch, w, repository.keep)
    {
      var account := a.projection.account;
      var expected := if account in repository.active then Some(repository.active[account]) else None;
      if expected.Some? && expected.value !in repository.generations { return Refused(GraphRefused(GenerationMissing)); }
      ghost var before := State();
      var error := BuildLocked(a, account, identity.revision, w);
      ghost var build := Build(repository.State(), error);
      assert State() == before.(repo := build.repo);
      reply := RecordLocked(a, identity, epoch, w, expected, error, before, build);
    }

    /** Record a successful build as a candidate. */
    method RecordLocked(a: Artifact, identity: Identity, epoch: Epoch, w: StageWorld, expected: Option<GenerationId>,
                        error: Option<StoreError>, ghost before: Store, ghost build: Build)
      returns (reply: Reply)
      requires epoch in before.epochs && State() == before.(repo := build.repo)
      requires error == build.error && expected == ActiveOf(before.repo, a.projection.account)
      modifies this
      ensures repository.State() == old(repository.State())
      ensures Outcome(State(), reply) == EnterBuild(before, build, a, identity, epoch, w)
    {
      if error.Some? { return Refused(error.value); }
      ordinal := ordinal + 1;
      candidates := candidates[w.id := Candidate(a, identity, epoch, expected, w.owner, a.projection.account,
                                                 epochs[epoch].capability, ordinal, Validated, NoIntent)];
      reply := Ok;
    }

    function CurrentLocked(account: Account): Option<Candidate>
      reads this, repository
      ensures CurrentLocked(account) == Current(State(), account)
    {
      if account in active && active[account] in candidates then Some(candidates[active[account]]) else None
    }

    method PublishGeneration(id: GenerationId, account: Account, identity: Identity, w: PublishWorld) returns (reply: Reply)
      modifies this, repository
      ensures Outcome(State(), reply) == Publish(old(State()), id, account, identity, w, repository.keep)
    {
      if id !in candidates { return Refused(CandidateMissing); }
      var c := candidates[id];
      if c.account != account { return Refused(AccountMismatched); }
      if c.status == Active { return NoChange; }
      if c.status != Validated { return Refused(CandidateUnavailable); }
      var lost := OwnerErrorLocked(id, c.owner, w.enter);
      if lost.Some? { return Refused(GraphRefused(lost.value)); }
      if c.identity != identity { return Refused(CanonicalChanged); }
      var ok := RequireAuthorityLocked(account, identity, w.before);
      if !ok { return Refused(CanonicalChanged); }
      reply := CompleteLocked(id, identity, w);
    }

    function OwnerErrorLocked(id: GenerationId, owner: Owner, now: int): Option<Error>
      reads repository
      ensures OwnerErrorLocked(id, owner, now) == OwnerError(repository.State(), id, owner, now)
    {
      if id !in repository.generations then Some(GenerationMissing)
      else
        var g := repository.generations[id];
        if g.status != Validated || g.owner != owner || g.leaseUntil <= now then Some(OwnershipLost) else None
    }

    /** Reserve and complete the ledger entry, then activate; a failure after completion withdraws the candidate. */
    method CompleteLocked(id: GenerationId, identity: Identity, w: PublishWorld) returns (reply: Reply)
      requires id in candidates
      modifies this, repository
      ensures Outcome(State(), reply) == PublishReserved(old(State()), id, identity, w, repository.keep)
    {
      if !w.reserved { return Refused(LedgerFailed); }
      candidates := candidates[id := candidates[id].(intent := Reserved)];
      if !w.completed { return Refused(LedgerFailed); }
      candidates := candidates[id := candidates[id].(intent := Completed)];
      ghost var ready := State();
      assert ready == SetIntent(old(State()), id, Completed);
      reply := TryActivateLocked(id, identity, w);
      if reply.Refused? {
        reply := WithdrawLocked(id, w, reply.error);
      }
    }

    method TryActivateLocked(id: GenerationId, identity: Identity, w: PublishWorld) returns (reply: Reply)
      requires id in candidates
      modifies this, repository
      ensures Outcome(State(), reply) == TryActivate(old(State()), id, identity, w, repository.keep)
      ensures reply.Refused? ==> candidates == old(candidates)
    {
      var c := candidates[id];
      if c.epoch !in epochs || !epochs[c.epoch].open || c.epoch in fenced || !w.epochOpen { return Refused(EpochRevoked); }
      var ok := RequireAuthorityLocked(c.account, identity, w.after);
      if !ok { return Refused(CanonicalChanged); }
      var lost := OwnerErrorLocked(id, c.owner, w.again);
      if lost.Some? { return Refused(GraphRefused(lost.value)); }
      if (if c.account in repository.active then Some(repository.active[c.account]) else None) != c.expected {
        return Refused(PointerChanged);
      }
      var bad := ReplacementError(c.artifact.projection, CurrentLocked(c.account));
      if bad.Some? { return Refused(bad.value); }
      reply := SwapLocked(id, identity, w);
    }

    method SwapLocked(id: GenerationId, identity: Identity, w: PublishWorld) returns (reply: Reply)
      requires id in candidates
      modifies this, repository
      ensures Outcome(State(), reply) == SwapPointers(old(State()), id, identity, w, repository.keep)
      ensures reply.Refused? ==> candidates == old(candidates)
    {
      var c := candidates[id];
      var ok := RequireAuthorityLocked(c.account, identity, w.last);
      if !ok { return Refused(CanonicalChanged); }
      var answer := repository.Activate(id, c.expected, Some(c.owner), w.swap);
      if answer.Raised? { return Refused(GraphRefused(answer.error)); }
      PromoteLocked(id);
      reply := Ok;
    }

    method PromoteLocked(id: GenerationId)
      requires id in candidates
      modifies this
      ensures repository.State() == old(repository.State())
      ensures State() == Promote(old(State()), id, old(repository.State()), repository.keep)
    {
      var c := candidates[id];
      var former := CurrentLocked(c.account);
      if former.Some? {
        candidates := candidates[active[c.account] := former.value.(status := Retired)];
      }
      candidates := candidates[id := c.(status := Active)];
      active := active[c.account := id];
      log := log[c.account := (if c.account in log then log[c.account] else [])
                              + [Activation(id, c.expected, c.epoch, c.artifact.projection)]];
      CollectLocked(c.account);
    }

    method WithdrawLocked(id: GenerationId, w: PublishWorld, error: StoreError) returns (reply: Reply)
      requires id in candidates
      modifies this, repository
      ensures Outcome(State(), reply) == Withdraw(old(State()), id, w, repository.keep, error)
    {
      var c := candidates[id];
      var answer := repository.DiscardGeneration(id, c.owner, w.discard);
      candidates := candidates[id := c.(status := Retired)];
      reply := Refused(if answer.Raised? then GraphRefused(answer.error) else if !w.reconciled then LedgerFailed else error);
    }

    method DiscardGeneration(id: GenerationId, ledger: bool, now: int) returns (reply: Reply)
      modifies this, repository
      ensures Outcome(State(), reply) == DiscardCandidate(old(State()), id, ledger, now, repository.keep)
    {
      if id !in candidates { return Refused(CandidateMissing); }
      var c := candidates[id];
      if c.status == Retired { return NoChange; }
      if c.status == Active { return Refused(CandidateActive); }
      if c.intent != NoIntent && !ledger { return Refused(LedgerFailed); }
      var answer := repository.DiscardGeneration(id, c.owner, now);
      if answer.Raised? { return Refused(GraphRefused(answer.error)); }
      candidates := candidates[id := c.(status := Retired)];
      CollectLocked(c.account);
      reply := Ok;
    }

    /** Drop retired candidates beyond the newest ones, at most a batch; an ordinal stands for its candidate. */
    method CollectLocked(account: Account)
      modifies this`candidates
      ensures candidates == CollectCandidates(old(candidates), account, repository.keep)
    {
      ghost var start := candidates;
      var keep := repository.keep;
      var ordinals := set id | id in candidates && candidates[id].account == account && candidates[id].status == Retired ::
        candidates[id].ordinal as int;
      assert ordinals == RetiredOrdinals(start, account);
      var retired := R.SortedFalling(ordinals);
      if |retired| <= keep.rollback {
        R.EmptyBand(ordinals, keep, retired);
        return;
      }
      var i := keep.rollback;
      ghost var dropped: set<int> := {};
      assert retired[keep.rollback..i] == [];
      while i < |retired| && i < keep.rollback + keep.batch
        invariant keep.rollback <= i <= |retired| && i <= keep.rollback + keep.batch
        invariant dropped == R.Elements(retired[keep.rollback..i])
        invariant candidates == WithoutOrdinals(start, account, dropped)
      {
        var last := retired[i];
        R.ElementsOfMore(retired[keep.rollback..i], last);
        assert retired[keep.rollback..i + 1] == retired[keep.rollback..i] + [last];
        DropOrdinal(account, last);
        WithoutOneMore(start, account, dropped, last);
        dropped := dropped + {last};
        i := i + 1;
      }
      R.SliceIsBand(ordinals, keep, retired, i);
    }

    method DropOrdinal(account: Account, last: int)
      modifies this`candidates
      ensures candidates == WithoutOrdinals(old(candidates), account, {last})
    {
      candidates := map id | id in candidates
                             && !(candidates[id].account == account && candidates[id].status == Retired
                                  && candidates[id].ordinal as int == last) :: candidates[id];
    }

    method OpenPublicationEpoch(epoch: Epoch, scheduler: int, capability: int, registered: bool) returns (reply: Reply)
      modifies this
      ensures repository.State() == old(repository.State())
      ensures Outcome(State(), reply) == OpenEpoch(old(State()), epoch, scheduler, capability, registered)
    {
      if !registered { return Refused(LedgerFailed); }
      epochs := epochs[epoch := EpochState(scheduler, capability, true)];
      reply := Ok;
    }

    method RevokePublicationEpoch(epoch: Epoch, scheduler: int, capability: int, ledger: bool) returns (reply: Reply)
      modifies this
      ensures repository.State() == old(repository.State())
      ensures Outcome(State(), reply) == RevokeEpoch(old(State()), epoch, scheduler, capability, ledger)
    {
      if epoch !in epochs || epochs[epoch].scheduler != scheduler || epochs[epoch].capability != capability {
        return Refused(EpochUnavailable);
      }
      if !ledger { return Refused(LedgerFailed); }
      fenced := fenced + {epoch};
      epochs := epochs[epoch := EpochState(scheduler, capability, false)];
      reply := Ok;
    }

    method FencePublicationEpoch(epoch: Epoch)
      modifies this
      ensures repository.State() == old(repository.State())
      ensures State() == Fence(old(State()), epoch).store
    {
      fenced := fenced + {epoch};
    }
  }

  function WithoutOrdinals(candidates: map<GenerationId, Candidate>, account: Account, ordinals: set<int>):
      map<GenerationId, Candidate>
  {
    map id | id in candidates
             && !(candidates[id].account == account && candidates[id].status == Retired
                  && candidates[id].ordinal as int in ordinals) :: candidates[id]
  }

  lemma WithoutOneMore(candidates: map<GenerationId, Candidate>, account: Account, ordinals: set<int>, last: int)
    ensures WithoutOrdinals(WithoutOrdinals(candidates, account, ordinals), account, {last})
            == WithoutOrdinals(candidates, account, ordinals + {last})
  {
  }
}
