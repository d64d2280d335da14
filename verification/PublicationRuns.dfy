/** What publication guarantees over whole runs of interleaved calls. */
module PublicationRuns {
  import opened Options
  import opened Graph
  import opened GraphGenerations
  import opened Publication
  import P = PublicationGuarantees
  import H = GraphHistory

  datatype Call = StageCall(artifact: Artifact, account: Account, identity: Identity, epoch: Option<Epoch>, stageWorld: StageWorld)
                | PublishCall(id: GenerationId, account: Account, identity: Identity, world: PublishWorld)
                | DiscardCall(id: GenerationId, ledger: bool, now: int)
                | OpenCall(epochId: Epoch, scheduler: int, capability: int, registered: bool)
                | RevokeCall(epochId: Epoch, scheduler: int, capability: int, ledger: bool)
                | FenceCall(epochId: Epoch)
                | ReclaimCall(id: GenerationId, now: int)

  function Perform(s: Store, call: Call, keep: Retention): Outcome {
    match call
    case StageCall(artifact, account, identity, epoch, world) => Stage(s, artifact, account, identity, epoch, world, keep)
    case PublishCall(id, account, identity, world) => Publish(s, id, account, identity, world, keep)
    case DiscardCall(id, ledger, now) => DiscardCandidate(s, id, ledger, now, keep)
    case OpenCall(epoch, scheduler, capability, registered) => OpenEpoch(s, epoch, scheduler, capability, registered)
    case RevokeCall(epoch, scheduler, capability, ledger) => RevokeEpoch(s, epoch, scheduler, capability, ledger)
    case FenceCall(epoch) => Fence(s, epoch)
    case ReclaimCall(id, now) => ReclaimExpired(s, id, now, keep)
  }

  /** Identifiers of new generations are fresh: `uuid4` never repeats. */
  predicate Legal(s: Store, call: Call) { call.StageCall? ==> call.stageWorld.id !in s.repo.issued }

  /** One call: either nothing was published, or one generation was, over the pointer it expected. */
  ghost predicate Advances(s: Store, s': Store) {
    P.Still(s, s') || exists account, act :: P.Published(s, s', account, act)
  }

  lemma PerformKeepsSound(s: Store, call: Call, keep: Retention)
    requires keep.Valid() && P.StoreSound(s, keep) && Legal(s, call)
    ensures P.StoreSound(Perform(s, call, keep).store, keep) && Advances(s, Perform(s, call, keep).store)
  {
    match call
    case StageCall(artifact, account, identity, epoch, world) =>
      P.StageKeepsSound(s, artifact, account, identity, epoch, world, keep);
    case PublishCall(id, account, identity, world) => P.PublishKeepsSound(s, id, account, identity, world, keep);
    case DiscardCall(id, ledger, now) => P.DiscardKeepsSound(s, id, ledger, now, keep);
    case OpenCall(epoch, scheduler, capability, registered) =>
      P.EpochsKeepSound(s, s.epochs[epoch := EpochState(scheduler, capability, true)], s.fenced, keep);
      P.EpochsKeepSound(s, s.epochs, s.fenced, keep);
    case RevokeCall(epoch, scheduler, capability, ledger) =>
      P.EpochsKeepSound(s, s.epochs[epoch := EpochState(scheduler, capability, false)], s.fenced + {epoch}, keep);
      P.EpochsKeepSound(s, s.epochs, s.fenced, keep);
    case FenceCall(epoch) => P.EpochsKeepSound(s, s.epochs, s.fenced + {epoch}, keep);
    case ReclaimCall(id, now) =>
      P.ReclaimMoves(s.repo, id, now, keep);
      P.GraphMovesUnderneath(s, Reclaim(s.repo, id, now, keep).repo, keep);
  }

  const EMPTY: Store := Store(H.EMPTY, map[], map[], map[], {}, 0, map[], map[])

  ghost predicate IsRun(states: seq<Store>, calls: seq<Call>, keep: Retention) {
    && |states| == |calls| + 1 && states[0] == EMPTY
    && (forall i :: 0 <= i < |calls| ==> IsStep(states, calls, keep, i))
  }

  ghost predicate IsStep(states: seq<Store>, calls: seq<Call>, keep: Retention, i: nat)
    requires |states| == |calls| + 1 && i < |calls|
  {
    Legal(states[i], calls[i]) && states[i + 1] == Perform(states[i], calls[i], keep).store
  }

  lemma EmptyIsSound(keep: Retention)
    ensures P.StoreSound(EMPTY, keep)
  {
  }

  lemma StepKeepsSound(states: seq<Store>, calls: seq<Call>, keep: Retention, i: nat)
    requires keep.Valid() && IsRun(states, calls, keep) && i < |calls| && P.StoreSound(states[i], keep)
    ensures P.StoreSound(states[i + 1], keep) && Advances(states[i], states[i + 1])
  {
    assert IsStep(states, calls, keep, i);
    PerformKeepsSound(states[i], calls[i], keep);
  }

  lemma {:induction false} RunKeepsSound(states: seq<Store>, calls: seq<Call>, keep: Retention, i: nat)
    requires keep.Valid() && IsRun(states, calls, keep) && i <= |calls|
    ensures P.StoreSound(states[i], keep)
  {
    EmptyIsSound(keep);
    if i > 0 {
      RunKeepsSound(states, calls, keep, i - 1);
      StepKeepsSound(states, calls, keep, i - 1);
    }
  }

  /** History only grows, fences stay, and what is published later was not fenced before. */
  ghost predicate Continues(s: Store, s': Store, account: Account) {
    && LogOf(s, account) <= LogOf(s', account) && s.fenced <= s'.fenced
    && (forall k :: |LogOf(s, account)| <= k < |LogOf(s', account)| ==> LogOf(s', account)[k].epoch !in s.fenced)
  }

  lemma AdvanceContinues(s: Store, s': Store, account: Account)
    requires Advances(s, s')
    ensures Continues(s, s', account)
  {
  }

  lemma ContinuesIsTransitive(a: Store, b: Store, c: Store, account: Account)
    requires Continues(a, b, account) && Continues(b, c, account)
    ensures Continues(a, c, account)
  {
  }

  lemma StepContinues(states: seq<Store>, calls: seq<Call>, keep: Retention, i: nat, account: Account)
    requires keep.Valid() && IsRun(states, calls, keep) && i < |calls|
    ensures Continues(states[i], states[i + 1], account)
  {
    RunKeepsSound(states, calls, keep, i);
    StepKeepsSound(states, calls, keep, i);
    AdvanceContinues(states[i], states[i + 1], account);
  }

  lemma {:induction false} RunContinues(states: seq<Store>, calls: seq<Call>, keep: Retention, i: nat, j: nat, account: Account)
    requires keep.Valid() && IsRun(states, calls, keep) && i <= j <= |calls|
    ensures Continues(states[i], states[j], account)
    decreases j - i
  {
    if i < j {
      RunContinues(states, calls, keep, i, j - 1, account);
      StepContinues(states, calls, keep, j - 1, account);
      ContinuesIsTransitive(states[i], states[j - 1], states[j], account);
    }
  }

  // ----- the guarantees -----

  /** Of all generations that were ever published, no two expected the same active generation. */
  lemma AtMostOneWins(states: seq<Store>, calls: seq<Call>, keep: Retention, i: nat, account: Account, x: nat, y: nat)
    requires keep.Valid() && IsRun(states, calls, keep) && i <= |calls| && x < y < |LogOf(states[i], account)|
    ensures LogOf(states[i], account)[x].expected != LogOf(states[i], account)[y].expected
  {
    RunKeepsSound(states, calls, keep, i);
    var log := LogOf(states[i], account);
    assert P.Chain(log);
    assert log[x].expected == P.Before(log, x) && log[y].expected == P.Before(log, y);
    if x > 0 {
      assert log[x - 1].generation != log[y - 1].generation;
    }
  }

  lemma {:induction false} FollowsAlong(log: seq<Activation>, x: nat, y: nat)
    requires P.Advancing(log) && x <= y < |log|
    ensures P.Follows(log[x].projection, log[y].projection)
    decreases y
  {
    if x < y {
      FollowsAlong(log, x, y - 1);
      assert P.Follows(log[y - 1].projection, log[y].projection);
    }
  }

  /** The active projection is the one the history ends with. */
  ghost predicate EndsHistory(s: Store, account: Account) {
    var log := LogOf(s, account);
    && P.Advancing(log)
    && (account in s.active <==> log != [])
    && (log != [] ==> Current(s, account).Some?
                      && Current(s, account).value.artifact.projection == log[|log| - 1].projection)
  }

  lemma ActiveEndsHistory(s: Store, keep: Retention, account: Account)
    requires P.StoreSound(s, keep)
    ensures EndsHistory(s, account)
  {
  }

  lemma PrefixFollows(s: Store, s': Store, account: Account)
    requires EndsHistory(s, account) && EndsHistory(s', account) && account in s.active
    requires LogOf(s, account) <= LogOf(s', account)
    ensures Current(s, account).Some? && Current(s', account).Some?
    ensures P.Follows(Current(s, account).value.artifact.projection, Current(s', account).value.artifact.projection)
  {
    FollowsAlong(LogOf(s', account), |LogOf(s, account)| - 1, |LogOf(s', account)| - 1);
  }

  /** The active projection's revision never falls, and its number rises unless the projection is identical;
      and an account that has an active generation keeps having one. */
  lemma ActiveNeverMovesBack(states: seq<Store>, calls: seq<Call>, keep: Retention, i: nat, j: nat, account: Account)
    requires keep.Valid() && IsRun(states, calls, keep) && i <= j <= |calls| && account in states[i].active
    ensures Current(states[i], account).Some? && Current(states[j], account).Some?
    ensures P.Follows(Current(states[i], account).value.artifact.projection, Current(states[j], account).value.artifact.projection)
  {
    RunKeepsSound(states, calls, keep, i);
    RunKeepsSound(states, calls, keep, j);
    RunContinues(states, calls, keep, i, j, account);
    ActiveEndsHistory(states[i], keep, account);
    ActiveEndsHistory(states[j], keep, account);
    PrefixFollows(states[i], states[j], account);
  }

  /** After a fence returned, no generation of that epoch becomes active. */
  lemma FencedNeverActivates(states: seq<Store>, calls: seq<Call>, keep: Retention, i: nat, j: nat, account: Account, k: nat, epoch: Epoch)
    requires keep.Valid() && IsRun(states, calls, keep) && i <= j <= |calls| && epoch in states[i].fenced
    requires |LogOf(states[i], account)| <= k < |LogOf(states[j], account)|
    ensures LogOf(states[j], account)[k].epoch != epoch
  {
    RunContinues(states, calls, keep, i, j, account);
  }

  /** The store's pointer and the graph's agree, and lead to a validated snapshot that belongs to the account. */
  lemma PointersAlwaysAgree(states: seq<Store>, calls: seq<Call>, keep: Retention, i: nat, account: Account)
    requires keep.Valid() && IsRun(states, calls, keep) && i <= |calls|
    ensures account in states[i].active <==> account in states[i].repo.active
    ensures account in states[i].active ==>
              && H.ReadActive(states[i].repo, account, true).Some?
              && H.ReadActive(states[i].repo, account, true).value.0 == states[i].active[account]
  {
    RunKeepsSound(states, calls, keep, i);
  }

  /** A publication that does not succeed leaves every account's active generation as it was; one that succeeds
      makes exactly its generation active. */
  lemma PublishIsAllOrNothing(states: seq<Store>, calls: seq<Call>, keep: Retention, i: nat, account: Account)
    requires keep.Valid() && IsRun(states, calls, keep) && i < |calls| && calls[i].PublishCall?
    ensures var r := Perform(states[i], calls[i], keep);
            if r.reply.Ok? then
              states[i + 1].active == states[i].active[calls[i].account := calls[i].id]
            else
              && states[i + 1].active == states[i].active && states[i + 1].repo.active == states[i].repo.active
              && LogOf(states[i + 1], account) == LogOf(states[i], account)
  {
    RunKeepsSound(states, calls, keep, i);
    assert IsStep(states, calls, keep, i);
    P.PublishKeepsSound(states[i], calls[i].id, calls[i].account, calls[i].identity, calls[i].world, keep);
  }

  /** A reader sees nothing, or the generation published last, made from the canonical state it asked about. */
  lemma VisibleIsPublishedLast(states: seq<Store>, calls: seq<Call>, keep: Retention, i: nat, account: Account,
                               required: Option<Identity>, observed: Option<Identity>, ledger: Option<Intent>)
    requires keep.Valid() && IsRun(states, calls, keep) && i <= |calls|
    ensures var seen := Visible(states[i], account, required, observed, ledger);
            var log := LogOf(states[i], account);
            seen.Some? ==> && |log| > 0 && seen.value.artifact.projection == log[|log| - 1].projection
                           && observed == Some(seen.value.identity) && (required.Some? ==> required == observed)
  {
    RunKeepsSound(states, calls, keep, i);
    ActiveEndsHistory(states[i], keep, account);
    VisibleIsCurrent(states[i], account, required, observed, ledger);
  }

  lemma VisibleIsCurrent(s: Store, account: Account, required: Option<Identity>, observed: Option<Identity>,
                         ledger: Option<Intent>)
    ensures var seen := Visible(s, account, required, observed, ledger);
            seen.Some? ==> && seen == Current(s, account) && account in s.active
                           && observed == Some(seen.value.identity) && (required.Some? ==> required == observed)
  {
  }
}
