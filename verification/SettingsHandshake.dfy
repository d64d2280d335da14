/** A coverage generation starts only under settings the agent has confirmed. */
module SettingsHandshake {
  import opened Options
  import opened CanonicalModel
  import opened EntityMerge
  import opened CoverageModel
  import opened SnapshotMerge
  import opened CanonicalRun

  function SettingsAfter(ops: seq<CanonOp>): Settings { ExecAll(EMPTY_ACCOUNT, ops).settings }

  /** Operation `i` is the agent's confirmation of `config`, which is the config bound at that moment
      to settings revision `revision`. */
  ghost predicate ConfirmedAt(ops: seq<CanonOp>, i: int, config: string, revision: nat) {
    && 0 <= i < |ops|
    && ops[i] == Applied(config)
    && SettingsAfter(ops[..i]).requiredConfig == Some(config)
    && SettingsAfter(ops[..i]).revision == revision
  }

  /** Operation `h` binds `config` to settings revision `revision`, which is then already in force. */
  ghost predicate BoundAt(ops: seq<CanonOp>, h: int, config: string, revision: nat) {
    && 0 <= h < |ops|
    && ops[h] == Bind(revision, config)
    && SettingsAfter(ops[..h]).revision == revision
    && SettingsAfter(ops[..h]).requiredConfig.None?
  }

  lemma EarlierPrefix(ops: seq<CanonOp>, n: int, h: int)
    requires 0 <= h < n <= |ops|
    ensures ops[..n][..h] == ops[..h] && ops[..n][h] == ops[h]
  {
  }

  lemma SettingsStep(c: Canon, op: CanonOp)
    requires CanonInvariant(c)
    ensures op.Delta? || op.Snapshot? ==> Exec(c, op).settings == c.settings
  {
    if Attempt(c, op).Done? {
      OpStep(c, op);
    }
  }

  lemma {:induction false} RequiredConfigWasBound(ops: seq<CanonOp>)
    ensures var s := SettingsAfter(ops);
            s.requiredConfig.Some? ==> exists h :: BoundAt(ops, h, s.requiredConfig.value, s.revision)
  {
    if ops != [] {
      var n := |ops| - 1;
      var (before, s) := (SettingsAfter(ops[..n]), SettingsAfter(ops));
      RequiredConfigWasBound(ops[..n]);
      RunKeeps(EMPTY_ACCOUNT, ops[..n]);
      SettingsStep(ExecAll(EMPTY_ACCOUNT, ops[..n]), ops[n]);
      if s.requiredConfig.Some? {
        if before.requiredConfig == s.requiredConfig && before.revision == s.revision {
          var h :| BoundAt(ops[..n], h, s.requiredConfig.value, s.revision);
          EarlierPrefix(ops, n, h);
          assert BoundAt(ops, h, s.requiredConfig.value, s.revision);
        } else {
          assert BoundAt(ops, n, s.requiredConfig.value, s.revision);
        }
      }
    }
  }

  /** Only the confirmation of the bound config changes what is effective. */
  lemma OnlyAppliedConfirms(c: Canon, op: CanonOp)
    requires CanonInvariant(c)
    ensures var (a, b) := (c.settings, Exec(c, op).settings);
            || (b.effectiveConfig == a.effectiveConfig && b.effectiveRevision == a.effectiveRevision)
            || (op.Applied? && a.requiredConfig == Some(op.config) == b.effectiveConfig && b.effectiveRevision == Some(a.revision))
  {
    SettingsStep(c, op);
  }

  lemma {:induction false} EffectiveConfigWasConfirmed(ops: seq<CanonOp>)
    ensures var s := SettingsAfter(ops);
            s.effectiveRevision.Some? && s.effectiveConfig.Some? ==>
              exists i :: ConfirmedAt(ops, i, s.effectiveConfig.value, s.effectiveRevision.value)
  {
    if ops != [] {
      var n := |ops| - 1;
      var (before, s) := (SettingsAfter(ops[..n]), SettingsAfter(ops));
      EffectiveConfigWasConfirmed(ops[..n]);
      RunKeeps(EMPTY_ACCOUNT, ops[..n]);
      OnlyAppliedConfirms(ExecAll(EMPTY_ACCOUNT, ops[..n]), ops[n]);
      if s.effectiveRevision.Some? && s.effectiveConfig.Some? {
        if before.effectiveConfig == s.effectiveConfig && before.effectiveRevision == s.effectiveRevision {
          var i :| ConfirmedAt(ops[..n], i, s.effectiveConfig.value, s.effectiveRevision.value);
          EarlierPrefix(ops, n, i);
          assert ConfirmedAt(ops, i, s.effectiveConfig.value, s.effectiveRevision.value);
        } else {
          assert ConfirmedAt(ops, n, s.effectiveConfig.value, s.effectiveRevision.value);
        }
      }
    }
  }

  lemma OneEvidenceStartsAuthorized(c: Canon, ev: Evidence, g: GenerationId)
    requires ApplyEvidence(c, ev).Done?
    requires g in ApplyEvidence(c, ev).state.coverage.generations
    ensures g !in c.coverage.generations ==>
              Authorized(c.settings, ApplyEvidence(c, ev).state.coverage.generations[g].authorization)
  {
  }

  lemma {:induction false} EvidenceStartsAuthorized(c: Canon, evs: seq<Evidence>, g: GenerationId)
    requires CanonInvariant(c) && ApplyAllEvidence(c, evs).Done?
    requires g in ApplyAllEvidence(c, evs).state.coverage.generations && g !in c.coverage.generations
    ensures Authorized(c.settings, ApplyAllEvidence(c, evs).state.coverage.generations[g].authorization)
  {
    var n := |evs| - 1;
    var mid := ApplyAllEvidence(c, evs[..n]).state;
    AllEvidenceStep(c, evs[..n]);
    OneEvidenceStartsAuthorized(mid, evs[n], g);
    if g in mid.coverage.generations {
      EvidenceStartsAuthorized(c, evs[..n], g);
      EvidenceStep(mid, evs[n]);
      SameAuthorization(mid.coverage, ApplyEvidence(mid, evs[n]).state.coverage, g);
    }
  }

  lemma SameAuthorization(cov: Coverage, cov': Coverage, g: GenerationId)
    requires CoverageOnward(cov, cov') && g in cov.generations
    ensures g in cov'.generations && cov'.generations[g].authorization == cov.generations[g].authorization
  {
  }

  lemma MergeStartsNothing(c: Canon, chats: StagedChats, messages: StagedMessages, origin: Provenance)
    requires MergeSnapshot(c, chats, messages, origin).Done?
    ensures MergeSnapshot(c, chats, messages, origin).state.coverage.generations.Keys == c.coverage.generations.Keys
  {
  }

  lemma SnapshotStartsAuthorized(c: Canon, op: CanonOp, g: GenerationId)
    requires CanonInvariant(c) && op.Snapshot? && Attempt(c, op).Done?
    requires g in Attempt(c, op).state.coverage.generations && g !in c.coverage.generations
    ensures Authorized(c.settings, Attempt(c, op).state.coverage.generations[g].authorization)
  {
    MergeSnapshotStep(c, op.chats, op.messages, op.origin);
    MergeStartsNothing(c, op.chats, op.messages, op.origin);
    EvidenceStartsAuthorized(MergeSnapshot(c, op.chats, op.messages, op.origin).state, op.evidence, g);
  }

  lemma NewGenerationIsAuthorized(c: Canon, op: CanonOp, g: GenerationId)
    requires CanonInvariant(c)
    requires g in Exec(c, op).coverage.generations && g !in c.coverage.generations
    ensures Authorized(c.settings, Exec(c, op).coverage.generations[g].authorization)
  {
    match op
    case Delta(change, origin) =>
      if change.CoverageObserved? {
        OneEvidenceStartsAuthorized(c, change.evidence, g);
      }
    case Snapshot(_, _, _, _) => SnapshotStartsAuthorized(c, op, g);
    case _ => OpStep(c, op);
  }

  /** Whenever an operation starts a generation, an earlier operation is the agent's confirmation of the
      config bound to the settings revision now in force, and that binding was itself made after the
      revision came into force: reusing a config revision string cannot stand in for a confirmation. */
  lemma StartedOnlyUnderConfirmedSettings(ops: seq<CanonOp>, op: CanonOp, g: GenerationId)
    requires var c := ExecAll(EMPTY_ACCOUNT, ops);
             g in Exec(c, op).coverage.generations && g !in c.coverage.generations
    ensures var s := SettingsAfter(ops);
            && s.consent == Some(Exec(ExecAll(EMPTY_ACCOUNT, ops), op).coverage.generations[g].authorization)
            && s.desired.DesiredRunning?
            && exists h, i :: h < i && s.requiredConfig.Some?
                 && BoundAt(ops, h, s.requiredConfig.value, s.revision)
                 && ConfirmedAt(ops, i, s.requiredConfig.value, s.revision)
  {
    var c := ExecAll(EMPTY_ACCOUNT, ops);
    RunKeeps(EMPTY_ACCOUNT, ops);
    NewGenerationIsAuthorized(c, op, g);
    BoundThenConfirmed(ops);
  }

  lemma BoundThenConfirmed(ops: seq<CanonOp>)
    requires var s := SettingsAfter(ops);
             s.requiredConfig.Some? && s.effectiveConfig == s.requiredConfig && s.effectiveRevision == Some(s.revision)
    ensures var s := SettingsAfter(ops);
            exists h, i :: h < i && BoundAt(ops, h, s.requiredConfig.value, s.revision)
                                 && ConfirmedAt(ops, i, s.requiredConfig.value, s.revision)
  {
    var s := SettingsAfter(ops);
    EffectiveConfigWasConfirmed(ops);
    var i :| ConfirmedAt(ops, i, s.requiredConfig.value, s.revision);
    RequiredConfigWasBound(ops[..i]);
    var h :| BoundAt(ops[..i], h, s.requiredConfig.value, s.revision);
    EarlierPrefix(ops, i, h);
    assert BoundAt(ops, h, s.requiredConfig.value, s.revision);
  }
}
