/** Which evidence is accepted, what each piece changes, and how the settings handshake opens the way to new generations. */
module CoverageOutcomes {
  import opened Options
  import opened Sequences
  import opened CanonicalModel
  import opened EntityMerge
  import opened CoverageModel
  import opened CanonicalRun
  import opened EntityOutcomes

  // ----- which evidence is accepted -----

  /** The agent runs under the consent the evidence names, and has confirmed the config bound to the settings in force. */
  predicate Confirmed(s: Settings, authorization: string) {
    && s.consent.Some? && s.consent.value == authorization && s.authorizedCreator.Some?
    && s.desired.DesiredRunning? && s.effective.EffectiveRunning?
    && s.requiredConfig.Some? && s.effectiveConfig.Some? && s.requiredConfig.value == s.effectiveConfig.value
    && s.effectiveRevision.Some? && s.effectiveRevision.value == s.revision
  }

  predicate Open(cov: Coverage, g: GenerationId) {
    g in cov.generations && (cov.generations[g].state == Discovering || cov.generations[g].state == Backfilling)
  }

  predicate Frozen(cov: Coverage, g: GenerationId) {
    g in cov.generations && cov.generations[g].inventoryEnded.Some?
  }

  /** New evidence that fits the state of its generation. */
  predicate Fits(cov: Coverage, s: Settings, e: Entities, ev: Evidence) {
    match ev
    case GenerationStarted(g, _, authorization) => g !in cov.generations && Confirmed(s, authorization)
    case InventoryMember(g, k) => Open(cov, g) && !Frozen(cov, g) && (g, k) !in cov.members && LiveChat(e, k).Some?
    case InventoryEnded(g, _) => Open(cov, g) && cov.generations[g].state == Discovering && !Frozen(cov, g)
    case HistoryStarted(g, k, _, _) =>
      Open(cov, g) && Frozen(cov, g) && (g, k) in cov.members && cov.members[(g, k)].historyStarted.None?
    case HeadReconciled(g, k, through) =>
      && Open(cov, g) && Frozen(cov, g) && (g, k) in cov.members && cov.members[(g, k)].headReconciled.None?
      && cov.generations[g].asOf <= through
    case GenerationClosed(g, _) => Open(cov, g) && cov.generations[g].closedAt.None?
  }

  // ----- what it changes -----

  /** Every member of `g` has been followed from its start to a reconciled head. */
  ghost predicate FullyEvidenced(cov: Coverage, g: GenerationId) {
    && Frozen(cov, g)
    && forall k :: (g, k) in cov.members ==>
         cov.members[(g, k)].historyStarted.Some? && cov.members[(g, k)].headReconciled.Some?
  }

  ghost predicate Started(cov: Coverage, cov': Coverage, g: GenerationId, asOf: Timestamp, authorization: string) {
    && cov'.active == Some(g) && cov'.lastComplete == cov.lastComplete && cov'.members == cov.members
    && cov'.generations.Keys == cov.generations.Keys + {g}
    && cov'.generations[g] == Generation(authorization, asOf, Discovering, None, None)
    && (forall h :: h in cov.generations && h != g ==>
          && cov'.generations[h].state == (if Open(cov, h) then Superseded else cov.generations[h].state)
          && cov'.generations[h].authorization == cov.generations[h].authorization
          && cov'.generations[h].asOf == cov.generations[h].asOf
          && cov'.generations[h].inventoryEnded == cov.generations[h].inventoryEnded
          && cov'.generations[h].closedAt == cov.generations[h].closedAt)
  }

  ghost predicate MemberWritten(cov: Coverage, cov': Coverage, g: GenerationId, k: ChatId, m: Member) {
    && cov'.active == cov.active && cov'.lastComplete == cov.lastComplete && cov'.generations == cov.generations
    && SameExcept(cov.members, cov'.members, (g, k)) && (g, k) in cov'.members && cov'.members[(g, k)] == m
  }

  ghost predicate InventoryFrozenNow(cov: Coverage, cov': Coverage, g: GenerationId, observedAt: Timestamp)
    requires g in cov.generations
  {
    && cov'.active == cov.active && cov'.lastComplete == cov.lastComplete && cov'.members == cov.members
    && SameExcept(cov.generations, cov'.generations, g) && g in cov'.generations
    && cov'.generations[g].state == Backfilling && cov'.generations[g].inventoryEnded == Some(observedAt)
    && cov'.generations[g].authorization == cov.generations[g].authorization
    && cov'.generations[g].asOf == cov.generations[g].asOf && cov'.generations[g].closedAt == cov.generations[g].closedAt
  }

  /** A close completes the generation exactly if it is fully evidenced, and only then remembers it as the last complete one. */
  ghost predicate Closed(cov: Coverage, cov': Coverage, g: GenerationId, closedAt: Timestamp)
    requires g in cov.generations
  {
    && cov'.active == Some(g) && cov'.members == cov.members && SameExcept(cov.generations, cov'.generations, g)
    && g in cov'.generations && cov'.generations[g].closedAt == Some(closedAt)
    && cov'.generations[g].state == (if FullyEvidenced(cov, g) then Complete else Partial)
    && cov'.lastComplete == (if FullyEvidenced(cov, g) then Some(g) else cov.lastComplete)
    && cov'.generations[g].authorization == cov.generations[g].authorization
    && cov'.generations[g].asOf == cov.generations[g].asOf
    && cov'.generations[g].inventoryEnded == cov.generations[g].inventoryEnded
  }

  ghost predicate Taken(cov: Coverage, cov': Coverage, s: Settings, e: Entities, ev: Evidence)
    requires Fits(cov, s, e, ev)
  {
    && cov'.revision == cov.revision + 1
    && match ev
       case GenerationStarted(g, asOf, authorization) => Started(cov, cov', g, asOf, authorization)
       case InventoryMember(g, k) => MemberWritten(cov, cov', g, k, Member(None, None, None))
       case InventoryEnded(g, observedAt) => InventoryFrozenNow(cov, cov', g, observedAt)
       case HistoryStarted(g, k, earliest, observedAt) =>
         MemberWritten(cov, cov', g, k, Member(Some(observedAt), earliest, cov.members[(g, k)].headReconciled))
       case HeadReconciled(g, k, through) =>
         MemberWritten(cov, cov', g, k,
                       Member(cov.members[(g, k)].historyStarted, cov.members[(g, k)].earliest, Some(through)))
       case GenerationClosed(g, closedAt) => Closed(cov, cov', g, closedAt)
  }

  /** What is on record never fits again. */
  lemma RecordedDoesNotFit(cov: Coverage, s: Settings, e: Entities, ev: Evidence)
    requires Recorded(cov, ev)
    ensures !Fits(cov, s, e, ev)
  {
  }

  /** Evidence is accepted exactly if it is on record already, and then changes nothing, or fits, and then is taken. */
  lemma EvidenceOutcome(cov: Coverage, s: Settings, e: Entities, ev: Evidence)
    requires CoverageInvariant(cov)
    ensures var r := ApplyCoverage(cov, s, e, ev);
            && (r.Done? <==> Recorded(cov, ev) || Fits(cov, s, e, ev))
            && (r.Done? ==> Recorded(r.state, ev) && (r.changed <==> Fits(cov, s, e, ev)))
            && (Fits(cov, s, e, ev) ==> Taken(cov, r.state, s, e, ev))
            && (Recorded(cov, ev) ==> r.state == cov)
  {
    if Recorded(cov, ev) {
      RecordedIsNoOp(cov, s, e, ev);
      RecordedDoesNotFit(cov, s, e, ev);
    } else if Fits(cov, s, e, ev) {
      FittingIsTaken(cov, s, e, ev);
      AcceptedIsRecorded(cov, s, e, ev);
    } else {
      OthersAreRefused(cov, s, e, ev);
    }
  }

  lemma FittingIsTaken(cov: Coverage, s: Settings, e: Entities, ev: Evidence)
    requires CoverageInvariant(cov) && Fits(cov, s, e, ev)
    ensures var r := ApplyCoverage(cov, s, e, ev);
            r.Done? && r.changed && Taken(cov, r.state, s, e, ev)
  {
    match ev
    case GenerationClosed(g, closedAt) => CloseIsExact(cov, g, closedAt);
    case _ =>
  }

  lemma EvidenceOfMembers(cov: Coverage, g: GenerationId)
    ensures MembersComplete(cov, g) <==>
            forall k :: (g, k) in cov.members ==>
              cov.members[(g, k)].historyStarted.Some? && cov.members[(g, k)].headReconciled.Some?
  {
    if MembersComplete(cov, g) {
      forall k | (g, k) in cov.members
        ensures cov.members[(g, k)].historyStarted.Some? && cov.members[(g, k)].headReconciled.Some?
      {
        assert (g, k).0 == g;
      }
    } else {
      var key :| key in cov.members && key.0 == g
                 && !(cov.members[key].historyStarted.Some? && cov.members[key].headReconciled.Some?);
      var k := key.1;
      assert (g, k) in cov.members;
    }
  }

  lemma CloseIsExact(cov: Coverage, g: GenerationId, closedAt: Timestamp)
    requires g in cov.generations
    ensures Closed(cov, CloseGeneration(cov, g, closedAt), g, closedAt)
  {
    EvidenceOfMembers(cov, g);
  }

  lemma OthersAreRefused(cov: Coverage, s: Settings, e: Entities, ev: Evidence)
    requires CoverageInvariant(cov) && !Recorded(cov, ev) && !Fits(cov, s, e, ev)
    ensures ApplyCoverage(cov, s, e, ev).Raised?
  {
  }

  // ----- settings -----

  /** An update takes on the given values and asks for a new confirmation; what the agent runs under stays until then. */
  lemma UpdateOutcome(s: Settings, expected: nat, values: SettingsValues)
    ensures var r := UpdateSettings(s, expected, values);
            && (r.Done? <==> expected == s.revision) && (r.Raised? ==> r.why == SettingsConflict)
            && (r.Done? ==>
                  && r.changed && r.state.revision == s.revision + 1
                  && r.state.consent == values.consent && r.state.authorizedCreator == values.authorizedCreator
                  && r.state.desired == values.desired && r.state.requiredConfig.None?
                  && r.state.effective == s.effective && r.state.effectiveConfig == s.effectiveConfig
                  && r.state.effectiveRevision == s.effectiveRevision
                  && forall authorization :: !Confirmed(r.state, authorization))
  {
  }

  /** A config binds to the revision in force, once; binding the same again changes nothing. */
  lemma BindOutcome(s: Settings, revision: nat, config: string)
    ensures var r := BindConfig(s, revision, config);
            && (r.Done? <==> revision == s.revision && (s.requiredConfig.None? || s.requiredConfig == Some(config)))
            && (r.Raised? ==> r.why == SettingsConflict)
            && (r.Done? ==> (r.changed <==> s.requiredConfig.None?) && r.state.requiredConfig == Some(config)
                            && r.state.(requiredConfig := None) == s.(requiredConfig := None))
  {
  }

  predicate Matches(desired: DesiredState, effective: EffectiveState) {
    || (desired.DesiredNotStarted? && effective.NotApplied?) || (desired.DesiredRunning? && effective.EffectiveRunning?)
    || (desired.DesiredPaused? && effective.EffectivePaused?) || (desired.DesiredRevoked? && effective.EffectiveRevoked?)
  }

  /** Confirming the bound config makes the desired state the effective one, at the revision in force; any other
      confirmation changes nothing. */
  lemma AppliedOutcome(s: Settings, config: string)
    ensures var r := MarkApplied(s, config);
            && r.Done? && (r.changed <==> s.requiredConfig == Some(config)) && (!r.changed ==> r.state == s)
            && (r.changed ==>
                  && Matches(s.desired, r.state.effective) && r.state.effectiveConfig == Some(config)
                  && r.state.effectiveRevision == Some(s.revision)
                  && r.state.revision == s.revision && r.state.consent == s.consent && r.state.desired == s.desired
                  && r.state.authorizedCreator == s.authorizedCreator && r.state.requiredConfig == s.requiredConfig)
  {
  }

  /** After an update to running under some consent, its binding and its confirmation, a new generation can start. */
  lemma HandshakeOpens(c: Canon, values: SettingsValues, config: string, g: GenerationId, asOf: Timestamp)
    requires CanonInvariant(c)
    requires values.consent.Some? && values.authorizedCreator.Some? && values.desired.DesiredRunning?
    requires g !in c.coverage.generations
    ensures var updated := Attempt(c, Update(c.settings.revision, values));
            && updated.Done?
            && var bound := Attempt(updated.state, Bind(c.settings.revision + 1, config));
               && bound.Done?
               && var confirmed := Attempt(bound.state, Applied(config));
                  && confirmed.Done?
                  && var start := GenerationStarted(g, asOf, values.consent.value);
                     && ApplyEvidence(confirmed.state, start).Done?
                     && Started(c.coverage, ApplyEvidence(confirmed.state, start).state.coverage, g, asOf, values.consent.value)
  {
    var updated := Attempt(c, Update(c.settings.revision, values)).state;
    UpdateOutcome(c.settings, c.settings.revision, values);
    var bound := Attempt(updated, Bind(c.settings.revision + 1, config)).state;
    BindOutcome(updated.settings, c.settings.revision + 1, config);
    var confirmed := Attempt(bound, Applied(config)).state;
    AppliedOutcome(bound.settings, config);
    EvidenceOutcome(confirmed.coverage, confirmed.settings, confirmed.entities,
                    GenerationStarted(g, asOf, values.consent.value));
  }
}
