/** Coverage generations: the evidence state machine and the settings handshake that gates it. */
module CoverageModel {
  import opened Options
  import opened CanonicalModel
  import opened EntityMerge

  /** The agent has confirmed the configuration bound to the current settings, and runs under the
      consent the evidence names. */
  predicate Authorized(s: Settings, authorization: string) {
    && s.consent == Some(authorization)
    && s.authorizedCreator.Some?
    && s.desired == DesiredRunning
    && s.effective == EffectiveRunning
    && s.requiredConfig.Some?
    && s.requiredConfig == s.effectiveConfig
    && s.effectiveRevision == Some(s.revision)
  }

  function Bump(cov: Coverage): Coverage { cov.(revision := cov.revision + 1) }

  function SetGeneration(cov: Coverage, g: GenerationId, generation: Generation): Coverage {
    cov.(generations := cov.generations[g := generation])
  }

  function SetMember(cov: Coverage, g: GenerationId, k: ChatId, m: Member): Coverage {
    cov.(members := cov.members[(g, k) := m])
  }

  function StartGeneration(cov: Coverage, g: GenerationId, asOf: Timestamp, authorization: string): Coverage {
    var superseded := map h | h in cov.generations ::
                        if cov.generations[h].InProgress() then cov.generations[h].(state := Superseded)
                        else cov.generations[h];
    Bump(cov.(generations := superseded[g := Generation(authorization, asOf, Discovering, None, None)],
              active := Some(g)))
  }

  /** Every member of `g` has a history start and a reconciled head. */
  predicate MembersComplete(cov: Coverage, g: GenerationId) {
    forall key :: key in cov.members && key.0 == g ==>
      cov.members[key].historyStarted.Some? && cov.members[key].headReconciled.Some?
  }

  function CloseGeneration(cov: Coverage, g: GenerationId, closedAt: Timestamp): Coverage
    requires g in cov.generations
  {
    var complete := cov.generations[g].inventoryEnded.Some? && MembersComplete(cov, g);
    Bump(SetGeneration(cov, g, cov.generations[g].(state := if complete then Complete else Partial,
                                                   closedAt := Some(closedAt)))
         .(active := Some(g), lastComplete := if complete then Some(g) else cov.lastComplete))
  }

  function ApplyCoverage(cov: Coverage, s: Settings, e: Entities, ev: Evidence): Outcome<Coverage> {
    if ev.GenerationStarted? then
      if ev.generation in cov.generations then
        var g := cov.generations[ev.generation];
        if g.authorization != ev.authorization || g.asOf != ev.asOf then Raised(GenerationReused)
        else Done(cov, false)
      else if !Authorized(s, ev.authorization) then Raised(NotAuthorized)
      else Done(StartGeneration(cov, ev.generation, ev.asOf, ev.authorization), true)
    else if ev.generation !in cov.generations then Raised(UnknownGeneration)
    else ApplyToGeneration(cov, e, ev, cov.generations[ev.generation])
  }

  function ApplyToGeneration(cov: Coverage, e: Entities, ev: Evidence, g: Generation): Outcome<Coverage>
    requires !ev.GenerationStarted? && ev.generation in cov.generations
    requires g == cov.generations[ev.generation]
  {
    match ev
    case InventoryMember(id, k) =>
      if (id, k) in cov.members then Done(cov, false)
      else if !g.InProgress() then Raised(GenerationNotOpen)
      else if g.inventoryEnded.Some? then Raised(InventoryFrozen)
      else if LiveChat(e, k) == None then Raised(UnknownConversation)
      else Done(Bump(SetMember(cov, id, k, Member(None, None, None))), true)
    case InventoryEnded(id, observedAt) =>
      if g.inventoryEnded.Some? then
        if g.inventoryEnded == Some(observedAt) then Done(cov, false) else Raised(ConflictingEvidence)
      else if !g.state.Discovering? then Raised(GenerationNotOpen)
      else Done(Bump(SetGeneration(cov, id, g.(inventoryEnded := Some(observedAt), state := Backfilling))), true)
    case HistoryStarted(id, k, earliest, observedAt) =>
      if g.inventoryEnded.None? then Raised(InventoryNotFrozen)
      else if (id, k) !in cov.members then Raised(NotAMember)
      else
        var m := cov.members[(id, k)];
        if m.historyStarted.Some? then
          if m.historyStarted == Some(observedAt) && m.earliest == earliest then Done(cov, false)
          else Raised(ConflictingEvidence)
        else if !g.InProgress() then Raised(GenerationNotOpen)
        else Done(Bump(SetMember(cov, id, k, m.(historyStarted := Some(observedAt), earliest := earliest))), true)
    case HeadReconciled(id, k, through) =>
      if g.inventoryEnded.None? then Raised(InventoryNotFrozen)
      else if (id, k) !in cov.members then Raised(NotAMember)
      else
        var m := cov.members[(id, k)];
        if m.headReconciled.Some? then
          if m.headReconciled == Some(through) then Done(cov, false) else Raised(ConflictingEvidence)
        else if !g.InProgress() then Raised(GenerationNotOpen)
        else if through < g.asOf then Raised(HeadBeforeAsOf)
        else Done(Bump(SetMember(cov, id, k, m.(headReconciled := Some(through)))), true)
    case GenerationClosed(id, closedAt) =>
      if g.closedAt.Some? then
        if g.closedAt == Some(closedAt) then Done(cov, false) else Raised(ConflictingEvidence)
      else if !g.InProgress() then Raised(GenerationNotOpen)
      else Done(CloseGeneration(cov, id, closedAt), true)
  }

  /** A chat outside the members of the active complete generation won a write. */
  predicate Invalidates(cov: Coverage, k: ChatId) {
    && cov.active.Some? && cov.active.value in cov.generations
    && cov.generations[cov.active.value].state.Complete?
    && (cov.active.value, k) !in cov.members
  }

  function Invalidate(cov: Coverage, k: ChatId): Coverage {
    if Invalidates(cov, k) then
      Bump(SetGeneration(cov, cov.active.value, cov.generations[cov.active.value].(state := Superseded)))
    else cov
  }

  // ----- settings -----

  function UpdateSettings(s: Settings, expected: nat, values: SettingsValues): Outcome<Settings> {
    if s.revision != expected then Raised(SettingsConflict)
    else Done(Settings(s.revision + 1, values.consent, values.authorizedCreator, values.desired, s.effective,
                       None, s.effectiveConfig, s.effectiveRevision), true)
  }

  function BindConfig(s: Settings, revision: nat, config: string): Outcome<Settings> {
    if s.revision == revision && s.requiredConfig.None? then Done(s.(requiredConfig := Some(config)), true)
    else if s.revision != revision || s.requiredConfig != Some(config) then Raised(SettingsConflict)
    else Done(s, false)
  }

  function EffectiveOf(desired: DesiredState): EffectiveState {
    match desired
    case DesiredNotStarted => NotApplied
    case DesiredRunning => EffectiveRunning
    case DesiredPaused => EffectivePaused
    case DesiredRevoked => EffectiveRevoked
  }

  function MarkApplied(s: Settings, config: string): Outcome<Settings> {
    if s.requiredConfig == Some(config) then
      Done(s.(effective := EffectiveOf(s.desired), effectiveConfig := Some(config),
              effectiveRevision := Some(s.revision)), true)
    else Done(s, false)
  }

  // ----- invariant -----

  /** Frozen inventory, and every member with a history start and a head at or past `asOf`. */
  ghost predicate Sealed(cov: Coverage, g: GenerationId) {
    && g in cov.generations
    && cov.generations[g].inventoryEnded.Some?
    && !cov.generations[g].InProgress()
    && (forall k :: (g, k) in cov.members ==>
          && cov.members[(g, k)].historyStarted.Some?
          && cov.members[(g, k)].headReconciled.Some?
          && cov.members[(g, k)].headReconciled.value >= cov.generations[g].asOf)
  }

  ghost predicate CoverageInvariant(cov: Coverage) {
    && (forall g :: g in cov.generations && cov.generations[g].InProgress() ==> cov.active == Some(g))
    && (forall g :: g in cov.generations ==>
          && (cov.generations[g].state.Backfilling? ==> cov.generations[g].inventoryEnded.Some?)
          && (cov.generations[g].state.Discovering? ==> cov.generations[g].inventoryEnded.None?)
          && (cov.generations[g].InProgress() ==> cov.generations[g].closedAt.None?)
          && (cov.generations[g].state.Complete? ==> Sealed(cov, g)))
    && (cov.active.Some? ==> cov.active.value in cov.generations)
    && (cov.lastComplete.Some? ==> Sealed(cov, cov.lastComplete.value))
    && (forall g, k :: (g, k) in cov.members ==>
          && g in cov.generations
          && (cov.members[(g, k)].headReconciled.Some? ==>
                cov.members[(g, k)].headReconciled.value >= cov.generations[g].asOf))
  }

  /** What no step may undo about generations and members. */
  ghost predicate CoverageOnward(cov: Coverage, cov': Coverage) {
    && (forall g :: g in cov.generations ==>
          && g in cov'.generations
          && var (a, b) := (cov.generations[g], cov'.generations[g]);
             && b.authorization == a.authorization && b.asOf == a.asOf
             && (!a.InProgress() ==> b.state == a.state || (a.state.Complete? && b.state.Superseded?))
             && (!a.InProgress() ==> b.closedAt == a.closedAt && b.inventoryEnded == a.inventoryEnded)
             && (!a.InProgress() && cov'.active == Some(g) ==> cov.active == Some(g))
             && (a.state.Backfilling? ==> !b.state.Discovering?)
             && (a.inventoryEnded.Some? ==> b.inventoryEnded == a.inventoryEnded)
             && (a.closedAt.Some? ==> b.closedAt == a.closedAt))
    && (forall g, k :: (g, k) in cov.members ==>
          && (g, k) in cov'.members
          && var (a, b) := (cov.members[(g, k)], cov'.members[(g, k)]);
             && (a.historyStarted.Some? ==> b.historyStarted == a.historyStarted && b.earliest == a.earliest)
             && (a.headReconciled.Some? ==> b.headReconciled == a.headReconciled))
    && (forall g, k :: (g, k) in cov'.members && (g, k) !in cov.members && g in cov.generations ==>
          cov.generations[g].InProgress() && cov.generations[g].inventoryEnded.None?)
  }

  lemma StartStep(cov: Coverage, g: GenerationId, asOf: Timestamp, authorization: string)
    requires CoverageInvariant(cov) && g !in cov.generations
    ensures var cov' := StartGeneration(cov, g, asOf, authorization);
            CoverageInvariant(cov') && CoverageOnward(cov, cov')
  {
  }

  lemma CloseStep(cov: Coverage, g: GenerationId, closedAt: Timestamp)
    requires CoverageInvariant(cov) && g in cov.generations && cov.generations[g].InProgress()
    ensures var cov' := CloseGeneration(cov, g, closedAt);
            CoverageInvariant(cov') && CoverageOnward(cov, cov')
  {
    var cov' := CloseGeneration(cov, g, closedAt);
    assert cov'.members == cov.members;
    if cov'.generations[g].state.Complete? {
      assert Sealed(cov', g) by {
        forall k | (g, k) in cov.members ensures cov.members[(g, k)].historyStarted.Some? {
          assert (g, k).0 == g;
        }
      }
    }
    forall h | h in cov.generations && h != g && Sealed(cov, h) ensures Sealed(cov', h) {
    }
  }

  lemma MemberStep(cov: Coverage, g: GenerationId, k: ChatId, m: Member)
    requires CoverageInvariant(cov) && g in cov.generations && cov.generations[g].InProgress()
    requires (g, k) !in cov.members ==> cov.generations[g].inventoryEnded.None? && m == Member(None, None, None)
    requires (g, k) in cov.members ==>
               var a := cov.members[(g, k)];
               && (a.historyStarted.Some? ==> m.historyStarted == a.historyStarted && m.earliest == a.earliest)
               && (a.headReconciled.Some? ==> m.headReconciled == a.headReconciled)
    requires m.headReconciled.Some? ==> m.headReconciled.value >= cov.generations[g].asOf
    ensures var cov' := Bump(SetMember(cov, g, k, m));
            CoverageInvariant(cov') && CoverageOnward(cov, cov')
  {
    var cov' := Bump(SetMember(cov, g, k, m));
    forall h | h in cov.generations && Sealed(cov, h) ensures Sealed(cov', h) {
      assert h != g;
    }
  }

  lemma InventoryEndedStep(cov: Coverage, g: GenerationId, observedAt: Timestamp)
    requires CoverageInvariant(cov) && g in cov.generations && cov.generations[g].state.Discovering?
    ensures var cov' := Bump(SetGeneration(cov, g, cov.generations[g].(inventoryEnded := Some(observedAt),
                                                                       state := Backfilling)));
            CoverageInvariant(cov') && CoverageOnward(cov, cov')
  {
  }

  lemma CoverageStep(cov: Coverage, s: Settings, e: Entities, ev: Evidence)
    requires CoverageInvariant(cov) && ApplyCoverage(cov, s, e, ev).Done?
    ensures var r := ApplyCoverage(cov, s, e, ev);
            && CoverageInvariant(r.state) && CoverageOnward(cov, r.state)
            && (!r.changed ==> r.state == cov)
  {
    if ApplyCoverage(cov, s, e, ev).changed {
      ChangedStep(cov, s, e, ev);
    }
  }

  lemma ChangedStep(cov: Coverage, s: Settings, e: Entities, ev: Evidence)
    requires CoverageInvariant(cov) && ApplyCoverage(cov, s, e, ev).Done? && ApplyCoverage(cov, s, e, ev).changed
    ensures CoverageInvariant(ApplyCoverage(cov, s, e, ev).state) && CoverageOnward(cov, ApplyCoverage(cov, s, e, ev).state)
  {
    match ev
    case GenerationStarted(g, asOf, authorization) => StartStep(cov, g, asOf, authorization);
    case InventoryMember(g, k) => MemberStep(cov, g, k, Member(None, None, None));
    case InventoryEnded(g, observedAt) => InventoryEndedStep(cov, g, observedAt);
    case HistoryStarted(g, k, earliest, observedAt) =>
      MemberStep(cov, g, k, cov.members[(g, k)].(historyStarted := Some(observedAt), earliest := earliest));
    case HeadReconciled(g, k, through) =>
      MemberStep(cov, g, k, cov.members[(g, k)].(headReconciled := Some(through)));
    case GenerationClosed(g, closedAt) => CloseStep(cov, g, closedAt);
  }

  lemma InvalidateStep(cov: Coverage, k: ChatId)
    requires CoverageInvariant(cov)
    ensures CoverageInvariant(Invalidate(cov, k)) && CoverageOnward(cov, Invalidate(cov, k))
  {
  }

  // ----- accepted evidence -----

  /** The evidence is on record: applying it again must be a no-op. */
  ghost predicate Recorded(cov: Coverage, ev: Evidence) {
    && ev.generation in cov.generations
    && var g := cov.generations[ev.generation];
       match ev
       case GenerationStarted(_, asOf, authorization) => g.authorization == authorization && g.asOf == asOf
       case InventoryMember(id, k) => (id, k) in cov.members
       case InventoryEnded(_, observedAt) => g.inventoryEnded == Some(observedAt)
       case HistoryStarted(id, k, earliest, observedAt) =>
         && g.inventoryEnded.Some? && (id, k) in cov.members
         && cov.members[(id, k)].historyStarted == Some(observedAt)
         && cov.members[(id, k)].earliest == earliest
       case HeadReconciled(id, k, through) =>
         && g.inventoryEnded.Some? && (id, k) in cov.members
         && cov.members[(id, k)].headReconciled == Some(through)
       case GenerationClosed(_, closedAt) => g.closedAt == Some(closedAt)
  }

  lemma AcceptedIsRecorded(cov: Coverage, s: Settings, e: Entities, ev: Evidence)
    requires ApplyCoverage(cov, s, e, ev).Done?
    ensures Recorded(ApplyCoverage(cov, s, e, ev).state, ev)
  {
  }

  lemma RecordedIsNoOp(cov: Coverage, s: Settings, e: Entities, ev: Evidence)
    requires Recorded(cov, ev)
    ensures ApplyCoverage(cov, s, e, ev) == Done(cov, false)
  {
  }

  lemma RecordedStays(cov: Coverage, cov': Coverage, ev: Evidence)
    requires Recorded(cov, ev) && CoverageOnward(cov, cov')
    ensures Recorded(cov', ev)
  {
  }
}
