/** What readers and operators can rely on, over every run of commits, catch-ups and crashes. */
module ProjectionGuarantees {
  import opened Options
  import opened CanonicalModel
  import opened CanonicalRun
  import opened ProjectionTables
  import opened ProjectionProtocol

  /** How any later state relates to an earlier one. */
  ghost predicate Later(s: System, s': System) {
    && |s.history| <= |s'.history| && s'.history[..|s.history|] == s.history
    && s.view <= s'.view
    && (s.active.Some? ==> s'.active.Some?)
  }

  /** No step rewrites the history; only an ingest appends to it, only an activation moves the view. */
  lemma StepIsLater(s: System, a: Action)
    ensures Later(s, Next(s, a))
    ensures !a.DoIngest? ==> Next(s, a).history == s.history
    ensures !a.DoActivate? ==> Next(s, a).view == s.view && Next(s, a).active == s.active
  {
    if a.DoIngest? {
      assert Ingest(s, a.op).history[..|s.history|] == s.history;
    }
  }

  lemma {:induction false} RunKeepsInv(s: System, actions: seq<Action>)
    requires Inv(s)
    ensures Inv(RunAll(s, actions)) && Later(s, RunAll(s, actions))
    decreases actions
  {
    if actions == [] {
      assert s.history[..|s.history|] == s.history;
    } else {
      NextKeepsInv(s, actions[0]);
      StepIsLater(s, actions[0]);
      var s1 := Next(s, actions[0]);
      RunKeepsInv(s1, actions[1..]);
      LaterTransitive(s, s1, RunAll(s1, actions[1..]));
    }
  }

  lemma LaterTransitive(a: System, b: System, c: System)
    requires Later(a, b) && Later(b, c)
    ensures Later(a, c)
  {
  }

  // ----- incremental replay equals rebuild -----

  /** Over any run, every committed slot holds exactly the full projection of the canonical content at the
      revision it claims, however it got there. */
  lemma EverySlotIsExact(actions: seq<Action>, i: int)
    requires i in RunAll(INITIAL, actions).slots
    ensures var s := RunAll(INITIAL, actions);
            && s.slots[i].projected < |s.history|
            && s.slots[i].tables == Full(s.history[s.slots[i].projected])
  {
    InitiallyInv();
    RunKeepsInv(INITIAL, actions);
  }

  // ----- readers -----

  /** A reader takes its authority, then anything may happen, then it reads the projection database: it gets
      nothing, or the complete projection of the revision its authority names. */
  lemma ReadersNeverSeeAMix(before: seq<Action>, between: seq<Action>)
    ensures var s := RunAll(INITIAL, before);
            var a := ReadAuthority(s);
            var row := ReadSlot(RunAll(s, between), a);
            row.Some? ==>
              && a.value.projected < |s.history|
              && row.value.projected == a.value.projected
              && row.value.tables == Full(s.history[a.value.projected])
  {
    InitiallyInv();
    RunKeepsInv(INITIAL, before);
    var s := RunAll(INITIAL, before);
    RunKeepsInv(s, between);
    AuthorityIsCommitted(s);
    LateReadIsExact(s, RunAll(s, between), ReadAuthority(s));
  }

  lemma AuthorityIsCommitted(s: System)
    requires ActivePart(s) && SlotsPart(s)
    ensures ReadAuthority(s).Some? ==> ReadAuthority(s).value.projected < |s.history|
  {
  }

  lemma LateReadIsExact(s: System, s': System, a: Option<Authority>)
    requires Later(s, s') && SlotsPart(s') && (a.Some? ==> a.value.projected < |s.history|)
    ensures var row := ReadSlot(s', a);
            row.Some? ==> row.value.projected == a.value.projected
                          && row.value.tables == Full(s.history[a.value.projected])
  {
  }

  /** Once a generation has been activated there is always one to read. */
  lemma ReadersNeverGoDark(before: seq<Action>, after: seq<Action>)
    requires RunAll(INITIAL, before).view > 0
    ensures var s := RunAll(RunAll(INITIAL, before), after);
            ReadSlot(s, ReadAuthority(s)).Some?
  {
    InitiallyInv();
    RunKeepsInv(INITIAL, before);
    RunKeepsInv(RunAll(INITIAL, before), after);
    ActiveIsReadable(RunAll(RunAll(INITIAL, before), after));
  }

  lemma ActiveIsReadable(s: System)
    requires SlotsPart(s) && ActivePart(s) && s.active.Some?
    ensures ReadSlot(s, ReadAuthority(s)) == Some(s.slots[s.active.value])
  {
    AuthorityIsActive(s);
  }

  /** No step writes the slot readers are on; only an activation moves them. */
  lemma ActiveSlotIsNeverWritten(s: System, a: Action)
    requires Inv(s) && s.active.Some?
    ensures var s' := Next(s, a);
            && s.active.value in s'.slots && s'.slots[s.active.value] == s.slots[s.active.value]
            && (!a.DoActivate? ==> ReadAuthority(s') == ReadAuthority(s))
  {
    OnlyTheOtherSlot(s, a);
    NextKeepsInv(s, a);
    StepIsLater(s, a);
    SameActiveSameAuthority(s, Next(s, a));
  }

  lemma OnlyTheOtherSlot(s: System, a: Action)
    requires ActivePart(s) && RunPart(s) && s.active.Some?
    ensures var s' := Next(s, a);
            s.active.value in s'.slots && s'.slots[s.active.value] == s.slots[s.active.value]
  {
  }

  lemma SameActiveSameAuthority(s: System, s': System)
    requires ActivePart(s) && ActivePart(s') && s.active.Some?
    requires s.active.value in s'.slots && s'.slots[s.active.value] == s.slots[s.active.value]
    ensures s'.active == s.active && s'.view == s.view ==> ReadAuthority(s') == ReadAuthority(s)
  {
    AuthorityIsActive(s);
    AuthorityIsActive(s');
  }

  // ----- activation -----

  /** An activation never regresses the view: it raises it by exactly one and shows the waiting slot. No other
      step moves the view. */
  lemma ViewRisesByOne(s: System, a: Action)
    requires SlotsPart(s) && ActivePart(s) && RunPart(s)
    ensures var s' := Next(s, a);
            if a.DoActivate? && Activating(s).Some? then
              && s'.view == s.view + 1 && s'.run.Idle?
              && ReadSlot(s', ReadAuthority(s')) == Some(s.slots[Activating(s).value])
              && s.slots[Activating(s).value].projected > Covered(s)
            else s'.view == s.view
  {
    if a.DoActivate? {
      ActivationAlone(s);
    } else {
      OthersLeaveView(s, a);
    }
  }

  lemma OthersLeaveView(s: System, a: Action)
    requires !a.DoActivate?
    ensures Next(s, a).view == s.view
  {
  }

  lemma ActivationAlone(s: System)
    requires SlotsPart(s) && ActivePart(s) && RunPart(s)
    ensures Activating(s).None? ==> ActivateStep(s) == s
    ensures Activating(s).Some? ==>
              var s' := ActivateStep(s);
              && s'.view == s.view + 1 && s'.run.Idle? && Activating(s).value in s.slots
              && ReadSlot(s', ReadAuthority(s')) == Some(s.slots[Activating(s).value])
              && s.slots[Activating(s).value].projected > Covered(s)
  {
    if Activating(s).Some? {
      ActivationShows(s, Activating(s).value);
    }
  }

  lemma ActivatingIsWaiting(s: System, i: int)
    requires RunPart(s) && Activating(s) == Some(i)
    ensures Waiting(s, i) && ActivateStep(s) == Switched(s, i)
  {
  }

  lemma SwitchShows(s: System, i: int)
    requires SlotsPart(s) && ActivePart(s) && Waiting(s, i)
    ensures ReadSlot(Switched(s, i), ReadAuthority(Switched(s, i))) == Some(s.slots[i])
  {
    ActivateMovesOn(s, i);
    ActivateActive(s, i);
    ActiveIsReadable(Switched(s, i));
  }

  lemma ActivationShows(s: System, i: int)
    requires SlotsPart(s) && ActivePart(s) && RunPart(s) && Activating(s) == Some(i)
    ensures var s' := ActivateStep(s);
            && s'.view == s.view + 1 && s'.run.Idle?
            && i in s.slots && ReadSlot(s', ReadAuthority(s')) == Some(s.slots[i])
            && s.slots[i].projected > Covered(s)
  {
    ActivatingIsWaiting(s, i);
    ActivateMovesOn(s, i);
    SwitchShows(s, i);
  }

  /** The slot a catch-up that has reached its activation is about to activate. */
  function Activating(s: System): Option<int> {
    match s.run
    case Decided(Recover(i)) => Some(i)
    case Committed(plan, _) => Some(plan.slot)
    case _ => None
  }

  /** Completed work is always exactly the prefix the active slot covers. */
  lemma CompletedWorkIsCovered(actions: seq<Action>)
    ensures var s := RunAll(INITIAL, actions);
            forall i :: 0 <= i < |s.work| ==>
              s.work[i].revision == i + 1 && (s.work[i].completed <==> s.work[i].revision <= Covered(s))
  {
    InitiallyInv();
    RunKeepsInv(INITIAL, actions);
  }

  // ----- recovery -----

  /** The four transactions of one undisturbed catch-up; those its decision does not call for do nothing. */
  const CATCH_UP: seq<Action> := [DoBegin, DoEnsureIntent, DoCommitProjection, DoActivate]

  ghost predicate CaughtUp(s: System) {
    && s.run.Idle?
    && (forall i :: 0 <= i < |s.work| ==> s.work[i].completed)
    && (forall t :: t in s.intents ==> !s.intents[t].state.Pending?)
    && (s.Head() > 0 ==>
          var row := ReadSlot(s, ReadAuthority(s));
          row.Some? && row.value.projected == s.Head() && row.value.tables == Full(s.history[s.Head()]))
  }

  /** From any crash state of any run, one catch-up without a crash and without new commits converges. */
  lemma RecoveryConverges(actions: seq<Action>)
    ensures CaughtUp(RunAll(Next(RunAll(INITIAL, actions), Crash), CATCH_UP))
  {
    InitiallyInv();
    RunKeepsInv(INITIAL, actions);
    CrashThenCatchUp(RunAll(INITIAL, actions));
  }

  lemma CrashThenCatchUp(s: System)
    requires Inv(s)
    ensures CaughtUp(RunAll(Next(s, Crash), CATCH_UP))
  {
    CrashKeepsInv(s);
    var crashed := s.(run := Idle);
    assert Next(s, Crash) == crashed;
    OneCatchUp(crashed);
  }

  lemma RunFirst(s: System, a: Action, rest: seq<Action>)
    ensures RunAll(s, [a] + rest) == RunAll(Next(s, a), rest)
  {
    assert ([a] + rest)[1..] == rest;
  }

  lemma RunFour(s: System, a: Action, b: Action, c: Action, d: Action)
    ensures RunAll(s, [a, b, c, d]) == Next(Next(Next(Next(s, a), b), c), d)
  {
    assert [a, b, c, d] == [a] + [b, c, d] && [b, c, d] == [b] + [c, d] && [c, d] == [c] + [d] && [d] == [d] + [];
    RunFirst(s, a, [b, c, d]);
    RunFirst(Next(s, a), b, [c, d]);
    RunFirst(Next(Next(s, a), b), c, [d]);
    RunFirst(Next(Next(Next(s, a), b), c), d, []);
  }

  lemma FourSteps(s: System)
    ensures RunAll(s, CATCH_UP) == ActivateStep(CommitProjection(EnsureIntent(Begin(s))))
  {
    RunFour(s, DoBegin, DoEnsureIntent, DoCommitProjection, DoActivate);
    FirstTwo(s);
    LastTwo(EnsureIntent(Begin(s)));
  }

  lemma FirstTwo(s: System)
    ensures Next(Next(s, DoBegin), DoEnsureIntent) == EnsureIntent(Begin(s))
  {
  }

  lemma LastTwo(s: System)
    ensures Next(Next(s, DoCommitProjection), DoActivate) == ActivateStep(CommitProjection(s))
  {
  }

  lemma OneCatchUp(s: System)
    requires Inv(s) && s.run.Idle?
    ensures CaughtUp(RunAll(s, CATCH_UP))
  {
    FourSteps(s);
    DecideIsSound(s);
    match Decide(s)
    case Nothing => CoveredIsCaughtUp(s);
    case Recover(i) => CatchUpRecovers(s, i);
    case Build(p) => CatchUpBuilds(s, p);
  }

  lemma RecoveryPassesThrough(s: System, i: int)
    requires s.run == Decided(Recover(i))
    ensures CommitProjection(EnsureIntent(s)) == s
  {
  }

  lemma CatchUpRecovers(s: System, i: int)
    requires Inv(s) && s.run.Idle? && Decide(s) == Recover(i)
    requires Waiting(s, i) && s.slots[i].projected == s.Head()
    ensures CaughtUp(ActivateStep(CommitProjection(EnsureIntent(Begin(s)))))
  {
    var s1 := s.(run := Decided(Recover(i)));
    BeginKeepsInv(s);
    assert Begin(s) == s1;
    RecoveryPassesThrough(s1, i);
    ActivationCatchesUp(s1, i);
  }

  lemma BuildStores(s: System, p: Plan)
    requires s.run == Decided(Build(p)) && p.target == s.Head()
    ensures var s' := CommitProjection(EnsureIntent(s));
            Activating(s') == Some(p.slot) && p.slot in s'.slots && s'.slots[p.slot].projected == s'.Head()
  {
  }

  lemma BuildCommits(s: System, p: Plan)
    requires Inv(s) && s.run == Decided(Build(p)) && p.target == s.Head()
    ensures var s' := CommitProjection(EnsureIntent(s));
            && Inv(s') && Activating(s') == Some(p.slot)
            && p.slot in s'.slots && s'.slots[p.slot].projected == s'.Head()
  {
    BuildStores(s, p);
    EnsureIntentKeepsInv(s);
    CommitKeepsInv(EnsureIntent(s));
  }

  lemma CatchUpBuilds(s: System, p: Plan)
    requires Inv(s) && s.run.Idle? && Decide(s) == Build(p)
    requires p.target == s.Head()
    ensures CaughtUp(ActivateStep(CommitProjection(EnsureIntent(Begin(s)))))
  {
    BeginKeepsInv(s);
    assert Begin(s) == s.(run := Decided(Build(p)));
    BuildCommits(Begin(s), p);
    ActivationCatchesUp(CommitProjection(EnsureIntent(Begin(s))), p.slot);
  }

  lemma ActivationCatchesUp(s: System, i: int)
    requires Inv(s) && Activating(s) == Some(i) && i in s.slots && s.slots[i].projected == s.Head()
    ensures CaughtUp(ActivateStep(s))
  {
    ActivatingIsWaiting(s, i);
    ActivateMovesOn(s, i);
    WaitingKeepsInv(s, i);
    CoveredIsCaughtUp(Switched(s, i));
  }

  lemma CoveredIsCaughtUp(s: System)
    requires Inv(s) && s.run.Idle? && Covered(s) == s.Head()
    ensures CaughtUp(s)
  {
    if s.active.Some? {
      ActiveIsReadable(s);
    }
  }
}
