/** The catch-up itself, over the stored fields of both databases. */
module ProjectionRepository {
  import opened Options
  import opened CanonicalModel
  import opened CanonicalRun
  import opened ProjectionTables
  import opened ProjectionBuild
  import opened ProjectionSlot
  import opened ProjectionProtocol
  import opened ProjectionGuarantees

  lemma Recovers(s: System, i: int)
    requires Inv(s) && s.run.Idle? && Decide(s) == Recover(i)
    ensures i in s.slots
    ensures ActivateStep(CommitProjection(EnsureIntent(Begin(s))))
            == Activate(s.(run := Decided(Recover(i))), i, s.slots[i].projected, s.slots[i].generation, s.slots[i].read)
  {
    DecideIsSound(s);
  }

  /** What a build relies on: live parents in the content, and a start whose rows cannot collide. */
  ghost predicate BuildReady(s: System, plan: Plan, content: Content) {
    && s.run == Intended(plan) && plan.target < |s.history| && content == s.history[plan.target]
    && ContentInvariant(content)
    && (plan.start.Some? ==> plan.start.value in s.slots && Aligned(s.slots[plan.start.value].tables, content))
  }

  lemma Builds(s: System, plan: Plan)
    requires Inv(s) && s.run.Idle? && Decide(s) == Build(plan)
    ensures Begin(s) == s.(run := Decided(Build(plan)))
    ensures BuildReady(EnsureIntent(Begin(s)), plan, s.history[s.Head()])
  {
    DecideIsSound(s);
    BeginKeepsInv(s);
    EnsureIntentKeepsInv(Begin(s));
    ReadyWhenIntended(EnsureIntent(Begin(s)), plan);
  }

  lemma AfterStore(s: System, plan: Plan, tables: Tables)
    ensures var s' := StoreSlot(s, plan, tables);
            ActivateStep(s') == Activate(s', plan.slot, plan.target, s.nextGeneration, plan.view + 1)
  {
  }

  lemma CommitIsStore(s: System, plan: Plan)
    requires s.run == Intended(plan) && plan.target < |s.history|
    ensures CommitProjection(s) == StoreSlot(s, plan, BuildTables(s, plan))
  {
  }

  lemma ReadyWhenIntended(s: System, plan: Plan)
    requires Inv(s) && s.run == Intended(plan)
    ensures BuildReady(s, plan, s.history[plan.target])
  {
    StartIsAligned(s, plan);
  }

  class Repository {
    // canonical database
    var work: seq<WorkRow>
    var view: nat
    var intents: map<nat, Intent>
    // projection database
    var slots: map<int, Slot>
    // source of fresh generation identifiers
    var nextGeneration: nat

    /** The stored fields are those of the protocol state `s`. */
    ghost predicate Stores(s: System)
      reads this
    {
      work == s.work && view == s.view && intents == s.intents && slots == s.slots && nextGeneration == s.nextGeneration
    }

    constructor ()
      ensures Stores(INITIAL)
    {
      work, view, intents, slots, nextGeneration := [], 0, map[], map[], 0;
    }

    method FindLatestPending() returns (r: Option<nat>)
      ensures r == LatestPending(intents)
    {
      var rows := Enumerate(set t | t in intents && intents[t].state.Pending?);
      InTheSet(rows);
      r := None;
      for i := 0 to |rows|
        invariant r.None? <==> i == 0
        invariant r.Some? ==> r.value in intents && intents[r.value].state.Pending?
        invariant forall j :: 0 <= j < i ==> rows[j] <= r.value
      {
        if r.None? || rows[i] > r.value {
          r := Some(rows[i]);
        }
      }
      forall t | t in intents && intents[t].state.Pending? ensures t in rows {
        assert t in AsSet(rows);
      }
      assert r.Some? ==> IsLatestPending(intents, r.value);
    }

    method FindAuthority(ghost s: System) returns (r: Option<nat>)
      requires Stores(s)
      ensures r == AuthorityTarget(s)
    {
      var rows := Enumerate(set t | t in intents && intents[t].state.Activated? && intents[t].activatedView == Some(view));
      InTheSet(rows);
      r := None;
      for i := 0 to |rows|
        invariant r.None? <==> i == 0
        invariant r.Some? ==> r.value in rows
        invariant forall j :: 0 <= j < i ==> rows[j] <= r.value
      {
        if r.None? || rows[i] > r.value {
          r := Some(rows[i]);
        }
      }
      forall t | t in intents && intents[t].state.Activated? && intents[t].activatedView == Some(view) ensures t in rows {
        assert t in AsSet(rows);
      }
      assert r.Some? ==> IsAuthority(s, r.value);
    }

    method FindActiveSlot(ghost s: System) returns (r: Option<int>)
      requires Stores(s)
      ensures r == ActiveSlot(s) && (r.Some? ==> r.value in slots)
    {
      var t := FindAuthority(s);
      var generation := if t.Some? then intents[t.value].generation else None;
      if 0 in slots && generation == Some(slots[0].generation) && slots[0].read == view {
        r := Some(0);
      } else if 1 in slots && generation == Some(slots[1].generation) && slots[1].read == view {
        r := Some(1);
      } else {
        r := None;
      }
    }

    /** Transaction of the canonical database. */
    method EnsureActivationIntent(target: nat)
      modifies this`intents
      ensures intents == if target in old(intents) then old(intents) else old(intents)[target := Intent(Pending, None, None)]
    {
      if target !in intents {
        intents := intents[target := Intent(Pending, None, None)];
      }
    }

    /** Transaction of the canonical database; refuses to regress the view. */
    method ActivateCommittedProjection(target: nat, generation: nat, read: nat, ghost s: System, ghost slot: int) returns (ok: bool)
      requires Stores(s)
      modifies this`work, this`view, this`intents
      ensures ok <==> old(view) <= read
      ensures Stores(Activate(s, slot, target, generation, read))
    {
      if view > read {
        return false;
      }
      view := if view < read then read else view;
      var rows := work;
      work := seq(|rows|, i requires 0 <= i < |rows| =>
                if rows[i].revision <= target then rows[i].(completed := true) else rows[i]);
      intents := map t | t in intents ::
                   if intents[t].state.Pending? && t < target then intents[t].(state := Replaced) else intents[t];
      intents := intents[target := Intent(Activated, Some(generation), Some(read))];
      ok := true;
    }

    /** Transaction of the projection database: the account row and all tables of the slot. */
    method CommitGeneration(plan: Plan, content: Content, ghost s: System) returns (ghost tables: Tables)
      requires Stores(s) && BuildReady(s, plan, content)
      modifies this`slots, this`nextGeneration
      ensures Stores(StoreSlot(s, plan, tables)) && CommitProjection(s) == StoreSlot(s, plan, tables)
      ensures nextGeneration == s.nextGeneration + 1
    {
      var built := BuildSlot(plan, content, s);
      StoreGeneration(plan, built, s);
      tables := built;
      CommitIsStore(s, plan);
    }

    /** Write the slot under a fresh generation. */
    method StoreGeneration(plan: Plan, built: Tables, ghost s: System)
      requires Stores(s)
      modifies this`slots, this`nextGeneration
      ensures Stores(StoreSlot(s, plan, built))
    {
      slots := slots[plan.slot := Slot(nextGeneration, plan.target, plan.view + 1, built)];
      nextGeneration := nextGeneration + 1;
    }

    /** The tables of the slot, built from the ones the plan starts from. */
    method BuildSlot(plan: Plan, content: Content, ghost s: System) returns (built: Tables)
      requires Stores(s) && BuildReady(s, plan, content)
      ensures built == BuildTables(s, plan)
    {
      var rows := WorkBetween(work, plan.base, plan.target);
      var build := new SlotTables(if plan.start.Some? then slots[plan.start.value].tables else NO_TABLES);
      build.Build(content, rows, plan.start.None?);
      built := build.Value();
    }

    /** The slot of a build, and what it starts from. */
    method MakePlan(target: nat, active: Option<int>, ghost s: System) returns (p: Plan)
      requires Stores(s) && active == ActiveSlot(s)
      ensures p == PlanBuild(s, target)
    {
      var slot := if active.Some? then 1 - active.value else FindMostAdvanced();
      var start := if slot in slots then Some(slot) else active;
      var base := if start.Some? && start.value in slots then slots[start.value].projected else 0;
      p := Plan(target, view, slot, base, start);
    }

    /** A committed slot to activate, if it is ahead of the view or the active slot already covers the work. */
    method FindRecovery(recovery: nat, active: Option<int>, ghost s: System) returns (r: Option<int>)
      requires Stores(s) && (active.Some? ==> active.value in slots)
      ensures var best := BestRecoverable(s, recovery);
              r == if best.Some? && best.value in slots
                      && (slots[best.value].read > view
                          || (active.Some? && slots[active.value].projected >= recovery))
                   then best else None
    {
      var best := FindBestRecoverable(recovery, s);
      if best.Some?
         && (slots[best.value].read > view
             || (active.Some? && slots[active.value].projected >= recovery)) {
        return best;
      }
      r := None;
    }

    /** Recover, build, or nothing to do. */
    method Decide(ghost s: System) returns (d: Decision)
      requires Stores(s)
      ensures d == ProjectionProtocol.Decide(s)
    {
      var target := LatestOpen(work);
      var active := FindActiveSlot(s);
      var recovery := target;
      if target.None? {
        recovery := FindLatestPending();
      }
      if recovery.Some? {
        var best := FindRecovery(recovery.value, active, s);
        if best.Some? {
          return Recover(best.value);
        }
      }
      if target.None? {
        return Nothing;
      }
      var plan := MakePlan(target.value, active, s);
      d := Build(plan);
    }

    /** Replay durable work into the inactive slot, then activate it; or finish an activation a crash left
        behind; or do nothing. `content` is the canonical read snapshot. */
    method CatchUp(content: Content, ghost s: System)
      requires Stores(s) && Inv(s) && s.run.Idle? && content == s.history[s.Head()]
      modifies this
      ensures Stores(RunAll(s, CATCH_UP)) && CaughtUp(RunAll(s, CATCH_UP))
    {
      OneCatchUp(s);
      FourSteps(s);
      var d := Decide(s);
      match d
      case Nothing =>
      case Recover(i) =>
        Recovers(s, i);
        var row := slots[i];
        var ok := ActivateCommittedProjection(row.projected, row.generation, row.read, s.(run := Decided(d)), i);
      case Build(plan) =>
        Builds(s, plan);
        BuildAndActivate(plan, content, s.(run := Decided(d)));
    }

    method BuildAndActivate(plan: Plan, content: Content, ghost s: System)
      requires Stores(s) && s.run == Decided(Build(plan))
      requires BuildReady(EnsureIntent(s), plan, content)
      modifies this
      ensures Stores(ActivateStep(CommitProjection(EnsureIntent(s))))
    {
      EnsureActivationIntent(plan.target);
      ghost var intended := EnsureIntent(s);
      assert intended.run == Intended(plan);
      ghost var tables := CommitGeneration(plan, content, intended);
      AfterStore(intended, plan, tables);
      var ok := ActivateCommittedProjection(plan.target, nextGeneration - 1, plan.view + 1,
                                            StoreSlot(intended, plan, tables), plan.slot);
      assert Stores(ActivateStep(StoreSlot(intended, plan, tables)));
    }

    method FindBestRecoverable(target: nat, ghost s: System) returns (r: Option<int>)
      requires Stores(s)
      ensures r == BestRecoverable(s, target)
      ensures r.Some? ==> r.value in slots
    {
      r := None;
      for i := 0 to 2
        invariant i == 0 ==> r.None?
        invariant i == 1 ==> r == if Recoverable(s, 0, target) then Some(0) else None
        invariant i == 2 ==> r == BestRecoverable(s, target)
        invariant r.Some? ==> r.value in slots
      {
        if i in slots && slots[i].projected >= target && slots[i].read >= view
           && (r.None? || slots[i].projected > slots[r.value].projected
               || (slots[i].projected == slots[r.value].projected && slots[i].read > slots[r.value].read)) {
          r := Some(i);
        }
      }
    }

    function FindMostAdvanced(): int
      reads this
    {
      if 0 in slots && (1 in slots ==> slots[1].projected <= slots[0].projected) then 0
      else if 1 in slots then 1 else 0
    }
  }
}
