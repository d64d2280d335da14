/** The scheduler loses no revision: invariants of every interleaving, and what they mean over a run. */
module SchedulerRuns {
  import opened Options
  import opened Scheduler

  // ----- every step keeps the invariant -----

  lemma CoalesceKeepsInv(s: Sched, a: Account, revision: int)
    requires SchedInv(s) && !s.closed && HasWork(s, a)
    ensures SchedInv(Coalesce(s, a, revision))
  {
  }

  lemma AdmitKeepsInv(s: Sched, a: Account, revision: int, retry: bool, id: WorkId, limits: Limits)
    requires SchedInv(s) && !s.closed && id !in s.objects && !HasWork(s, a)
    ensures SchedInv(ScheduleSecond(s, a, revision, retry, id, limits).0)
  {
  }

  lemma PopKeepsInv(s: Sched, w: WorkerId)
    requires SchedInv(s)
    ensures SchedInv(Pop(s, w))
  {
  }

  lemma AttemptKeepsInv(s: Sched, w: WorkerId)
    requires SchedInv(s)
    ensures SchedInv(Attempt(s, w))
  {
  }

  lemma BuildKeepsInv(s: Sched, w: WorkerId, candidate: Option<Candidate>, reason: int)
    requires SchedInv(s)
    ensures SchedInv(Build(s, w, candidate, reason))
  {
  }

  lemma CheckKeepsInv(s: Sched, w: WorkerId)
    requires SchedInv(s)
    ensures SchedInv(Check(s, w))
  {
  }

  lemma EnterKeepsInv(s: Sched, w: WorkerId)
    requires SchedInv(s)
    ensures SchedInv(Enter(s, w))
  {
  }

  lemma PublishKeepsInv(s: Sched, w: WorkerId, ok: bool, reason: int)
    requires SchedInv(s)
    ensures SchedInv(Publish(s, w, ok, reason))
  {
  }

  lemma FinishKeepsInv(s: Sched, w: WorkerId, limits: Limits)
    requires SchedInv(s)
    ensures SchedInv(Finish(s, w, limits))
  {
  }

  lemma ApplyKeepsInv(s: Sched, step: Step, limits: Limits)
    requires SchedInv(s) && Legal(s, step)
    ensures SchedInv(Apply(s, step, limits))
  {
    match step
    case FirstStep(a, revision, retry) =>
      if !s.closed && HasWork(s, a) { CoalesceKeepsInv(s, a, revision); }
    case SecondStep(a, revision, retry, id) =>
      if !s.closed {
        if HasWork(s, a) { CoalesceKeepsInv(s, a, revision); } else { AdmitKeepsInv(s, a, revision, retry, id, limits); }
      }
    case PopStep(w) => PopKeepsInv(s, w);
    case AttemptStep(w) => AttemptKeepsInv(s, w);
    case BuildStep(w, candidate, reason) => BuildKeepsInv(s, w, candidate, reason);
    case CheckStep(w) => CheckKeepsInv(s, w);
    case EnterStep(w) => EnterKeepsInv(s, w);
    case PublishStep(w, ok, reason) => PublishKeepsInv(s, w, ok, reason);
    case FinishStep(w) => FinishKeepsInv(s, w, limits);
    case _ => OtherKeepsInv(s, step, limits);
  }

  lemma OtherKeepsInv(s: Sched, step: Step, limits: Limits)
    requires SchedInv(s)
    requires step.CloseStep? || step.CancelStep? || step.RecoverStep? || step.StorageFailedStep?
             || step.FoundCurrentStep? || step.OpenEpochStep?
    ensures SchedInv(Apply(s, step, limits))
  {
  }

  // ----- what one step does to an account's work -----

  /** The revisions asked for since the account was admitted. */
  ghost function Requests(s: Sched, a: Account): set<int>
    requires HasWork(s, a)
  {
    s.objects[s.work[a]].requests
  }

  /** The account's work is done, and the outcome covers every revision in `asked`: a revision at least as new is
      available, or a failure is on record that carries the largest of them, and was made for it. */
  ghost predicate Covered(s: Sched, a: Account, asked: set<int>) {
    && a !in s.work
    && ((Lookup(s.available, a).Some? && forall r :: r in asked ==> r <= Lookup(s.available, a).value)
        || (Lookup(s.failures, a).Some?
            && Lookup(s.failures, a).value.requested in asked
            && Lookup(s.failures, a).value.attempted == Lookup(s.failures, a).value.requested
            && forall r :: r in asked ==> r <= Lookup(s.failures, a).value.requested))
  }

  lemma FinishCovers(s: Sched, w: WorkerId, limits: Limits, a: Account)
    requires limits.Valid() && SchedInv(s) && !s.closed && HasWork(s, a)
    ensures var s' := Finish(s, w, limits);
            if a in s'.work then HasWork(s', a) && s'.work[a] == s.work[a] && Requests(s, a) <= Requests(s', a)
            else Covered(s', a, Requests(s, a))
  {
    var s' := Finish(s, w, limits);
    if w in s.drains && s.drains[w].phase.Settled? && s.drains[w].account == a {
      var d := s.drains[w];
      assert WorkOk(s.objects[d.work]);
      if Succeeded(s, d) {
        NewestIsKept(s.available, a, d.phase.result.value.revision, limits.recent);
      } else if s.objects[d.work].requested <= d.phase.attempted {
        var failure := Failure(s.objects[d.work].requested, d.phase.attempted,
                               if d.phase.reason.Some? then d.phase.reason.value else INCOMPLETE);
        NewestIsKept(s.failures, a, failure, limits.recent);
      }
    }
  }

  /** Work is only ever removed with its outcome on record; until then no request is forgotten. */
  lemma StepCovers(s: Sched, step: Step, limits: Limits, a: Account)
    requires limits.Valid() && SchedInv(s) && Legal(s, step) && HasWork(s, a) && !Apply(s, step, limits).closed
    ensures var s' := Apply(s, step, limits);
            if a in s'.work then HasWork(s', a) && s'.work[a] == s.work[a] && Requests(s, a) <= Requests(s', a)
            else Covered(s', a, Requests(s, a))
  {
    if step.FinishStep? {
      FinishCovers(s, step.w, limits, a);
    } else if OfDrain(step) {
      DrainingKeepsWork(s, step, limits, a);
    } else {
      OthersKeepWork(s, step, limits, a);
    }
  }

  predicate OfDrain(step: Step) {
    step.PopStep? || step.AttemptStep? || step.BuildStep? || step.CheckStep? || step.EnterStep? || step.PublishStep?
  }

  lemma DrainingKeepsWork(s: Sched, step: Step, limits: Limits, a: Account)
    requires SchedInv(s) && !s.closed && HasWork(s, a) && OfDrain(step)
    ensures var s' := Apply(s, step, limits);
            HasWork(s', a) && s'.work[a] == s.work[a] && Requests(s, a) <= Requests(s', a)
  {
  }

  lemma OthersKeepWork(s: Sched, step: Step, limits: Limits, a: Account)
    requires SchedInv(s) && Legal(s, step) && HasWork(s, a) && !Apply(s, step, limits).closed
    requires !OfDrain(step) && !step.FinishStep?
    ensures var s' := Apply(s, step, limits);
            HasWork(s', a) && s'.work[a] == s.work[a] && Requests(s, a) <= Requests(s', a)
  {
  }

  /** An accepted request is remembered; a declined one had an answer already. */
  lemma RequestIsRemembered(s: Sched, a: Account, revision: int, retry: bool, id: WorkId, limits: Limits)
    requires SchedInv(s) && id !in s.objects
    ensures var (s', answer) := ScheduleFirst(s, a, revision, retry);
            && (answer.Coalesced? ==> HasWork(s', a) && revision in Requests(s', a))
            && (answer.AlreadyAvailable? ==> State(s, a, None).ErrorReport? || State(s, a, Some(revision)).AvailableReport?)
            && (answer.AlreadyFailed? ==> State(s, a, None).ErrorReport? && State(s, a, None).failure.attempted == revision)
    ensures var (s', answer) := ScheduleSecond(s, a, revision, retry, id, limits);
            && (answer.Coalesced? || answer.Admitted? ==> HasWork(s', a) && revision in Requests(s', a))
            && (answer.Backpressure? || answer.AlreadyFailed? || answer.Closed? ==> s' == s)
  {
  }

  // ----- runs -----

  const IDLE: Sched := Sched([], map[], map[], [], [], map[], false, None, [])

  ghost predicate IsRun(states: seq<Sched>, steps: seq<Step>, limits: Limits) {
    && |states| == |steps| + 1 && states[0] == IDLE
    && (forall i :: 0 <= i < |steps| ==> IsStep(states, steps, limits, i))
  }

  ghost predicate IsStep(states: seq<Sched>, steps: seq<Step>, limits: Limits, i: nat)
    requires |states| == |steps| + 1 && i < |steps|
  {
    Legal(states[i], steps[i]) && states[i + 1] == Apply(states[i], steps[i], limits)
  }

  lemma {:induction false} RunKeepsInv(states: seq<Sched>, steps: seq<Step>, limits: Limits, i: nat)
    requires IsRun(states, steps, limits) && i <= |steps|
    ensures SchedInv(states[i])
  {
    if i > 0 {
      RunKeepsInv(states, steps, limits, i - 1);
      assert IsStep(states, steps, limits, i - 1);
      ApplyKeepsInv(states[i - 1], steps[i - 1], limits);
    }
  }

  lemma StaysClosed(s: Sched, step: Step, limits: Limits)
    ensures s.closed ==> Apply(s, step, limits).closed && Apply(s, step, limits).published == s.published
  {
  }

  /** Once closed, no publication starts any more. */
  lemma {:induction false} NothingPublishesAfterClose(states: seq<Sched>, steps: seq<Step>, limits: Limits, i: nat, j: nat)
    requires IsRun(states, steps, limits) && i <= j <= |steps| && states[i].closed
    ensures states[j].closed && states[j].published == states[i].published
    decreases j - i
  {
    if i < j {
      NothingPublishesAfterClose(states, steps, limits, i, j - 1);
      assert IsStep(states, steps, limits, j - 1);
      StaysClosed(states[j - 1], steps[j - 1], limits);
    }
  }

  /** While the scheduler is open no drain is an orphan, and no account is drained by two workers. */
  lemma OneDrainPerAccount(states: seq<Sched>, steps: seq<Step>, limits: Limits, i: nat, v: WorkerId, w: WorkerId)
    requires IsRun(states, steps, limits) && i <= |steps| && !states[i].closed
    requires v in states[i].drains && w in states[i].drains
    ensures !Orphaned(states[i], states[i].drains[w])
    ensures v != w ==> states[i].drains[v].account != states[i].drains[w].account
  {
    RunKeepsInv(states, steps, limits, i);
    assert TableOk(states[i]) && DrainsOk(states[i]);
  }

  /** An account has work exactly while it is queued or drained, so admitted work is always somebody's. */
  lemma {:induction false} WorkIsHeld(states: seq<Sched>, steps: seq<Step>, limits: Limits, i: nat, a: Account)
    requires IsRun(states, steps, limits) && i <= |steps| && !states[i].closed && a in states[i].work
    ensures a in states[i].pending || exists w :: w in states[i].drains && states[i].drains[w].account == a
  {
    if i > 0 {
      RunKeepsInv(states, steps, limits, i - 1);
      assert IsStep(states, steps, limits, i - 1);
      StaysClosed(states[i - 1], steps[i - 1], limits);
      if a in states[i - 1].work {
        WorkIsHeld(states, steps, limits, i - 1, a);
      }
      StepKeepsHeld(states[i - 1], steps[i - 1], limits, a);
    }
  }

  ghost predicate Held(s: Sched, a: Account) {
    a in s.pending || exists w :: w in s.drains && s.drains[w].account == a
  }

  lemma QueuedStaysHeld(s: Sched, step: Step, limits: Limits, a: Account)
    requires SchedInv(s) && !Apply(s, step, limits).closed && a in s.pending
    ensures Held(Apply(s, step, limits), a)
  {
    var s' := Apply(s, step, limits);
    if a !in s'.pending {
      assert step.PopStep? && s.pending[0] == a;
      assert step.w in s'.drains;
    }
  }

  lemma DrainedStaysHeld(s: Sched, step: Step, limits: Limits, a: Account, w: WorkerId)
    requires SchedInv(s) && !Apply(s, step, limits).closed && a in Apply(s, step, limits).work
    requires a in s.work && w in s.drains && s.drains[w].account == a
    ensures Held(Apply(s, step, limits), a)
  {
    if OfDrain(step) {
      DrainsGoOn(s, step, limits, w);
    }
    assert w in Apply(s, step, limits).drains && Apply(s, step, limits).drains[w].account == a;
  }

  lemma DrainsGoOn(s: Sched, step: Step, limits: Limits, w: WorkerId)
    requires SchedInv(s) && !s.closed && OfDrain(step) && w in s.drains
    ensures w in Apply(s, step, limits).drains && Apply(s, step, limits).drains[w].account == s.drains[w].account
  {
  }

  lemma StepKeepsHeld(s: Sched, step: Step, limits: Limits, a: Account)
    requires SchedInv(s) && !Apply(s, step, limits).closed && a in Apply(s, step, limits).work
    requires a in s.work ==> Held(s, a)
    ensures Held(Apply(s, step, limits), a)
  {
    if a !in s.work {
      assert Apply(s, step, limits).pending == s.pending + [a];
    } else if a in s.pending {
      QueuedStaysHeld(s, step, limits, a);
    } else {
      var w :| w in s.drains && s.drains[w].account == a;
      DrainedStaysHeld(s, step, limits, a, w);
    }
  }

  /** The revision is among the requests of this very work. */
  ghost predicate StillAsked(s: Sched, a: Account, id: WorkId, r: int) {
    HasWork(s, a) && s.work[a] == id && r in Requests(s, a)
  }

  ghost predicate RevisionCovered(s: Sched, a: Account, r: int) {
    exists asked :: r in asked && Covered(s, a, asked)
  }

  lemma StepKeepsOrCovers(s: Sched, step: Step, limits: Limits, a: Account, id: WorkId, r: int)
    requires limits.Valid() && SchedInv(s) && Legal(s, step) && StillAsked(s, a, id, r) && !Apply(s, step, limits).closed
    ensures var s' := Apply(s, step, limits);
            StillAsked(s', a, id, r) || RevisionCovered(s', a, r)
  {
    StepCovers(s, step, limits, a);
    if a !in Apply(s, step, limits).work {
      assert r in Requests(s, a) && Covered(Apply(s, step, limits), a, Requests(s, a));
    }
  }

  lemma RunStepKeepsOrCovers(states: seq<Sched>, steps: seq<Step>, limits: Limits, i: nat, a: Account, id: WorkId, r: int)
    requires limits.Valid() && IsRun(states, steps, limits) && i < |steps| && !states[i + 1].closed
    ensures !states[i].closed
    ensures StillAsked(states[i], a, id, r) ==> StillAsked(states[i + 1], a, id, r) || RevisionCovered(states[i + 1], a, r)
  {
    assert IsStep(states, steps, limits, i);
    StaysClosed(states[i], steps[i], limits);
    RunKeepsInv(states, steps, limits, i);
    if StillAsked(states[i], a, id, r) {
      StepKeepsOrCovers(states[i], steps[i], limits, a, id, r);
    }
  }

  /** No revision is lost: a revision requested of an account at one moment of a run is, at every later moment, either
      still among the requests of the same work, or was covered by an outcome recorded when that work was removed. */
  lemma {:induction false} NoRevisionLost(states: seq<Sched>, steps: seq<Step>, limits: Limits, i: nat, j: nat, a: Account, r: int)
    returns (k: nat)
    requires limits.Valid() && IsRun(states, steps, limits) && i <= j <= |steps| && !states[j].closed
    requires HasWork(states[i], a) && StillAsked(states[i], a, states[i].work[a], r)
    ensures i <= k <= j
    ensures (k == j && StillAsked(states[j], a, states[i].work[a], r)) || RevisionCovered(states[k], a, r)
    decreases j - i
  {
    k := i;
    if i < j {
      RunStepKeepsOrCovers(states, steps, limits, j - 1, a, states[i].work[a], r);
      k := NoRevisionLost(states, steps, limits, i, j - 1, a, r);
      if k == j - 1 && StillAsked(states[j - 1], a, states[i].work[a], r) {
        k := j;
      }
    }
  }

  lemma RequestedIsLargest(s: Sched, a: Account, r: int)
    requires SchedInv(s) && HasWork(s, a) && r in Requests(s, a)
    ensures r <= s.objects[s.work[a]].requested
  {
    var id := s.work[a];
    assert id in s.objects;
    var o := s.objects[id];
    assert WorkOk(o);
  }

  /** What a caller is told while the account has work: it is being built, for no less than any request since admission. */
  lemma BuildingCoversRequests(states: seq<Sched>, steps: seq<Step>, limits: Limits, i: nat, a: Account, r: int, canonical: Option<int>)
    requires IsRun(states, steps, limits) && i <= |steps| && HasWork(states[i], a) && r in Requests(states[i], a)
    ensures State(states[i], a, canonical).BuildingReport? && r <= State(states[i], a, canonical).requested
  {
    RunKeepsInv(states, steps, limits, i);
    RequestedIsLargest(states[i], a, r);
  }
}
