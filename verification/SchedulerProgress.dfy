/** What each step of a drain does to the shared state, that an eligible candidate is published, and that a failure has
    a cause. */
module SchedulerProgress {
  import opened Options
  import opened Sequences
  import opened Scheduler
  import opened SchedulerRuns

  // ----- outcome dictionaries -----

  lemma {:induction false} ForgetKeepsOthers<V>(m: Recent<V>, a: Account, b: Account)
    requires a != b
    ensures Lookup(Forget(m, a), b) == Lookup(m, b)
  {
    if m != [] {
      ForgetKeepsOthers(m[1..], a, b);
      LookupFromFront(m, b);
      if m[0].0 != a {
        LookupFromFront([m[0]] + Forget(m[1..], a), b);
      }
    }
  }

  /** The newest entry of an account is the last one. */
  lemma {:induction false} LookupFromFront<V>(m: Recent<V>, b: Account)
    requires m != []
    ensures Lookup(m, b) == if Lookup(m[1..], b).Some? then Lookup(m[1..], b)
                            else if m[0].0 == b then Some(m[0].1) else None
  {
    if |m| > 1 {
      var n := |m| - 1;
      LookupFromFront(m[..n], b);
      assert m[..n][1..] == m[1..][..n - 1];
    }
  }

  lemma {:induction false} DropOldest<V>(m: Recent<V>, n: nat, b: Account)
    requires n <= |m|
    ensures Lookup(m[n..], b) == Lookup(m, b) || Lookup(m[n..], b).None?
  {
    if n > 0 {
      LookupFromFront(m, b);
      DropOldest(m[1..], n - 1, b);
      assert m[1..][n - 1..] == m[n..];
    }
  }

  lemma LookupNewest<V>(m: Recent<V>, a: Account, v: V, b: Account)
    requires a != b
    ensures Lookup(m + [(a, v)], b) == Lookup(m, b)
  {
    assert (m + [(a, v)])[..|m|] == m;
  }

  /** Entering an account's outcome changes nobody else's, except that the oldest may be dropped. */
  lemma RememberKeepsOthers<V>(m: Recent<V>, a: Account, v: V, capacity: nat, b: Account)
    requires a != b
    ensures Lookup(Remember(m, a, v, capacity), b) == Lookup(m, b) || Lookup(Remember(m, a, v, capacity), b).None?
  {
    var longer := Forget(m, a) + [(a, v)];
    ForgetKeepsOthers(m, a, b);
    LookupNewest(Forget(m, a), a, v, b);
    if |longer| > capacity {
      DropOldest(longer, |longer| - capacity, b);
    }
  }

  // ----- who takes a step -----

  /** A step of worker `w`, or its cancellation. */
  predicate OfWorker(step: Step, w: WorkerId) {
    match step
    case PopStep(v) => v == w
    case AttemptStep(v) => v == w
    case BuildStep(v, _, _) => v == w
    case CheckStep(v) => v == w
    case EnterStep(v) => v == w
    case PublishStep(v, _, _) => v == w
    case FinishStep(v) => v == w
    case CancelStep(v) => v == w
    case _ => false
  }

  lemma OthersLeaveDrain(s: Sched, step: Step, limits: Limits, w: WorkerId)
    requires w in s.drains && !OfWorker(step, w)
    ensures w in Apply(s, step, limits).drains && Apply(s, step, limits).drains[w] == s.drains[w]
  {
  }

  ghost predicate RestsIn(steps: seq<Step>, i: nat, j: nat, w: WorkerId)
    requires j <= |steps|
  {
    forall x :: i <= x < j ==> !OfWorker(steps[x], w)
  }

  lemma {:induction false} DrainRests(states: seq<Sched>, steps: seq<Step>, limits: Limits, i: nat, j: nat, w: WorkerId)
    requires IsRun(states, steps, limits) && i <= j <= |steps| && w in states[i].drains && RestsIn(steps, i, j, w)
    ensures w in states[j].drains && states[j].drains[w] == states[i].drains[w]
    decreases j - i
  {
    if i < j {
      DrainRests(states, steps, limits, i, j - 1, w);
      assert IsStep(states, steps, limits, j - 1);
      OthersLeaveDrain(states[j - 1], steps[j - 1], limits, w);
    }
  }

  // ----- what each step of a drain does -----

  /** The largest revision asked for, in the work of a drain. */
  function Newest(s: Sched, w: WorkerId): int
    requires w in s.drains && s.drains[w].work in s.objects
  {
    s.objects[s.drains[w].work].requested
  }

  /** Only the phase of this drain differs. */
  ghost predicate OnlyPhase(s: Sched, s': Sched, w: WorkerId, phase: Phase)
    requires w in s.drains
  {
    && w in s'.drains && s'.drains[w] == s.drains[w].(phase := phase)
    && (forall v :: v != w ==> (v in s'.drains <==> v in s.drains) && (v in s.drains ==> s'.drains[v] == s.drains[v]))
    && s'.pending == s.pending && s'.work == s.work && s'.failures == s.failures && s'.available == s.available
    && s'.closed == s.closed && s'.epoch == s.epoch
  }

  /** An open scheduler's idle worker drains the account at the head of the queue. */
  lemma PopOutcome(s: Sched, w: WorkerId, limits: Limits)
    requires SchedInv(s) && !s.closed && s.pending != [] && w !in s.drains
    ensures var s' := Apply(s, PopStep(w), limits);
            var a := s.pending[0];
            && a in s.work && s'.pending == s.pending[1..] && w in s'.drains && s'.drains[w] == Drain(a, s.work[a], Starting)
            && s'.work == s.work && s'.objects == s.objects && s'.drains.Keys == s.drains.Keys + {w}
  {
    assert s.pending[0] in s.pending;
  }

  /** An attempt is for the newest revision asked for. */
  lemma AttemptOutcome(s: Sched, w: WorkerId, limits: Limits)
    requires SchedInv(s) && !s.closed && w in s.drains && s.drains[w].phase == Starting
    ensures s.drains[w].work in s.objects
    ensures var s' := Apply(s, AttemptStep(w), limits);
            && OnlyPhase(s, s', w, Building(Newest(s, w)))
            && s'.drains[w].work in s'.objects && s'.objects[s'.drains[w].work].attempted == Some(Newest(s, w))
            && Newest(s', w) == Newest(s, w) && s'.published == s.published
  {
  }

  lemma BuildOutcome(s: Sched, w: WorkerId, candidate: Option<Candidate>, reason: int, limits: Limits)
    requires w in s.drains && s.drains[w].phase.Building?
    ensures var s' := Apply(s, BuildStep(w, candidate, reason), limits);
            && s'.objects == s.objects && s'.published == s.published
            && OnlyPhase(s, s', w, if candidate.Some? then Built(s.drains[w].phase.attempted, candidate.value)
                                   else Settled(s.drains[w].phase.attempted, None, false, Some(reason)))
  {
  }

  /** A candidate goes on exactly if it is at least as new as every request so far. */
  lemma CheckOutcome(s: Sched, w: WorkerId, limits: Limits)
    requires SchedInv(s) && !s.closed && w in s.drains && s.drains[w].phase.Built?
    ensures s.drains[w].work in s.objects
    ensures var s' := Apply(s, CheckStep(w), limits);
            var p := s.drains[w].phase;
            && s'.objects == s.objects && s'.published == s.published
            && OnlyPhase(s, s', w, if Newest(s, w) <= p.candidate.revision then Approved(p.attempted, p.candidate)
                                   else Settled(p.attempted, Some(p.candidate), false, None))
  {
  }

  /** An approved candidate is published exactly if the scheduler is open and its epoch is the current one. */
  lemma EnterOutcome(s: Sched, w: WorkerId, limits: Limits)
    requires w in s.drains && s.drains[w].phase.Approved?
    ensures var s' := Apply(s, EnterStep(w), limits);
            var p := s.drains[w].phase;
            && s'.objects == s.objects
            && if !s.closed && s.epoch == Some(p.candidate.epoch) then
                 OnlyPhase(s, s', w, Publishing(p.attempted, p.candidate)) && s'.published == s.published + [p.candidate.epoch]
               else
                 OnlyPhase(s, s', w, Settled(p.attempted, Some(p.candidate), false, Some(FAILED))) && s'.published == s.published
  {
  }

  lemma PublishOutcome(s: Sched, w: WorkerId, ok: bool, reason: int, limits: Limits)
    requires w in s.drains && s.drains[w].phase.Publishing?
    ensures var s' := Apply(s, PublishStep(w, ok, reason), limits);
            var p := s.drains[w].phase;
            && s'.objects == s.objects && s'.published == s.published
            && OnlyPhase(s, s', w, Settled(p.attempted, Some(p.candidate), ok, if ok then None else Some(reason)))
  {
  }

  /** The account's work is removed, and nobody else's. */
  ghost predicate WorkRemoved(s: Sched, s': Sched, w: WorkerId)
    requires w in s.drains
  {
    && s'.work == s.work - {s.drains[w].account} && s'.drains == s.drains - {w}
    && s'.pending == s.pending && s'.objects == s.objects && s'.closed == s.closed && s'.epoch == s.epoch
  }

  /** A published candidate as new as every request makes its revision available; otherwise a newer request starts the
      next attempt, and without one the failure is put on record. */
  lemma FinishOutcome(s: Sched, w: WorkerId, limits: Limits)
    requires limits.Valid() && SchedInv(s) && !s.closed && w in s.drains && s.drains[w].phase.Settled?
    ensures s.drains[w].work in s.objects
    ensures var s' := Apply(s, FinishStep(w), limits);
            var (a, p) := (s.drains[w].account, s.drains[w].phase);
            if p.published && p.result.Some? && Newest(s, w) <= p.result.value.revision then
              && WorkRemoved(s, s', w) && Lookup(s'.failures, a).None?
              && Lookup(s'.available, a) == Some(p.result.value.revision)
            else if p.attempted < Newest(s, w) then
              OnlyPhase(s, s', w, Starting) && s'.objects == s.objects
            else
              && WorkRemoved(s, s', w) && s'.available == s.available
              && Lookup(s'.failures, a) == Some(Failure(Newest(s, w), p.attempted,
                                                        if p.reason.Some? then p.reason.value else INCOMPLETE))
  {
    var (a, p) := (s.drains[w].account, s.drains[w].phase);
    if Succeeded(s, s.drains[w]) {
      ForgetShrinks(s.failures, a);
      NewestIsKept(s.available, a, p.result.value.revision, limits.recent);
    } else if p.attempted >= Newest(s, w) {
      NewestIsKept(s.failures, a, Failure(Newest(s, w), p.attempted, if p.reason.Some? then p.reason.value else INCOMPLETE),
                   limits.recent);
    }
  }

  /** The outcomes of other accounts stay, or are dropped for want of room. */
  lemma FinishLeavesOthers(s: Sched, w: WorkerId, limits: Limits, b: Account)
    requires w in s.drains && b != s.drains[w].account
    ensures var s' := Apply(s, FinishStep(w), limits);
            && (Lookup(s'.failures, b) == Lookup(s.failures, b) || Lookup(s'.failures, b).None?)
            && (Lookup(s'.available, b) == Lookup(s.available, b) || Lookup(s'.available, b).None?)
            && (b in s'.work <==> b in s.work) && (b in s.work ==> s'.work[b] == s.work[b])
  {
    var a := s.drains[w].account;
    ForgetKeepsOthers(s.failures, a, b);
    if s.drains[w].phase.Settled? && !Orphaned(s, s.drains[w]) {
      var p := s.drains[w].phase;
      if Succeeded(s, s.drains[w]) {
        RememberKeepsOthers(s.available, a, p.result.value.revision, limits.recent, b);
      } else {
        RememberKeepsOthers(s.failures, a, Failure(Newest(s, w), p.attempted, if p.reason.Some? then p.reason.value else INCOMPLETE),
                            limits.recent, b);
      }
    }
  }

  // ----- an eligible candidate is published -----

  lemma OpenBefore(states: seq<Sched>, steps: seq<Step>, limits: Limits, i: nat, j: nat)
    requires IsRun(states, steps, limits) && i <= j <= |steps| && !states[j].closed
    ensures !states[i].closed
  {
    if states[i].closed {
      NothingPublishesAfterClose(states, steps, limits, i, j);
    }
  }

  lemma RequestsGrow(s: Sched, step: Step, limits: Limits, id: WorkId)
    requires Legal(s, step) && id in s.objects
    ensures id in Apply(s, step, limits).objects && s.objects[id].requested <= Apply(s, step, limits).objects[id].requested
  {
  }

  lemma {:induction false} RequestsGrowInRun(states: seq<Sched>, steps: seq<Step>, limits: Limits, i: nat, j: nat, id: WorkId)
    requires IsRun(states, steps, limits) && i <= j <= |steps| && id in states[i].objects
    ensures id in states[j].objects && states[i].objects[id].requested <= states[j].objects[id].requested
    decreases j - i
  {
    if i < j {
      RequestsGrowInRun(states, steps, limits, i, j - 1, id);
      assert IsStep(states, steps, limits, j - 1);
      RequestsGrow(states[j - 1], steps[j - 1], limits, id);
    }
  }

  /** The drain of `w` is in this phase, of this account and work. */
  predicate DrainsAs(s: Sched, w: WorkerId, d: Drain, phase: Phase) {
    w in s.drains && s.drains[w] == d.(phase := phase)
  }

  /** An attempt whose build returns a candidate is built, for the newest revision asked for when it began. */
  lemma AttemptBuilds(states: seq<Sched>, steps: seq<Step>, limits: Limits, h: nat, b: nat, i: nat, w: WorkerId, d: Drain)
    requires IsRun(states, steps, limits) && h < b < i <= |steps| && !states[h].closed && DrainsAs(states[h], w, d, Starting)
    requires steps[h] == AttemptStep(w) && steps[b].BuildStep? && steps[b].w == w && steps[b].candidate.Some?
    requires RestsIn(steps, h + 1, b, w) && RestsIn(steps, b + 1, i, w)
    ensures d.work in states[h].objects
    ensures DrainsAs(states[i], w, d, Built(states[h].objects[d.work].requested, steps[b].candidate.value))
  {
    RunKeepsInv(states, steps, limits, h);
    assert IsStep(states, steps, limits, h) && IsStep(states, steps, limits, b);
    AttemptOutcome(states[h], w, limits);
    DrainRests(states, steps, limits, h + 1, b, w);
    BuildOutcome(states[b], w, steps[b].candidate, steps[b].reason, limits);
    DrainRests(states, steps, limits, b + 1, i, w);
  }

  /** A candidate that nothing newer was asked for is approved. */
  lemma EligibleIsApproved(states: seq<Sched>, steps: seq<Step>, limits: Limits, i: nat, j: nat, w: WorkerId, d: Drain,
                           attempted: int, c: Candidate)
    requires IsRun(states, steps, limits) && i < j <= |steps| && !states[j].closed
    requires DrainsAs(states[i], w, d, Built(attempted, c)) && steps[i] == CheckStep(w) && RestsIn(steps, i + 1, j, w)
    requires d.work in states[j].objects && states[j].objects[d.work].requested <= c.revision
    ensures DrainsAs(states[j], w, d, Approved(attempted, c))
  {
    OpenBefore(states, steps, limits, i, j);
    RunKeepsInv(states, steps, limits, i);
    assert IsStep(states, steps, limits, i);
    CheckOutcome(states[i], w, limits);
    RequestsGrowInRun(states, steps, limits, i, j, d.work);
    DrainRests(states, steps, limits, i + 1, j, w);
  }

  /** An approved candidate of the current epoch is published under it. */
  lemma ApprovedIsPublished(states: seq<Sched>, steps: seq<Step>, limits: Limits, j: nat, l: nat, w: WorkerId, d: Drain,
                            attempted: int, c: Candidate)
    requires IsRun(states, steps, limits) && j < l <= |steps| && !states[l].closed
    requires DrainsAs(states[j], w, d, Approved(attempted, c)) && steps[j] == EnterStep(w) && RestsIn(steps, j + 1, l, w)
    requires states[j].epoch == Some(c.epoch)
    ensures DrainsAs(states[l], w, d, Publishing(attempted, c)) && states[j + 1].published == states[j].published + [c.epoch]
  {
    OpenBefore(states, steps, limits, j, l);
    assert IsStep(states, steps, limits, j);
    EnterOutcome(states[j], w, limits);
    DrainRests(states, steps, limits, j + 1, l, w);
  }

  /** A publication that succeeds makes its revision available, if nothing newer was asked for by then. */
  lemma PublishedIsAvailable(states: seq<Sched>, steps: seq<Step>, limits: Limits, l: nat, m: nat, w: WorkerId, d: Drain,
                             attempted: int, c: Candidate)
    requires limits.Valid() && IsRun(states, steps, limits) && l < m < |steps| && !states[m].closed
    requires DrainsAs(states[l], w, d, Publishing(attempted, c)) && RestsIn(steps, l + 1, m, w)
    requires steps[l].PublishStep? && steps[l].w == w && steps[l].ok && steps[m] == FinishStep(w)
    requires d.work in states[m].objects && states[m].objects[d.work].requested <= c.revision
    ensures d.account !in states[m + 1].work && Lookup(states[m + 1].available, d.account) == Some(c.revision)
    ensures Lookup(states[m + 1].failures, d.account).None?
  {
    RunKeepsInv(states, steps, limits, m);
    assert IsStep(states, steps, limits, l) && IsStep(states, steps, limits, m);
    PublishOutcome(states[l], w, true, steps[l].reason, limits);
    DrainRests(states, steps, limits, l + 1, m, w);
    FinishOutcome(states[m], w, limits);
  }

  /** Whatever others do in between: a drain of an open scheduler whose candidate is at least as new as every request made
      until the end is approved, published under its own epoch if that is still the current one, and if the publication
      succeeds its revision is what is reported as available. */
  lemma EligibleBecomesAvailable(states: seq<Sched>, steps: seq<Step>, limits: Limits, i: nat, j: nat, l: nat, m: nat,
                                 w: WorkerId, d: Drain, attempted: int, c: Candidate)
    requires limits.Valid() && IsRun(states, steps, limits) && i < j < l < m < |steps| && !states[m].closed
    requires DrainsAs(states[i], w, d, Built(attempted, c))
    requires steps[i] == CheckStep(w) && steps[j] == EnterStep(w) && steps[m] == FinishStep(w)
    requires steps[l].PublishStep? && steps[l].w == w && steps[l].ok
    requires RestsIn(steps, i + 1, j, w) && RestsIn(steps, j + 1, l, w) && RestsIn(steps, l + 1, m, w)
    requires d.work in states[m].objects && states[m].objects[d.work].requested <= c.revision
    requires states[j].epoch == Some(c.epoch)
    ensures DrainsAs(states[j], w, d, Approved(attempted, c)) && DrainsAs(states[l], w, d, Publishing(attempted, c))
    ensures states[j + 1].published == states[j].published + [c.epoch]
    ensures d.account !in states[m + 1].work && Lookup(states[m + 1].available, d.account) == Some(c.revision)
    ensures Lookup(states[m + 1].failures, d.account).None?
  {
    OpenBefore(states, steps, limits, j, m);
    OpenBefore(states, steps, limits, l, m);
    OpenBefore(states, steps, limits, i, m);
    RunKeepsInv(states, steps, limits, i);
    RequestsGrowInRun(states, steps, limits, i, j, d.work);
    RequestsGrowInRun(states, steps, limits, j, m, d.work);
    EligibleIsApproved(states, steps, limits, i, j, w, d, attempted, c);
    ApprovedIsPublished(states, steps, limits, j, l, w, d, attempted, c);
    PublishedIsAvailable(states, steps, limits, l, m, w, d, attempted, c);
  }

  // ----- a failure has a cause -----

  /** Why the attempt of this drain did not publish: its build or its publication failed, its candidate was older than a
      request, or the epoch had changed. */
  ghost predicate Causes(s: Sched, step: Step, w: WorkerId, work: WorkId, attempted: int) {
    && w in s.drains && s.drains[w].work == work && work in s.objects
    && match s.drains[w].phase
       case Building(a) => a == attempted && step.BuildStep? && step.w == w && step.candidate.None?
       case Built(a, c) => a == attempted && step == CheckStep(w) && c.revision < s.objects[work].requested
       case Approved(a, c) => a == attempted && step == EnterStep(w) && s.epoch != Some(c.epoch)
       case Publishing(a, c) => a == attempted && step.PublishStep? && step.w == w && !step.ok
       case _ => false
  }

  ghost predicate CausedBefore(states: seq<Sched>, steps: seq<Step>, i: nat, w: WorkerId, work: WorkId, attempted: int)
    requires |states| == |steps| + 1 && i <= |steps|
  {
    exists p :: 0 <= p < i && Causes(states[p], steps[p], w, work, attempted)
  }

  /** What is known about a drain's phase: a candidate under way is no older than its attempt, and what was settled without
      a publication has a cause. */
  ghost predicate PhaseExplained(states: seq<Sched>, steps: seq<Step>, i: nat, w: WorkerId)
    requires |states| == |steps| + 1 && i <= |steps| && w in states[i].drains
  {
    match states[i].drains[w].phase
    case Approved(attempted, c) => attempted <= c.revision
    case Publishing(attempted, c) => attempted <= c.revision
    case Settled(attempted, result, published, reason) =>
      if published then reason.None? && result.Some? && attempted <= result.value.revision
      else CausedBefore(states, steps, i, w, states[i].drains[w].work, attempted)
    case _ => true
  }

  lemma {:induction false} PhasesAreExplained(states: seq<Sched>, steps: seq<Step>, limits: Limits, i: nat, w: WorkerId)
    requires IsRun(states, steps, limits) && i <= |steps| && !states[i].closed && w in states[i].drains
    ensures PhaseExplained(states, steps, i, w)
    decreases i
  {
    if i > 0 {
      OpenBefore(states, steps, limits, i - 1, i);
      if w in states[i - 1].drains {
        PhasesAreExplained(states, steps, limits, i - 1, w);
      }
      StepExplains(states, steps, limits, i - 1, w);
    }
  }

  lemma StepExplains(states: seq<Sched>, steps: seq<Step>, limits: Limits, i: nat, w: WorkerId)
    requires IsRun(states, steps, limits) && i < |steps| && !states[i].closed && w in states[i + 1].drains
    requires w in states[i].drains ==> PhaseExplained(states, steps, i, w)
    ensures PhaseExplained(states, steps, i + 1, w)
  {
    if w !in states[i].drains {
      assert IsStep(states, steps, limits, i);
      NewDrainStarts(states[i], steps[i], limits, w);
    } else if OfWorker(steps[i], w) {
      RunKeepsInv(states, steps, limits, i);
      OwnStepExplains(states, steps, limits, i, w);
    } else {
      OtherStepExplains(states, steps, limits, i, w);
    }
  }

  lemma NewDrainStarts(s: Sched, step: Step, limits: Limits, w: WorkerId)
    requires w !in s.drains && w in Apply(s, step, limits).drains
    ensures Apply(s, step, limits).drains[w].phase == Starting
  {
  }

  lemma OtherStepExplains(states: seq<Sched>, steps: seq<Step>, limits: Limits, i: nat, w: WorkerId)
    requires IsRun(states, steps, limits) && i < |steps| && w in states[i].drains && !OfWorker(steps[i], w)
    requires PhaseExplained(states, steps, i, w)
    ensures w in states[i + 1].drains && PhaseExplained(states, steps, i + 1, w)
  {
    assert IsStep(states, steps, limits, i);
    OthersLeaveDrain(states[i], steps[i], limits, w);
  }

  lemma OwnStepExplains(states: seq<Sched>, steps: seq<Step>, limits: Limits, i: nat, w: WorkerId)
    requires IsRun(states, steps, limits) && i < |steps| && !states[i].closed && SchedInv(states[i])
    requires w in states[i].drains && w in states[i + 1].drains && OfWorker(steps[i], w) && PhaseExplained(states, steps, i, w)
    ensures PhaseExplained(states, steps, i + 1, w)
  {
    assert IsStep(states, steps, limits, i);
    var (s, d) := (states[i], states[i].drains[w]);
    if !d.phase.Starting? && !d.phase.Settled? && Causes(s, steps[i], w, d.work, d.phase.attempted) {
      assert CausedBefore(states, steps, i + 1, w, d.work, d.phase.attempted);
    }
    match d.phase
    case Settled(attempted, _, published, _) =>
      if !published {
        var p :| 0 <= p < i && Causes(states[p], steps[p], w, d.work, attempted);
        assert Causes(states[p], steps[p], w, d.work, attempted);
        assert CausedBefore(states, steps, i + 1, w, d.work, attempted);
      }
    case _ =>
  }

  /** A failure goes on record only at the end of a drain, and only for a build or a publication that failed, an epoch that
      changed, or a candidate older than a request. */
  lemma FailureHasCause(states: seq<Sched>, steps: seq<Step>, limits: Limits, m: nat, w: WorkerId)
    requires limits.Valid() && IsRun(states, steps, limits) && m < |steps| && !states[m].closed
    requires steps[m] == FinishStep(w) && w in states[m].drains && states[m].drains[w].phase.Settled?
    requires Lookup(states[m + 1].failures, states[m].drains[w].account).Some?
    requires states[m].drains[w].account !in states[m + 1].work
    ensures CausedBefore(states, steps, m, w, states[m].drains[w].work, states[m].drains[w].phase.attempted)
  {
    assert IsStep(states, steps, limits, m);
    RunKeepsInv(states, steps, limits, m);
    PhasesAreExplained(states, steps, limits, m, w);
    FinishOutcome(states[m], w, limits);
  }

  /** No other step puts an outcome on record: failures come from the end of a drain alone. */
  lemma OnlyFinishFails(s: Sched, step: Step, limits: Limits, a: Account)
    requires !step.FinishStep?
    ensures Lookup(Apply(s, step, limits).failures, a) == Lookup(s.failures, a) || Lookup(Apply(s, step, limits).failures, a).None?
  {
    match step
    case SecondStep(b, _, _, _) => ForgottenOrSame(s.failures, b, a);
    case RecoverStep(b) => ForgottenOrSame(s.failures, b, a);
    case _ =>
  }

  lemma ForgottenOrSame<V>(m: Recent<V>, a: Account, b: Account)
    ensures Lookup(Forget(m, a), b) == if a == b then None else Lookup(m, b)
  {
    if a == b {
      ForgetShrinks(m, a);
    } else {
      ForgetKeepsOthers(m, a, b);
    }
  }

  // ----- requests and the other steps -----

  predicate Waits(s: Sched, a: Account) { a in s.work && s.work[a] in s.objects }

  predicate JustFailed(s: Sched, a: Account, revision: int) {
    Lookup(s.failures, a).Some? && Lookup(s.failures, a).value.attempted == revision
  }

  predicate NewEnough(s: Sched, a: Account, revision: int) {
    Lookup(s.available, a).Some? && revision <= Lookup(s.available, a).value
  }

  /** The answer to a request, by the shared state alone. */
  lemma FirstAnswer(s: Sched, a: Account, revision: int, retry: bool)
    ensures var answer := ScheduleFirst(s, a, revision, retry).1;
            && (answer.Invalid? <==> revision < 0)
            && (answer.Closed? <==> revision >= 0 && s.closed)
            && (answer.Coalesced? <==> revision >= 0 && !s.closed && Waits(s, a))
            && (answer.AlreadyFailed? <==> revision >= 0 && !s.closed && !Waits(s, a) && JustFailed(s, a, revision) && !retry)
            && (answer.AlreadyAvailable? <==>
                  && revision >= 0 && !s.closed && !Waits(s, a) && (JustFailed(s, a, revision) ==> retry)
                  && NewEnough(s, a, revision))
            && (answer.Proceed? <==>
                  && revision >= 0 && !s.closed && !Waits(s, a) && (JustFailed(s, a, revision) ==> retry)
                  && !NewEnough(s, a, revision))
            && (!answer.Coalesced? ==> ScheduleFirst(s, a, revision, retry).0 == s)
  {
  }

  lemma SecondAnswer(s: Sched, a: Account, revision: int, retry: bool, id: WorkId, limits: Limits)
    ensures var answer := ScheduleSecond(s, a, revision, retry, id, limits).1;
            && (answer.Closed? <==> s.closed)
            && (answer.Coalesced? <==> !s.closed && Waits(s, a))
            && (answer.AlreadyFailed? <==> !s.closed && !Waits(s, a) && JustFailed(s, a, revision) && !retry)
            && (answer.Backpressure? <==>
                  !s.closed && !Waits(s, a) && (JustFailed(s, a, revision) ==> retry) && limits.queue <= |s.pending|)
            && (answer.Admitted? <==>
                  !s.closed && !Waits(s, a) && (JustFailed(s, a, revision) ==> retry) && |s.pending| < limits.queue)
  {
  }

  /** An admitted account is queued last, with a work object of its own that knows exactly this request; a coalesced
      request only raises the newest revision of the work there is. */
  lemma RequestOutcome(s: Sched, a: Account, revision: int, retry: bool, id: WorkId, limits: Limits)
    requires id !in s.objects
    ensures var (s', answer) := ScheduleSecond(s, a, revision, retry, id, limits);
            && (answer.Admitted? ==>
                  && s'.pending == s.pending + [a] && s'.work == s.work[a := id] && s'.drains == s.drains
                  && id in s'.objects && s'.objects[id] == Work(a, revision, None, {revision})
                  && (forall x :: x in s.objects ==> x in s'.objects && s'.objects[x] == s.objects[x])
                  && Lookup(s'.failures, a).None? && Lookup(s'.available, a).None?
                  && forall b :: b != a ==> Lookup(s'.failures, b) == Lookup(s.failures, b)
                                            && Lookup(s'.available, b) == Lookup(s.available, b))
            && (answer.Coalesced? ==>
                  && s'.pending == s.pending && s'.work == s.work && s'.drains == s.drains
                  && s'.failures == s.failures && s'.available == s.available && s'.objects.Keys == s.objects.Keys
                  && forall x :: x in s.objects ==>
                       if x == s.work[a] then
                         && s'.objects[x].account == s.objects[x].account && s'.objects[x].attempted == s.objects[x].attempted
                         && s'.objects[x].requests == s.objects[x].requests + {revision}
                         && s'.objects[x].requested >= revision && s'.objects[x].requested >= s.objects[x].requested
                         && (s'.objects[x].requested == revision || s'.objects[x].requested == s.objects[x].requested)
                       else s'.objects[x] == s.objects[x])
  {
    ForgottenOrSame(s.failures, a, a);
    ForgottenOrSame(s.available, a, a);
    forall b | b != a
      ensures Lookup(Forget(s.failures, a), b) == Lookup(s.failures, b)
              && Lookup(Forget(s.available, a), b) == Lookup(s.available, b)
    {
      ForgottenOrSame(s.failures, a, b);
      ForgottenOrSame(s.available, a, b);
    }
  }

  /** What a caller is told: work under way first, then a failure, then an available revision that is new enough. */
  lemma ReportOutcome(s: Sched, a: Account, canonical: Option<int>)
    ensures var r := State(s, a, canonical);
            && (r.BuildingReport? <==> Waits(s, a))
            && (r.ErrorReport? <==> !Waits(s, a) && Lookup(s.failures, a).Some?)
            && (r.AvailableReport? <==> !Waits(s, a) && Lookup(s.failures, a).None? && Lookup(s.available, a).Some?
                                        && (canonical.Some? ==> canonical.value <= Lookup(s.available, a).value))
            && (r.ErrorReport? ==> Some(r.failure) == Lookup(s.failures, a))
            && (r.AvailableReport? ==> Some(r.revision) == Lookup(s.available, a))
            && (r.BuildingReport? ==> r.requested == s.objects[s.work[a]].requested && r.attempted == s.objects[s.work[a]].attempted)
  {
  }

  /** Closing empties every shared table at once and ends the epoch; drains run on without it. */
  lemma CloseOutcome(s: Sched, limits: Limits)
    ensures var s' := Apply(s, CloseStep, limits);
            && s'.closed && s'.pending == [] && s'.work == map[] && s'.failures == [] && s'.available == [] && s'.epoch.None?
            && s'.drains == s.drains && s'.published == s.published
  {
  }

  /** A recovery forgets the account's outcome. */
  lemma RecoverOutcome(s: Sched, a: Account, b: Account, limits: Limits)
    ensures var s' := Apply(s, RecoverStep(a), limits);
            if s.closed then s' == s
            else Lookup(s'.failures, b) == (if a == b then None else Lookup(s.failures, b))
                 && Lookup(s'.available, b) == (if a == b then None else Lookup(s.available, b))
                 && s'.work == s.work && s'.drains == s.drains && s'.pending == s.pending && s'.epoch == s.epoch
  {
    ForgottenOrSame(s.failures, a, b);
    ForgottenOrSame(s.available, a, b);
  }

  /** A storage failure ends the epoch and forgets what was available, of one account or of all. */
  lemma StorageFailureOutcome(s: Sched, only: Option<Account>, b: Account, limits: Limits)
    ensures var s' := Apply(s, StorageFailedStep(only), limits);
            && s'.epoch.None? && s'.failures == s.failures && s'.work == s.work && s'.drains == s.drains && s'.pending == s.pending
            && Lookup(s'.available, b) == (if only.None? || only.value == b then None else Lookup(s.available, b))
  {
    if only.Some? {
      ForgottenOrSame(s.available, only.value, b);
    }
  }

  /** The start-up scan makes a current revision available; an epoch becomes the current one unless the scheduler is closed. */
  lemma OpeningOutcome(s: Sched, a: Account, revision: int, epoch: Epoch, limits: Limits)
    requires limits.Valid()
    ensures Lookup(Apply(s, FoundCurrentStep(a, revision), limits).available, a) == Some(revision)
    ensures Apply(s, OpenEpochStep(epoch), limits).epoch == (if s.closed then s.epoch else Some(epoch))
  {
    NewestIsKept(s.available, a, revision, limits.recent);
  }

  /** Cancelling takes a closed scheduler's drain away, and its work if the table still holds it. */
  lemma CancelOutcome(s: Sched, w: WorkerId, limits: Limits)
    requires w in s.drains
    ensures var s' := Apply(s, CancelStep(w), limits);
            var d := s.drains[w];
            if !s.closed then s' == s
            else s'.drains == s.drains - {w} && s'.pending == s.pending
                 && forall a :: a in s'.work <==> a in s.work && !(a == d.account && s.work[a] == d.work)
  {
  }
}
