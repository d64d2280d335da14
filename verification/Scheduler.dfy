/** The coalescing scheduler as interleaved atomic steps: requests, worker pops, and the locked sections of a drain. */
module Scheduler {
  import opened Options
  import opened Sequences

  type Account = int
  type WorkId = int
  type WorkerId = int
  type Epoch = int

  /** One admitted account. `requests` remembers every revision asked for since admission. */
  datatype Work = Work(account: Account, requested: int, attempted: Option<int>, requests: set<int>)

  datatype Candidate = Candidate(revision: int, epoch: Epoch)

  /** Where a drain stands between its locked sections. */
  datatype Phase = Starting
                 | Building(attempted: int)
                 | Built(attempted: int, candidate: Candidate)
                 | Approved(attempted: int, candidate: Candidate)
                 | Publishing(attempted: int, candidate: Candidate)
                 | Settled(attempted: int, result: Option<Candidate>, published: bool, reason: Option<int>)

  datatype Drain = Drain(account: Account, work: WorkId, phase: Phase)

  datatype Failure = Failure(requested: int, attempted: int, reason: int)

  /** A bounded ordered dictionary, oldest entry first. */
  type Recent<V> = seq<(Account, V)>

  /** The scheduler. `objects` is the heap of work objects: a drain keeps its own even when the table has moved on. */
  datatype Sched = Sched(pending: seq<Account>, work: map<Account, WorkId>, objects: map<WorkId, Work>,
                         failures: Recent<Failure>, available: Recent<int>, drains: map<WorkerId, Drain>,
                         closed: bool, epoch: Option<Epoch>, published: seq<Epoch>)

  datatype Limits = Limits(queue: nat, recent: nat) {
    predicate Valid() { queue > 0 && recent > 0 }
  }

  const INCOMPLETE := 0
  const FAILED := 1

  // ----- bounded ordered dictionaries -----

  function Lookup<V>(m: Recent<V>, a: Account): Option<V> {
    if m == [] then None
    else if m[|m| - 1].0 == a then Some(m[|m| - 1].1)
    else Lookup(m[..|m| - 1], a)
  }

  function Forget<V>(m: Recent<V>, a: Account): Recent<V> {
    if m == [] then []
    else if m[0].0 == a then Forget(m[1..], a)
    else [m[0]] + Forget(m[1..], a)
  }

  /** Enter as the newest and drop the oldest beyond the capacity. */
  function Remember<V>(m: Recent<V>, a: Account, v: V, capacity: nat): Recent<V> {
    var longer := Forget(m, a) + [(a, v)];
    if |longer| > capacity then longer[|longer| - capacity..] else longer
  }

  /** The newest entry survives any positive capacity. */
  lemma NewestIsKept<V>(m: Recent<V>, a: Account, v: V, capacity: nat)
    requires capacity > 0
    ensures Lookup(Remember(m, a, v, capacity), a) == Some(v)
    ensures |Remember(m, a, v, capacity)| <= if |m| < capacity then |m| + 1 else capacity
  {
    ForgetShrinks(m, a);
    var longer := Forget(m, a) + [(a, v)];
    var kept := Remember(m, a, v, capacity);
    assert kept[|kept| - 1] == longer[|longer| - 1];
  }

  lemma {:induction false} ForgetShrinks<V>(m: Recent<V>, a: Account)
    ensures |Forget(m, a)| <= |m| && Lookup(Forget(m, a), a).None?
  {
    if m != [] {
      ForgetShrinks(m[1..], a);
      if m[0].0 != a {
        var rest := Forget(m[1..], a);
        LookupOfMore(m[0], rest, a);
      }
    }
  }

  lemma {:induction false} LookupOfMore<V>(first: (Account, V), rest: Recent<V>, a: Account)
    requires first.0 != a
    ensures Lookup([first] + rest, a) == Lookup(rest, a)
  {
    var m := [first] + rest;
    if rest != [] {
      assert m[|m| - 1] == rest[|rest| - 1];
      assert m[..|m| - 1] == [first] + rest[..|rest| - 1];
      LookupOfMore(first, rest[..|rest| - 1], a);
    }
  }

  // ----- requests -----

  datatype Answer = Invalid | Closed | Coalesced | AlreadyFailed | AlreadyAvailable | Proceed | Backpressure | Admitted

  function Max(x: int, y: int): int { if x < y then y else x }

  function Coalesce(s: Sched, a: Account, revision: int): Sched
    requires a in s.work && s.work[a] in s.objects
  {
    var id := s.work[a];
    var w := s.objects[id];
    s.(objects := s.objects[id := w.(requested := Max(w.requested, revision), requests := w.requests + {revision})])
  }

  predicate HasWork(s: Sched, a: Account) { a in s.work && s.work[a] in s.objects }

  predicate FailedAlready(s: Sched, a: Account, revision: int) {
    Lookup(s.failures, a).Some? && Lookup(s.failures, a).value.attempted == revision
  }

  /** The first locked section of a request. */
  function ScheduleFirst(s: Sched, a: Account, revision: int, retry: bool): (Sched, Answer) {
    if revision < 0 then (s, Invalid)
    else if s.closed then (s, Closed)
    else if HasWork(s, a) then (Coalesce(s, a, revision), Coalesced)
    else if FailedAlready(s, a, revision) && !retry then (s, AlreadyFailed)
    else if Lookup(s.available, a).Some? && Lookup(s.available, a).value >= revision then (s, AlreadyAvailable)
    else (s, Proceed)
  }

  /** The second one: anything may have happened in between, so it looks again and then admits. */
  function ScheduleSecond(s: Sched, a: Account, revision: int, retry: bool, id: WorkId, limits: Limits): (Sched, Answer) {
    if s.closed then (s, Closed)
    else if HasWork(s, a) then (Coalesce(s, a, revision), Coalesced)
    else if FailedAlready(s, a, revision) && !retry then (s, AlreadyFailed)
    else if |s.pending| >= limits.queue then (s, Backpressure)
    else
      (s.(failures := Forget(s.failures, a), available := Forget(s.available, a), work := s.work[a := id],
          objects := s.objects[id := Work(a, revision, None, {revision})], pending := s.pending + [a]),
       Admitted)
  }

  // ----- workers -----

  /** An idle worker takes the account at the head of the queue. */
  function Pop(s: Sched, w: WorkerId): Sched {
    if s.closed || s.pending == [] || w in s.drains then s
    else
      var a := s.pending[0];
      var popped := s.(pending := s.pending[1..]);
      if a !in s.work then popped else popped.(drains := s.drains[w := Drain(a, s.work[a], Starting)])
  }

  /** Closed, or the table no longer holds the drain's own work object. */
  predicate Orphaned(s: Sched, d: Drain) {
    s.closed || d.account !in s.work || s.work[d.account] != d.work || d.work !in s.objects
  }

  /** An orphaned drain removes whatever the table holds for its account and stops. */
  function Abandon(s: Sched, w: WorkerId): Sched
    requires w in s.drains
  {
    s.(work := s.work - {s.drains[w].account}, drains := s.drains - {w})
  }

  function Goto(s: Sched, w: WorkerId, phase: Phase): Sched
    requires w in s.drains
  {
    s.(drains := s.drains[w := s.drains[w].(phase := phase)])
  }

  /** The head of the drain loop: fix the revision this attempt is for. */
  function Attempt(s: Sched, w: WorkerId): Sched {
    if w !in s.drains || s.drains[w].phase != Starting then s
    else
      var d := s.drains[w];
      if Orphaned(s, d) then Abandon(s, w)
      else
        var o := s.objects[d.work];
        Goto(s.(objects := s.objects[d.work := o.(attempted := Some(o.requested))]), w, Building(o.requested))
  }

  /** The build returned: a candidate for some revision, or a reason why there is none. */
  function Build(s: Sched, w: WorkerId, candidate: Option<Candidate>, reason: int): Sched {
    if w !in s.drains || !s.drains[w].phase.Building? then s
    else
      var attempted := s.drains[w].phase.attempted;
      if candidate.Some? then Goto(s, w, Built(attempted, candidate.value))
      else Goto(s, w, Settled(attempted, None, false, Some(reason)))
  }

  /** The eligibility check: still open, still ours, and no newer revision was requested meanwhile. */
  function Check(s: Sched, w: WorkerId): Sched {
    if w !in s.drains || !s.drains[w].phase.Built? then s
    else
      var (d, p) := (s.drains[w], s.drains[w].phase);
      if !Orphaned(s, d) && p.candidate.revision >= s.objects[d.work].requested then
        Goto(s, w, Approved(p.attempted, p.candidate))
      else Goto(s, w, Settled(p.attempted, Some(p.candidate), false, None))
  }

  /** The last check before publishing: not closed, and the epoch is the current one. */
  function Enter(s: Sched, w: WorkerId): Sched {
    if w !in s.drains || !s.drains[w].phase.Approved? then s
    else
      var p := s.drains[w].phase;
      if s.closed || s.epoch != Some(p.candidate.epoch) then Goto(s, w, Settled(p.attempted, Some(p.candidate), false, Some(FAILED)))
      else Goto(s, w, Publishing(p.attempted, p.candidate)).(published := s.published + [p.candidate.epoch])
  }

  function Publish(s: Sched, w: WorkerId, ok: bool, reason: int): Sched {
    if w !in s.drains || !s.drains[w].phase.Publishing? then s
    else
      var p := s.drains[w].phase;
      Goto(s, w, Settled(p.attempted, Some(p.candidate), ok, if ok then None else Some(reason)))
  }

  predicate Succeeded(s: Sched, d: Drain)
    requires d.phase.Settled? && d.work in s.objects
  {
    d.phase.reason.None? && d.phase.published && d.phase.result.Some?
    && d.phase.result.value.revision >= s.objects[d.work].requested
  }

  function Remove(s: Sched, w: WorkerId): Sched
    requires w in s.drains
  {
    s.(work := s.work - {s.drains[w].account}, drains := s.drains - {w})
  }

  /** The foot of the drain loop: record success, go round again for a newer request, or record a failure. */
  function Finish(s: Sched, w: WorkerId, limits: Limits): Sched {
    if w !in s.drains || !s.drains[w].phase.Settled? then s
    else
      var d := s.drains[w];
      var p := d.phase;
      if Orphaned(s, d) then Abandon(s, w)
      else if Succeeded(s, d) then
        Remove(s, w).(failures := Forget(s.failures, d.account),
                      available := Remember(s.available, d.account, p.result.value.revision, limits.recent))
      else if s.objects[d.work].requested > p.attempted then Goto(s, w, Starting)
      else
        var failure := Failure(s.objects[d.work].requested, p.attempted, if p.reason.Some? then p.reason.value else INCOMPLETE);
        Remove(s, w).(failures := Remember(s.failures, d.account, failure, limits.recent))
  }

  // ----- everything else that touches the shared tables -----

  /** Closing seals the state: queue, work, failures and availability are emptied at once. */
  function Close(s: Sched): Sched {
    s.(closed := true, pending := [], work := map[], failures := [], available := [], epoch := None)
  }

  /** A drain whose coroutine was cancelled by closing. */
  function Cancel(s: Sched, w: WorkerId): Sched {
    if w !in s.drains || !s.closed then s
    else
      var d := s.drains[w];
      var own := d.account in s.work && s.work[d.account] == d.work;
      s.(work := if own then s.work - {d.account} else s.work, drains := s.drains - {w})
  }

  /** A recovery request, a storage failure, the start-up scan and the opening of an epoch. */
  function Recover(s: Sched, a: Account): Sched {
    if s.closed then s else s.(available := Forget(s.available, a), failures := Forget(s.failures, a))
  }

  function StorageFailed(s: Sched, a: Option<Account>): Sched {
    s.(epoch := None, available := if a.None? then [] else Forget(s.available, a.value))
  }

  function FoundCurrent(s: Sched, a: Account, revision: int, limits: Limits): Sched {
    s.(available := Remember(s.available, a, revision, limits.recent))
  }

  function OpenEpoch(s: Sched, epoch: Epoch): Sched {
    if s.closed then s else s.(epoch := Some(epoch))
  }

  datatype Step = FirstStep(a: Account, revision: int, retry: bool)
                | SecondStep(a: Account, revision: int, retry: bool, id: WorkId)
                | PopStep(w: WorkerId) | AttemptStep(w: WorkerId)
                | BuildStep(w: WorkerId, candidate: Option<Candidate>, reason: int)
                | CheckStep(w: WorkerId) | EnterStep(w: WorkerId) | PublishStep(w: WorkerId, ok: bool, reason: int)
                | FinishStep(w: WorkerId)
                | CloseStep | CancelStep(w: WorkerId) | RecoverStep(a: Account) | StorageFailedStep(only: Option<Account>)
                | FoundCurrentStep(a: Account, revision: int) | OpenEpochStep(epoch: Epoch)

  function Apply(s: Sched, step: Step, limits: Limits): Sched {
    match step
    case FirstStep(a, revision, retry) => ScheduleFirst(s, a, revision, retry).0
    case SecondStep(a, revision, retry, id) => ScheduleSecond(s, a, revision, retry, id, limits).0
    case PopStep(w) => Pop(s, w)
    case AttemptStep(w) => Attempt(s, w)
    case BuildStep(w, candidate, reason) => Build(s, w, candidate, reason)
    case CheckStep(w) => Check(s, w)
    case EnterStep(w) => Enter(s, w)
    case PublishStep(w, ok, reason) => Publish(s, w, ok, reason)
    case FinishStep(w) => Finish(s, w, limits)
    case CloseStep => Close(s)
    case CancelStep(w) => Cancel(s, w)
    case RecoverStep(a) => Recover(s, a)
    case StorageFailedStep(a) => StorageFailed(s, a)
    case FoundCurrentStep(a, revision) => FoundCurrent(s, a, revision, limits)
    case OpenEpochStep(epoch) => OpenEpoch(s, epoch)
  }

  // ----- the invariant, while the scheduler is open -----

  /** A work object knows its largest request. */
  predicate WorkOk(o: Work) {
    o.requested in o.requests && (forall r :: r in o.requests ==> r <= o.requested)
  }

  /** The revision an attempt is for was requested, and is no newer than the newest request. */
  predicate PhaseOk(o: Work, p: Phase) {
    && (!p.Starting? ==> p.attempted <= o.requested && p.attempted in o.requests)
    && (p.Settled? && p.published ==> p.result.Some? && p.reason.None?)
  }

  /** Every admitted account is either queued once, or drained by exactly one worker that holds its work object. */
  ghost predicate TableOk(s: Sched) {
    && (forall a :: a in s.work ==> s.work[a] in s.objects && s.objects[s.work[a]].account == a)
    && Distinct(s.pending)
    && (forall a :: a in s.pending ==> a in s.work && forall w :: w in s.drains ==> s.drains[w].account != a)
    && (forall v, w :: v in s.drains && w in s.drains && v != w ==> s.drains[v].account != s.drains[w].account)
  }

  ghost predicate DrainsOk(s: Sched) {
    forall w :: w in s.drains ==>
      && s.drains[w].account in s.work && s.work[s.drains[w].account] == s.drains[w].work
      && s.drains[w].work in s.objects && PhaseOk(s.objects[s.drains[w].work], s.drains[w].phase)
  }

  ghost predicate SchedInv(s: Sched) {
    && (forall id :: id in s.objects ==> WorkOk(s.objects[id]))
    && (!s.closed ==> TableOk(s) && DrainsOk(s))
  }

  /** A fresh work object is a new one. */
  predicate Legal(s: Sched, step: Step) { step.SecondStep? ==> step.id !in s.objects }

  // ----- what a caller is told -----

  datatype Report = BuildingReport(requested: int, attempted: Option<int>) | ErrorReport(failure: Failure)
                  | AvailableReport(revision: int) | Unavailable

  function State(s: Sched, a: Account, canonical: Option<int>): Report {
    if HasWork(s, a) then BuildingReport(s.objects[s.work[a]].requested, s.objects[s.work[a]].attempted)
    else if Lookup(s.failures, a).Some? then ErrorReport(Lookup(s.failures, a).value)
    else if Lookup(s.available, a).Some? && (canonical.None? || Lookup(s.available, a).value >= canonical.value) then
      AvailableReport(Lookup(s.available, a).value)
    else Unavailable
  }
}
