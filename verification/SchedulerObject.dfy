/** The scheduler as the object that is updated in place; each method is one locked section. */
module SchedulerObject {
  import opened Options
  import opened Scheduler

  class InProcessProjectionScheduler {
    var pending: seq<Account>
    var work: map<Account, WorkId>
    var objects: map<WorkId, Work>
    var failures: Recent<Failure>
    var available: Recent<int>
    /** The suspended drains of the workers, with the work object each one holds. */
    var drains: map<WorkerId, Drain>
    var closed: bool
    var epoch: Option<Epoch>
    ghost var published: seq<Epoch>
    const limits: Limits

    ghost function Abstract(): Sched
      reads this
    {
      Sched(pending, work, objects, failures, available, drains, closed, epoch, published)
    }

    constructor (limits: Limits)
      requires limits.Valid()
      ensures Abstract() == Sched([], map[], map[], [], [], map[], false, None, []) && this.limits == limits
    {
      pending, work, objects, failures, available, drains, closed, epoch, published :=
        [], map[], map[], [], [], map[], false, None, [];
      this.limits := limits;
    }

    /** If the account has work already, raise what it is asked for. */
    method CoalesceLocked(a: Account, revision: int) returns (coalesced: bool)
      modifies this`objects
      ensures coalesced == HasWork(old(Abstract()), a)
      ensures Abstract() == if coalesced then Coalesce(old(Abstract()), a, revision) else old(Abstract())
    {
      if a !in work || work[a] !in objects { return false; }
      var existing := objects[work[a]];
      var requested := existing.requested;
      if requested < revision {
        requested := revision;
      }
      objects := objects[work[a] := existing.(requested := requested, requests := existing.requests + {revision})];
      coalesced := true;
    }

    /** The first section of a request. */
    method ScheduleOnce(a: Account, revision: int, retry: bool) returns (answer: Answer)
      modifies this
      ensures (Abstract(), answer) == ScheduleFirst(old(Abstract()), a, revision, retry)
    {
      if revision < 0 { return Invalid; }
      if closed { return Closed; }
      var coalesced := CoalesceLocked(a, revision);
      if coalesced { return Coalesced; }
      var failure := Lookup(failures, a);
      if failure.Some? && failure.value.attempted == revision && !retry { return AlreadyFailed; }
      var known := Lookup(available, a);
      if known.Some? && known.value >= revision { return AlreadyAvailable; }
      answer := Proceed;
    }

    /** The second section: look again, then admit the account with a work object of its own. */
    method ScheduleAgain(a: Account, revision: int, retry: bool, id: WorkId) returns (answer: Answer)
      modifies this
      ensures (Abstract(), answer) == ScheduleSecond(old(Abstract()), a, revision, retry, id, limits)
    {
      if closed { return Closed; }
      var coalesced := CoalesceLocked(a, revision);
      if coalesced { return Coalesced; }
      var failure := Lookup(failures, a);
      if failure.Some? && failure.value.attempted == revision && !retry { return AlreadyFailed; }
      if |pending| >= limits.queue { return Backpressure; }
      failures := Forget(failures, a);
      available := Forget(available, a);
      work := work[a := id];
      objects := objects[id := Work(a, revision, None, {revision})];
      pending := pending + [a];
      answer := Admitted;
    }

    /** An idle worker takes the next account, and with it the account's work object. */
    method TakePending(w: WorkerId)
      modifies this
      ensures Abstract() == Pop(old(Abstract()), w)
    {
      if closed || |pending| == 0 || w in drains { return; }
      var a := pending[0];
      pending := pending[1..];
      if a in work {
        drains := drains[w := Drain(a, work[a], Starting)];
      }
    }

    function IsOrphaned(d: Drain): bool
      reads this
      ensures IsOrphaned(d) == Orphaned(Abstract(), d)
    {
      closed || d.account !in work || work[d.account] != d.work || d.work !in objects
    }

    method BeginAttempt(w: WorkerId)
      modifies this
      ensures Abstract() == Attempt(old(Abstract()), w)
    {
      if w !in drains || drains[w].phase != Starting { return; }
      var d := drains[w];
      if IsOrphaned(d) {
        work := work - {d.account};
        drains := drains - {w};
        return;
      }
      var o := objects[d.work];
      objects := objects[d.work := o.(attempted := Some(o.requested))];
      drains := drains[w := d.(phase := Building(o.requested))];
    }

    method CheckEligible(w: WorkerId)
      modifies this
      ensures Abstract() == Check(old(Abstract()), w)
    {
      if w !in drains || !drains[w].phase.Built? { return; }
      var d := drains[w];
      var eligible := !IsOrphaned(d) && d.phase.candidate.revision >= objects[d.work].requested;
      var next := if eligible then Approved(d.phase.attempted, d.phase.candidate)
                  else Settled(d.phase.attempted, Some(d.phase.candidate), false, None);
      drains := drains[w := d.(phase := next)];
    }

    method EnterPublication(w: WorkerId)
      modifies this
      ensures Abstract() == Enter(old(Abstract()), w)
    {
      if w !in drains || !drains[w].phase.Approved? { return; }
      var d := drains[w];
      if closed || epoch != Some(d.phase.candidate.epoch) {
        drains := drains[w := d.(phase := Settled(d.phase.attempted, Some(d.phase.candidate), false, Some(FAILED)))];
      } else {
        drains := drains[w := d.(phase := Publishing(d.phase.attempted, d.phase.candidate))];
        published := published + [d.phase.candidate.epoch];
      }
    }

    /** Drop the oldest entries, one at a time, until the rest fits. */
    method Trim<V>(m: Recent<V>) returns (kept: Recent<V>)
      ensures kept == if |m| > limits.recent then m[|m| - limits.recent..] else m
    {
      kept := m;
      while |kept| > limits.recent
        invariant |kept| <= |m| && kept == m[|m| - |kept|..]
        invariant |m| > limits.recent ==> |kept| >= limits.recent
        invariant |m| <= limits.recent ==> kept == m
      {
        kept := kept[1..];
      }
    }

    method RecordAvailableLocked(a: Account, revision: int)
      modifies this`available
      ensures available == Remember(old(available), a, revision, limits.recent)
    {
      available := Forget(available, a) + [(a, revision)];
      var kept := Trim(available);
      available := kept;
    }

    /** The foot of the drain loop. */
    method FinishAttempt(w: WorkerId)
      modifies this
      ensures Abstract() == Finish(old(Abstract()), w, limits)
    {
      if w !in drains || !drains[w].phase.Settled? { return; }
      var d := drains[w];
      var p := d.phase;
      if IsOrphaned(d) {
        work := work - {d.account};
        drains := drains - {w};
        return;
      }
      var requested := objects[d.work].requested;
      if p.reason.None? && p.published && p.result.Some? && p.result.value.revision >= requested {
        work := work - {d.account};
        drains := drains - {w};
        failures := Forget(failures, d.account);
        RecordAvailableLocked(d.account, p.result.value.revision);
        return;
      }
      if requested > p.attempted {
        drains := drains[w := d.(phase := Starting)];
        return;
      }
      work := work - {d.account};
      drains := drains - {w};
      var failure := Failure(requested, p.attempted, if p.reason.Some? then p.reason.value else INCOMPLETE);
      failures := Forget(failures, d.account) + [(d.account, failure)];
      var kept := Trim(failures);
      failures := kept;
    }

    /** The state-sealing part of closing. */
    method Seal()
      modifies this
      ensures Abstract() == Close(old(Abstract()))
    {
      closed := true;
      pending := [];
      work := map[];
      failures := [];
      available := [];
      epoch := None;
    }

    method Report(a: Account, canonical: Option<int>) returns (report: Scheduler.Report)
      ensures report == State(Abstract(), a, canonical)
    {
      if a in work && work[a] in objects {
        return BuildingReport(objects[work[a]].requested, objects[work[a]].attempted);
      }
      var failure := Lookup(failures, a);
      if failure.Some? { return ErrorReport(failure.value); }
      var known := Lookup(available, a);
      if known.Some? && (canonical.None? || known.value >= canonical.value) { return AvailableReport(known.value); }
      report := Unavailable;
    }
  }
}
