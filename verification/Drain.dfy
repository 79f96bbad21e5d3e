/** A single worker working off both queues: every eligible job runs once, in
    claim order, and every eligible deletion job is attempted. */
module Drain {
  import opened Domain
  import opened Agents
  import opened Worker
  import opened System
  import opened SystemRuns
  import opened PollCycle
  import DB = Database

  predicate Settled(status: JobStatus) {
    status == Completed || status == Failed
  }

  /** An execution settles its own job, writes no other job row and makes none. */
  lemma ExecutionSettles(t: Tables, j: Id, e: Surroundings, now: Time)
    requires j in t.jobs && t.jobs[j].status == Running
    ensures var after := Execute(t, j, e, now).committed.jobs;
            && after == t.jobs[j := after[j]] && Settled(after[j].status)
  {
  }

  lemma NothingTimedOut(jobs: map<Id, Job>, now: Time)
    requires forall j :: j in jobs ==> jobs[j].status != Running
    ensures Release(jobs, now) == jobs
  {
  }

  ghost predicate Sorted(jobs: map<Id, Job>, order: seq<Id>) {
    forall i, k :: 0 <= i < k < |order| && order[i] in jobs && order[k] in jobs ==>
      Before(jobs[order[i]], jobs[order[k]])
  }

  /** Jobs already run are settled; the others are as they were, and those of
      them still pending come after every job already run. */
  ghost predicate Progress(before: map<Id, Job>, after: map<Id, Job>, order: seq<Id>) {
    && after.Keys == before.Keys
    && (forall j :: j in order ==> j in before && before[j].status == Pending && Settled(after[j].status))
    && (forall j :: j in before && j !in order ==> after[j] == before[j])
    && (forall i, k :: 0 <= i < k < |order| ==> order[i] != order[k])
    && Sorted(before, order)
    && (forall i, j :: 0 <= i < |order| && j in before && j !in order && before[j].status == Pending ==>
          Before(before[order[i]], before[j]))
  }

  lemma ProgressStep(before: map<Id, Job>, after: map<Id, Job>, order: seq<Id>, j: Id, row: Job, now: Time)
    requires Progress(before, after, order) && IsClaim(after, now, {}, j) && Settled(row.status)
    requires forall k :: k in after && after[k].status == Pending ==> Claimable(after[k], now)
    ensures Progress(before, after[j := row], order + [j])
  {
    assert j !in order;
    assert after[j] == before[j];
    var next := order + [j];
    forall i, k | 0 <= i < k < |next|
      ensures next[i] != next[k] && Before(before[next[i]], before[next[k]])
    {
      assert next[i] == order[i];
    }
    forall i, k | 0 <= i < |next| && k in before && k !in next && before[k].status == Pending
      ensures Before(before[next[i]], before[k])
    {
      assert k !in order;
      assert after[k] == before[k];
    }
  }

  function PendingDeletions(deletions: map<Id, DeletionJob>): set<Id> {
    set d | d in deletions && deletions[d].status == Pending
  }

  /** The deletion half settles the one deletion job it attempts. */
  predicate Attempted(before: map<Id, DeletionJob>, after: map<Id, DeletionJob>, half: Half) {
    match half
    case NoDeletion => after == before
    case Attempt(d, _) =>
      && d in before && after.Keys == before.Keys
      && after == before[d := after[d]] && Settled(after[d].status)
  }

  lemma HalfRows(committed: Tables, pending: Tables, half: Half)
    requires committed.deletions == pending.deletions && committed.jobs == pending.jobs
    requires half.Attempt? ==> half.d in pending.deletions && !half.outcome.Died?
    ensures var after := AfterHalf(committed, pending, half);
            after.jobs == pending.jobs && Attempted(pending.deletions, after.deletions, half)
  {
  }

  lemma ExecutionRows(t: Tables, j: Id, e: Surroundings, now: Time)
    requires j in t.jobs && t.jobs[j].status == Running
    ensures var x := Execute(t, j, e, now);
            x.pending.jobs == x.committed.jobs && x.pending.deletions == x.committed.deletions == t.deletions
  {
    ExecuteNeutral(t, j, e, now);
  }

  /** What one cycle commits, of jobs and deletion jobs, when nothing is running. */
  lemma CycleRows(t: Tables, job: Option<Id>, env: Id -> Surroundings, now: Time, later: Time, half: Half)
    requires forall j :: j in t.jobs ==> t.jobs[j].status != Running
    requires job.Some? ==> job.value in t.jobs
    requires half.Attempt? ==> half.d in t.deletions && !half.outcome.Died?
    ensures var x := FirstHalf(t, job, env, now, later);
            x.pending.deletions == t.deletions && x.committed.deletions == t.deletions
    ensures var x := FirstHalf(t, job, env, now, later);
            var after := AfterHalf(x.committed, x.pending, half);
            && Attempted(t.deletions, after.deletions, half)
            && match job
               case None => after.jobs == t.jobs
               case Some(j) =>
                 && j in after.jobs && after.jobs == t.jobs[j := after.jobs[j]]
                 && Settled(after.jobs[j].status)
  {
    var x := FirstHalf(t, job, env, now, later);
    NothingTimedOut(t.jobs, now);
    if job.Some? {
      var started := WithJob(t, job.value, Worker.Start(t.jobs[job.value], now));
      assert t.(jobs := Release(t.jobs, now)) == t;
      assert x == Execute(started, job.value, env(job.value), later);
      ExecutionRows(started, job.value, env(job.value), later);
      ExecutionSettles(started, job.value, env(job.value), later);
      assert t.jobs[job.value := x.committed.jobs[job.value]] == x.committed.jobs;
    }
    HalfRows(x.committed, x.pending, half);
  }

  /** Nothing runs, and what is pending is due by `start`. */
  predicate Ready(jobs: map<Id, Job>, start: Time) {
    forall j :: j in jobs ==> jobs[j].status != Running && (jobs[j].status == Pending ==> Claimable(jobs[j], start))
  }

  predicate ReadyDeletions(deletions: map<Id, DeletionJob>, start: Time) {
    forall d :: d in deletions && deletions[d].status == Pending ==> EligibleDeletion(deletions[d], start)
  }

  function Left(jobs: map<Id, Job>, order: seq<Id>): set<Id> {
    set j | j in jobs && j !in order
  }

  lemma ReadyNow(before: map<Id, Job>, jobs: map<Id, Job>, order: seq<Id>, start: Time, now: Time)
    requires Ready(before, start) && Progress(before, jobs, order) && start <= now
    ensures Ready(jobs, now)
    ensures Release(jobs, now) == jobs
  {
    assert forall j :: j in jobs && j !in order ==> jobs[j] == before[j];
    NothingTimedOut(jobs, now);
  }

  lemma JobHalf(before: map<Id, Job>, jobs: map<Id, Job>, after: map<Id, Job>, order: seq<Id>, start: Time, now: Time,
                j: Id)
    requires Ready(before, start) && Progress(before, jobs, order) && start <= now
             && IsClaim(Release(jobs, now), now, {}, j)
    requires j in after && after == jobs[j := after[j]] && Settled(after[j].status)
    ensures Progress(before, after, order + [j]) && Left(before, order + [j]) < Left(before, order)
  {
    ReadyNow(before, jobs, order, start, now);
    ProgressStep(before, jobs, order, j, after[j], now);
    assert j in Left(before, order);
  }

  lemma DeletionHalf(deletions: map<Id, DeletionJob>, after: map<Id, DeletionJob>, half: Half, start: Time, now: Time)
    requires ReadyDeletions(deletions, start) && Attempted(deletions, after, half) && start <= now
    requires half.Attempt? ==> deletions[half.d].status == Pending
    requires half.NoDeletion? ==> forall d :: d in deletions ==> !EligibleDeletion(deletions[d], now)
    ensures ReadyDeletions(after, start) && after.Keys == deletions.Keys
    ensures if half.Attempt? then PendingDeletions(after) < PendingDeletions(deletions)
            else PendingDeletions(after) == {}
  {
    if half.Attempt? {
      assert half.d in PendingDeletions(deletions) && half.d !in PendingDeletions(after);
    }
  }

  /** What `OneCycle` promises, of the cycle's outcome as values. */
  lemma CycleAdvances(before: map<Id, Job>, t: Tables, order: seq<Id>, start: Time, job: Option<Id>, half: Half,
                      env: Id -> Surroundings, now: Time, later: Time, after: Time, x: Execution)
    requires Ready(before, start) && Progress(before, t.jobs, order) && ReadyDeletions(t.deletions, start)
    requires start <= now && start <= after
    requires job.Some? ==> IsClaim(Release(t.jobs, now), now, {}, job.value)
    requires half.Attempt? ==> !half.outcome.Died? && half.d in t.deletions && t.deletions[half.d].status == Pending
    requires half.NoDeletion? ==> forall d :: d in t.deletions ==> !EligibleDeletion(t.deletions[d], after)
    requires x == FirstHalf(t, job, env, now, later) && x.pending.deletions == t.deletions
    ensures var end, next := AfterHalf(x.committed, x.pending, half), if job.Some? then order + [job.value] else order;
            && Progress(before, end.jobs, next) && ReadyDeletions(end.deletions, start)
            && end.deletions.Keys == t.deletions.Keys
            && (job.Some? ==> Left(before, next) < Left(before, order))
            && (job == None ==> end.jobs == t.jobs)
            && if half.Attempt? then PendingDeletions(end.deletions) < PendingDeletions(t.deletions)
               else PendingDeletions(end.deletions) == {}
  {
    ReadyNow(before, t.jobs, order, start, now);
    CycleRows(t, job, env, now, later, half);
    var end := AfterHalf(x.committed, x.pending, half);
    DeletionHalf(t.deletions, end.deletions, half, start, after);
    if job.Some? {
      JobHalf(before, t.jobs, end.jobs, order, start, now, job.value);
    }
  }

  lemma PendingRowsKept(t: Tables, job: Option<Id>, env: Id -> Surroundings, now: Time, later: Time)
    requires job.Some? ==> job.value in t.jobs
    ensures FirstHalf(t, job, env, now, later).pending.deletions == t.deletions
  {
    if job.Some? {
      var released := t.(jobs := Release(t.jobs, now));
      ExecutionRows(WithJob(released, job.value, Worker.Start(released.jobs[job.value], now)), job.value,
                    env(job.value), later);
    }
  }

  /** One cycle of the loop: a job more in the order, or a deletion job less
      pending, or nothing left to do. */
  method OneCycle(db: DB.Database, ghost before: map<Id, Job>, order: seq<Id>, start: Time,
                  now: Time, later: Time, after: Time, env: Id -> Surroundings, removeFails: bool, message: string)
    returns (next: seq<Id>, more: bool)
    requires db.Clean() && Ready(before, start) && Progress(before, db.jobs, order)
    requires ReadyDeletions(db.deletions, start) && start <= now && start <= after
    modifies db
    ensures db.Clean() && Progress(before, db.jobs, next)
    ensures ReadyDeletions(db.deletions, start) && db.deletions.Keys == old(db.deletions).Keys
    ensures more ==> Left(before, next) < Left(before, order)
                     || (next == order && PendingDeletions(db.deletions) < PendingDeletions(old(db.deletions)))
    ensures !more ==> next == order && PendingDeletions(db.deletions) == {}
                      && forall j :: j in db.jobs ==> db.jobs[j].status != Pending
  {
    ghost var t := db.committed;
    ReadyNow(before, t.jobs, order, start, now);
    var job, half := Poll(db, {}, now, later, after, env, removeFails, message);
    PendingRowsKept(t, job, env, now, later);
    CycleAdvances(before, t, order, start, job, half, env, now, later, after, FirstHalf(t, job, env, now, later));
    if job.Some? {
      next, more := order + [job.value], true;
    } else {
      next, more := order, half.Attempt?;
    }
  }

  /** The poll loop over queues whose pending rows are all due by `start`, while
      no other worker runs anything: it stops, having run each pending job exactly
      once, by priority and then age, whatever the handlers and the deletion
      halves do, and having attempted every deletion job. */
  method DrainQueues(db: DB.Database, start: Time, clock: nat -> Time, env: Id -> Surroundings,
                     removeFails: nat -> bool, message: string)
    returns (order: seq<Id>)
    requires db.Clean() && Ready(db.jobs, start) && ReadyDeletions(db.deletions, start)
    requires forall i :: start <= clock(i)
    modifies db
    ensures db.Clean()
    ensures forall j :: j in order <==> j in old(db.jobs) && old(db.jobs)[j].status == Pending
    ensures forall i, k :: 0 <= i < k < |order| ==> order[i] != order[k]
    ensures forall i, k :: 0 <= i < k < |order| ==>
              var first, second := old(db.jobs)[order[i]], old(db.jobs)[order[k]];
              && second.priority <= first.priority
              && (second.priority == first.priority ==> first.createdAt <= second.createdAt)
    ensures db.jobs.Keys == old(db.jobs).Keys
    ensures forall j :: j in order ==> Settled(db.jobs[j].status)
    ensures forall j :: j in old(db.jobs) && j !in order ==> db.jobs[j] == old(db.jobs)[j]
    ensures db.deletions.Keys == old(db.deletions).Keys && PendingDeletions(db.deletions) == {}
  {
    ghost var before := db.jobs;
    var cycle := 0;
    order := [];
    var more := true;
    while more
      invariant db.Clean() && Progress(before, db.jobs, order)
      invariant db.deletions.Keys == old(db.deletions).Keys && ReadyDeletions(db.deletions, start)
      invariant !more ==> PendingDeletions(db.deletions) == {}
      invariant !more ==> forall j :: j in db.jobs ==> db.jobs[j].status != Pending
      decreases more, Left(before, order), PendingDeletions(db.deletions)
    {
      order, more := OneCycle(db, before, order, start, clock(3 * cycle), clock(3 * cycle + 1), clock(3 * cycle + 2),
                              env, removeFails(cycle), message);
      cycle := cycle + 1;
    }
  }
}
