/** One worker process: releasing, claiming, executing, and the poll cycle. */
module Worker {
  import opened Domain
  import opened SessionApi
  import opened ArtifactService
  import opened Agents
  import DB = Database

  const HEARTBEAT_INTERVAL: Time := 30 * SECOND
  const JOB_TIMEOUT: Time := 120 * SECOND

  // ---- Specifications over table values ----

  /** Strictly more than the timeout has passed since the last sign of life. */
  predicate TimedOut(job: Job, now: Time) {
    job.status == Running && job.startedAt.Some? && job.startedAt.value + JOB_TIMEOUT < now
  }

  function Freed(job: Job): Job {
    job.(status := Pending, startedAt := None)
  }

  function Release(jobs: map<Id, Job>, now: Time): map<Id, Job> {
    map j | j in jobs :: if TimedOut(jobs[j], now) then Freed(jobs[j]) else jobs[j]
  }

  predicate Claimable(job: Job, now: Time) {
    job.status == Pending && (job.nextRunAt.Some? ==> job.nextRunAt.value <= now)
  }

  /** Higher priority first, then the older row. */
  predicate Before(a: Job, b: Job) {
    a.priority > b.priority || (a.priority == b.priority && a.createdAt <= b.createdAt)
  }

  /** A row the claim may return when the rows in `locked` are skipped. */
  predicate IsClaim(jobs: map<Id, Job>, now: Time, locked: set<Id>, j: Id) {
    && j in jobs && j !in locked && Claimable(jobs[j], now)
    && forall k :: k in jobs && k !in locked && Claimable(jobs[k], now) ==> Before(jobs[j], jobs[k])
  }

  function Start(job: Job, now: Time): Job {
    job.(status := Running, startedAt := Some(now))
  }

  /** A heartbeat touches a job only while it is running. */
  function Beat(job: Job, now: Time): Job {
    if job.status == Running then job.(startedAt := Some(now)) else job
  }

  /** The worker's record of a failed run: only if the job still is running. */
  function FailByWorker(job: Job, message: string, now: Time): Job {
    if job.status != Running then job
    else
      var failed := job.(status := Failed, error := Some(message));
      if job.retryCount < job.maxRetries
      then failed.(nextRunAt := Some(now), retryCount := job.retryCount + 1)
      else failed
  }

  /** A job of an unknown type fails whatever its status has become. */
  function FailUnknown(job: Job, message: string, now: Time): Job {
    job.(status := Failed, completedAt := Some(now), error := Some(message))
  }

  function WithJob(t: Tables, j: Id, job: Job): Tables {
    t.(jobs := t.jobs[j := job])
  }

  /** What the surroundings contribute to one execution: the provider, the id
      an inserted artifact would draw, and the text of a failure. */
  datatype Surroundings = Surroundings(provider: Provider, artifact: Id, message: string)

  /** The tables after an execution: as committed, and as the worker's own
      session sees them, pending writes included. */
  datatype Execution = Execution(committed: Tables, pending: Tables)

  /** Execution of a claimed job from the tables that show it as running. */
  function Execute(t: Tables, j: Id, e: Surroundings, now: Time): Execution
    requires j in t.jobs
  {
    if !Registered(t.jobs[j].jobType) then
      var failed := WithJob(t, j, FailUnknown(t.jobs[j], e.message, now));
      Execution(failed, failed)
    else
      var r := Handle(t, j, e.provider, e.artifact, now);
      if r.Ok? then Execution(r.t, r.t)
      else
        var failed := FailByWorker(t.jobs[j], e.message, now);
        Execution(WithJob(t, j, failed), WithJob(r.t, j, failed))
  }

  predicate EligibleDeletion(job: DeletionJob, now: Time) {
    job.status == Pending && (job.nextRunAt.Some? ==> job.nextRunAt.value <= now)
  }

  predicate IsDeletionClaim(deletions: map<Id, DeletionJob>, now: Time, d: Id) {
    && d in deletions && EligibleDeletion(deletions[d], now)
    && forall k :: k in deletions && EligibleDeletion(deletions[k], now) ==>
       deletions[d].createdAt <= deletions[k].createdAt
  }

  function DeletionFailed(t: Tables, d: Id, message: string): Tables
    requires d in t.deletions
  {
    t.(deletions := t.deletions[d := t.deletions[d].(status := Failed, error := Some(message))])
  }

  // ---- The claim always finds the best row ----

  lemma {:induction false} BestExists(jobs: map<Id, Job>, candidates: set<Id>) returns (best: Id)
    requires candidates != {} && candidates <= jobs.Keys
    ensures best in candidates && forall k :: k in candidates ==> Before(jobs[best], jobs[k])
    decreases |candidates|
  {
    var j :| j in candidates;
    best := j;
    var rest := candidates - {j};
    if rest != {} {
      var b := BestExists(jobs, rest);
      if Before(jobs[b], jobs[j]) {
        best := b;
      }
      forall k | k in candidates
        ensures Before(jobs[best], jobs[k])
      {
        assert k == j || (k in rest && Before(jobs[b], jobs[k]));
      }
    }
  }

  lemma {:induction false} OldestDeletion(deletions: map<Id, DeletionJob>, candidates: set<Id>) returns (oldest: Id)
    requires candidates != {} && candidates <= deletions.Keys
    ensures oldest in candidates && forall k :: k in candidates ==>
            deletions[oldest].createdAt <= deletions[k].createdAt
    decreases |candidates|
  {
    var d :| d in candidates;
    oldest := d;
    var rest := candidates - {d};
    if rest != {} {
      var b := OldestDeletion(deletions, rest);
      if deletions[b].createdAt <= deletions[d].createdAt {
        oldest := b;
      }
      assert forall k :: k in candidates ==> k == d || k in rest;
    }
  }

  /** How long a lease is: a release leaves a running row alone exactly up to
      two minutes after its last sign of life, and any other row always. */
  lemma LeaseTerm(jobs: map<Id, Job>, j: Id, now: Time)
    requires j in jobs
    ensures j in Release(jobs, now)
    ensures Release(jobs, now)[j] == jobs[j] <==>
            (jobs[j].status == Running && jobs[j].startedAt.Some? ==> now <= jobs[j].startedAt.value + 120_000_000)
    ensures Release(jobs, now)[j] != jobs[j] ==> Release(jobs, now)[j] == jobs[j].(status := Pending, startedAt := None)
  {
  }

  /** Every claimable row is a legal claim while other sessions hold the rest. */
  lemma EveryClaimIsPossible(jobs: map<Id, Job>, now: Time, j: Id)
    ensures (j in jobs && Claimable(jobs[j], now)) <==> exists locked :: IsClaim(jobs, now, locked, j)
  {
    if j in jobs && Claimable(jobs[j], now) {
      assert IsClaim(jobs, now, jobs.Keys - {j}, j);
    }
  }

  /** A row is the claim's answer exactly if it is pending, due and unlocked, has
      the highest priority of such rows, and of those is one of the oldest. */
  lemma ClaimColumns(jobs: map<Id, Job>, now: Time, locked: set<Id>, j: Id)
    ensures IsClaim(jobs, now, locked, j) <==>
            && j in jobs && j !in locked && jobs[j].status == Pending
            && (jobs[j].nextRunAt.Some? ==> jobs[j].nextRunAt.value <= now)
            && forall k :: k in jobs && k !in locked && jobs[k].status == Pending
                           && (jobs[k].nextRunAt.Some? ==> jobs[k].nextRunAt.value <= now) ==>
                 && jobs[k].priority <= jobs[j].priority
                 && (jobs[k].priority == jobs[j].priority ==> jobs[j].createdAt <= jobs[k].createdAt)
  {
  }

  /** A deletion job is taken exactly if it is one of the oldest pending due ones. */
  lemma DeletionClaimColumns(deletions: map<Id, DeletionJob>, now: Time, d: Id)
    ensures IsDeletionClaim(deletions, now, d) <==>
            && d in deletions && deletions[d].status == Pending
            && (deletions[d].nextRunAt.Some? ==> deletions[d].nextRunAt.value <= now)
            && forall k :: k in deletions && deletions[k].status == Pending
                           && (deletions[k].nextRunAt.Some? ==> deletions[k].nextRunAt.value <= now) ==>
                 deletions[d].createdAt <= deletions[k].createdAt
  {
  }

  // ---- The worker ----

  method ReleaseTimedOutJobs(db: DB.Database, now: Time) returns (count: nat)
    modifies db`jobs
    ensures db.jobs == Release(old(db.jobs), now)
    ensures count == |set j | j in old(db.jobs) && TimedOut(old(db.jobs)[j], now)|
    // On the columns: two minutes without a sign of life, to the microsecond.
    ensures db.jobs.Keys == old(db.jobs).Keys
    ensures forall j :: j in old(db.jobs) ==>
              var row := old(db.jobs)[j];
              db.jobs[j] == if row.status == Running && row.startedAt.Some? && row.startedAt.value + 120_000_000 < now
                            then row.(status := Pending, startedAt := None) else row
  {
    var due := set j | j in db.jobs && TimedOut(db.jobs[j], now);
    db.jobs := map j | j in db.jobs :: if j in due then Freed(db.jobs[j]) else db.jobs[j];
    count := |due|;
  }

  /** Returns a best claimable row among those no other session has locked. */
  method ClaimJob(db: DB.Database, now: Time, locked: set<Id>) returns (pick: Option<Id>)
    ensures pick == None <==> forall j :: j in db.jobs && j !in locked ==> !Claimable(db.jobs[j], now)
    ensures pick.Some? ==> IsClaim(db.jobs, now, locked, pick.value)
    // On the columns: pending, due and unlocked; the highest priority, and of
    // that the oldest.
    ensures pick == None <==>
            forall j :: j in db.jobs && j !in locked && db.jobs[j].status == Pending ==>
              db.jobs[j].nextRunAt.Some? && now < db.jobs[j].nextRunAt.value
    ensures pick.Some? ==>
              && pick.value in db.jobs && pick.value !in locked && db.jobs[pick.value].status == Pending
              && (db.jobs[pick.value].nextRunAt.Some? ==> db.jobs[pick.value].nextRunAt.value <= now)
    ensures pick.Some? ==>
              forall k :: k in db.jobs && k !in locked && db.jobs[k].status == Pending
                          && (db.jobs[k].nextRunAt.Some? ==> db.jobs[k].nextRunAt.value <= now) ==>
                && db.jobs[k].priority <= db.jobs[pick.value].priority
                && (db.jobs[k].priority == db.jobs[pick.value].priority ==>
                      db.jobs[pick.value].createdAt <= db.jobs[k].createdAt)
  {
    var candidates := set j | j in db.jobs && j !in locked && Claimable(db.jobs[j], now);
    if candidates == {} {
      assert forall j :: j in db.jobs && j !in locked ==> !Claimable(db.jobs[j], now) by {
        forall j | j in db.jobs && j !in locked ensures !Claimable(db.jobs[j], now) {
          assert j !in candidates;
        }
      }
      return None;
    }
    ghost var best := BestExists(db.jobs, candidates);
    var j :| j in candidates && forall k :: k in candidates ==> Before(db.jobs[j], db.jobs[k]);
    ClaimColumns(db.jobs, now, locked, j);
    pick := Some(j);
  }

  /** Marks the claimed job running, commits, runs the handler, and records a
      failure through a second session; `now` and `later` are the clock before
      and after the handler. */
  method ExecuteJob(db: DB.Database, j: Id, e: Surroundings, now: Time, later: Time)
    requires j in db.jobs
    modifies db
    ensures var t := WithJob(old(db.View()), j, Start(old(db.jobs)[j], now));
            db.committed == Execute(t, j, e, later).committed && db.View() == Execute(t, j, e, later).pending
    ensures db.files == old(db.files)
  {
    db.jobs := db.jobs[j := Start(db.jobs[j], now)];
    db.Commit();
    if !Registered(db.jobs[j].jobType) {
      CommitElsewhere(db, j, FailUnknown(db.committed.jobs[j], e.message, later));
    } else {
      var error := RunHandler(db, j, e.provider, e.artifact, later);
      if error.Some? && db.committed.jobs[j].status == Running {
        CommitElsewhere(db, j, FailByWorker(db.committed.jobs[j], e.message, later));
      }
    }
  }

  /** A second session commits one job row; the first then sees that row and
      keeps its own pending writes. */
  method CommitElsewhere(db: DB.Database, j: Id, job: Job)
    requires j in db.jobs && j in db.committed.jobs
    modifies db`committed, db`jobs
    ensures db.committed == WithJob(old(db.committed), j, job) && db.View() == WithJob(old(db.View()), j, job)
  {
    db.committed := db.committed.(jobs := db.committed.jobs[j := job]);
    db.jobs := db.jobs[j := job];
  }

  /** Release, claim, execute. Without a claim the release stays uncommitted. */
  method ProcessOne(db: DB.Database, locked: set<Id>, now: Time, later: Time, env: Id -> Surroundings)
    returns (pick: Option<Id>)
    modifies db
    ensures db.files == old(db.files)
    ensures var t := old(db.View()).(jobs := Release(old(db.jobs), now));
            match pick
            case None =>
              && (forall j :: j in t.jobs && j !in locked ==> !Claimable(t.jobs[j], now))
              && db.View() == t && db.committed == old(db.committed)
            case Some(j) =>
              && IsClaim(t.jobs, now, locked, j)
              && var x := Execute(WithJob(t, j, Start(t.jobs[j], now)), j, env(j), later);
                 db.committed == x.committed && db.View() == x.pending
  {
    var released := ReleaseTimedOutJobs(db, now);
    pick := ClaimJob(db, now, locked);
    if pick.Some? {
      ExecuteJob(db, pick.value, env(pick.value), now, later);
    }
  }

  /** The deletion half of a cycle, in the same session: whatever it commits
      commits everything still pending in that session too. */
  method ProcessDeletion(db: DB.Database, now: Time, removeFails: bool, message: string) returns (pick: Option<Id>)
    modifies db
    // On the columns: the oldest of the pending deletion jobs that are due.
    ensures pick.Some? ==> pick.value in old(db.deletions) && old(db.deletions)[pick.value].status == Pending
    ensures pick.Some? ==>
              forall k :: k in old(db.deletions) && old(db.deletions)[k].status == Pending
                          && (old(db.deletions)[k].nextRunAt.Some? ==> old(db.deletions)[k].nextRunAt.value <= now) ==>
                old(db.deletions)[pick.value].createdAt <= old(db.deletions)[k].createdAt
    ensures match pick
            case None =>
              && db.View() == old(db.View()) && db.committed == old(db.committed) && db.files == old(db.files)
              && forall d :: d in db.deletions ==> !EligibleDeletion(db.deletions[d], now)
            case Some(d) =>
              && IsDeletionClaim(old(db.deletions), now, d) && db.Clean()
              && var job := old(db.deletions)[d];
                 var refused := removeFails && job.kind == DeleteLocalAudio && job.target.Some?
                                && job.target.value in old(db.files);
                 && db.View() == (if refused then DeletionFailed(old(db.View()), d, message)
                                  else DeletionDone(old(db.View()), d))
                 && db.files == (if refused then old(db.files) else FilesWithout(old(db.files), job))
  {
    var candidates := set d | d in db.deletions && EligibleDeletion(db.deletions[d], now);
    if candidates == {} {
      assert forall d :: d in db.deletions && EligibleDeletion(db.deletions[d], now) ==> d in candidates;
      return None;
    }
    ghost var oldest := OldestDeletion(db.deletions, candidates);
    var d :| d in candidates && forall k :: k in candidates ==> db.deletions[d].createdAt <= db.deletions[k].createdAt;
    DeletionClaimColumns(db.deletions, now, d);
    ghost var before := db.View();
    var job := db.deletions[d];
    db.deletions := db.deletions[d := job.(status := Running)];
    var failed := RunDeletion(db, d, removeFails);
    assert DeletionDone(before.(deletions := before.deletions[d := job.(status := Running)]), d)
        == DeletionDone(before, d);
    if failed {
      db.deletions := db.deletions[d := job.(status := Failed, error := Some(message))];
      db.Commit();
    }
    pick := Some(d);
  }
}
