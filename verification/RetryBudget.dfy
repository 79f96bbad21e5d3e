/** Retry accounting on the two failure paths, over any cycling of a job. */
module RetryBudget {
  import opened Domain
  import opened Orchestrator
  import opened Worker

  datatype Turn =
    | ServiceFailure(error: Option<string>, now: Time)
    | WorkerFailure(message: string, now: Time)
    | Requeue(now: Time)
    | Begin(now: Time)

  function TakeTurn(job: Job, turn: Turn): Job {
    match turn
    case ServiceFailure(error, now) => MoveJob(job, Failed, None, error, now)
    case WorkerFailure(message, now) => FailByWorker(job, message, now)
    case Requeue(now) => MoveJob(job, Pending, None, None, now)
    case Begin(now) => Worker.Start(job, now)
  }

  function Cycle(job: Job, turns: seq<Turn>): Job {
    if turns == [] then job else TakeTurn(Cycle(job, turns[..|turns| - 1]), turns[|turns| - 1])
  }

  /** Whether a turn is a failure of the job; the worker records one only while
      the job is running. */
  predicate Fails(job: Job, turn: Turn) {
    turn.ServiceFailure? || (turn.WorkerFailure? && job.status == Running)
  }

  function Failures(job: Job, turns: seq<Turn>): nat {
    if turns == [] then 0
    else
      var before := turns[..|turns| - 1];
      Failures(job, before) + if Fails(Cycle(job, before), turns[|turns| - 1]) then 1 else 0
  }

  function Min(a: nat, b: nat): nat {
    if a < b then a else b
  }

  /** However failures through the service and through the worker, requeues and
      runs are mixed, the retry count is the number of failures, capped. */
  lemma {:induction false} RetryCountIsCapped(job: Job, turns: seq<Turn>)
    requires job.retryCount == 0
    ensures Cycle(job, turns).maxRetries == job.maxRetries
    ensures Cycle(job, turns).retryCount == Min(Failures(job, turns), job.maxRetries)
  {
    if turns != [] {
      RetryCountIsCapped(job, turns[..|turns| - 1]);
    }
  }

  /** The failure that makes n: through the service the job is due at once if n
      is within the budget and never otherwise; through the worker it is due at
      once within the budget and keeps its old due time beyond it. */
  lemma DueAfterFailure(job: Job, turns: seq<Turn>, turn: Turn)
    requires job.retryCount == 0 && Fails(Cycle(job, turns), turn)
    ensures var before, after, n := Cycle(job, turns), Cycle(job, turns + [turn]), Failures(job, turns + [turn]);
            && n == Failures(job, turns) + 1
            && after.status == Failed
            && (n <= job.maxRetries ==> after.nextRunAt == Some(turn.now))
            && (turn.ServiceFailure? ==> (after.nextRunAt == None <==> n > job.maxRetries))
            && (turn.WorkerFailure? && n > job.maxRetries ==> after.nextRunAt == before.nextRunAt)
  {
    RetryCountIsCapped(job, turns);
    assert (turns + [turn])[..|turns|] == turns;
  }

  predicate DueBy(job: Job, now: Time) {
    job.nextRunAt.Some? ==> job.nextRunAt.value <= now
  }

  lemma {:induction false} StaysDue(job: Job, turns: seq<Turn>, now: Time)
    requires DueBy(job, now) && forall i :: 0 <= i < |turns| ==> turns[i].now <= now
    ensures DueBy(Cycle(job, turns), now)
  {
    if turns != [] {
      StaysDue(job, turns[..|turns| - 1], now);
    }
  }

  /** The budget limits no retry: whatever a job has been through, beyond its
      budget included, a retry makes it claimable at once, keeps its count of
      failures, and writes no other row. */
  lemma RetryIgnoresBudget(t: Tables, j: Id, newId: Id, job: Job, turns: seq<Turn>, now: Time)
    requires j in t.jobs && t.jobs[j] == Cycle(job, turns) && DueBy(job, now) && job.retryCount == 0
    requires forall i :: 0 <= i < |turns| ==> turns[i].now <= now
    ensures var after := RetryJob(t, j, newId, now).jobs;
            && Claimable(after[j], now) && after[j].retryCount == Min(Failures(job, turns), job.maxRetries)
            && after == t.jobs[j := after[j]]
  {
    StaysDue(job, turns, now);
    RetryCountIsCapped(job, turns);
  }
}
