/** Job creation, job transitions and pipeline chaining. */
module Orchestrator {
  import opened Domain
  import opened Keys
  import DB = Database

  const PIPELINE: seq<JobType> := [Transcribe, Summarize, ExtractArtifact]

  /** What a completed job makes next; publishing is never chained. */
  function PipelineNext(jobType: JobType): Option<JobType> {
    match jobType
    case Transcribe => Some(Summarize)
    case Summarize => Some(ExtractArtifact)
    case _ => None
  }

  /** The number of stages still to come, which every link of the pipeline lowers. */
  function Rank(jobType: JobType): nat {
    match jobType
    case Transcribe => 2
    case Summarize => 1
    case _ => 0
  }

  /** The stages reached from one stage by following the links. */
  function PipelineFrom(jobType: JobType): seq<JobType>
    decreases Rank(jobType)
  {
    match PipelineNext(jobType)
    case None => [jobType]
    case Some(next) => [jobType] + PipelineFrom(next)
  }

  lemma ChainIsPipeline()
    ensures PipelineFrom(Transcribe) == PIPELINE
  {
    assert PipelineFrom(ExtractArtifact) == [ExtractArtifact];
    assert PipelineFrom(Summarize) == [Summarize, ExtractArtifact];
  }

  // ---- Specifications over table values ----

  function StageJob(sid: Id, stage: JobType, now: Time): Job {
    NewJob(PipelineKey(sid, stage), sid, stage, NoInput, now)
  }

  /** The three stage jobs and their creation events, unless a key is taken. */
  function CreateJobs(t: Tables, sid: Id, ids: seq<Id>, now: Time): Reply
    requires |ids| == 3
  {
    if exists stage :: stage in PIPELINE && KeyTaken(t.jobs, PipelineKey(sid, stage)) then
      Raise(t, IntegrityError)
    else
      Ok(t.(jobs := t.jobs[ids[0] := StageJob(sid, Transcribe, now)]
                          [ids[1] := StageJob(sid, Summarize, now)]
                          [ids[2] := StageJob(sid, ExtractArtifact, now)],
            events := t.events + [JobCreated(ids[0]), JobCreated(ids[1]), JobCreated(ids[2])]))
  }

  /** A failure through the service: within the retry budget the job is due
      again at once, beyond it it is due never. */
  function FailByService(job: Job, error: Option<string>, now: Time): Job {
    var e := if error.Some? then error else job.error;
    if job.retryCount < job.maxRetries
    then job.(status := Failed, error := e, nextRunAt := Some(now), retryCount := job.retryCount + 1)
    else job.(status := Failed, error := e, nextRunAt := None)
  }

  function MoveJob(job: Job, to: JobStatus, output: Option<Payload>, error: Option<string>, now: Time): Job {
    match to
    case Pending => job.(status := Pending)
    case Running => job.(status := Running, startedAt := Some(now))
    case Completed =>
      job.(status := Completed, completedAt := Some(now),
           output := if output.Some? then output else job.output)
    case Failed => FailByService(job, error, now)
  }

  /** The next stage's job, made only when its key is free. */
  function EnsureNextJob(t: Tables, sid: Id, next: JobType, newId: Id, now: Time): Tables {
    if KeyTaken(t.jobs, PipelineKey(sid, next)) then t
    else t.(jobs := t.jobs[newId := StageJob(sid, next, now)], events := t.events + [JobCreated(newId)])
  }

  function TransitionJob(t: Tables, j: Id, to: JobStatus, output: Option<Payload>, error: Option<string>,
                         newId: Id, now: Time): Tables
    requires j in t.jobs
  {
    var job := t.jobs[j];
    var moved := t.(jobs := t.jobs[j := MoveJob(job, to, output, error, now)],
                    events := t.events + [JobMoved(j, job.status, to)]);
    match PipelineNext(job.jobType)
    case None => moved
    case Some(next) => if to == Completed then EnsureNextJob(moved, job.session, next, newId, now) else moved
  }

  function RetryJob(t: Tables, j: Id, newId: Id, now: Time): Tables
    requires j in t.jobs
  {
    TransitionJob(t, j, Pending, None, None, newId, now)
  }

  // ---- The service ----

  method CreateJobsForSession(db: DB.Database, sid: Id, ids: seq<Id>, now: Time) returns (ok: bool)
    requires |ids| == 3
    modifies db`jobs, db`events
    ensures ok == CreateJobs(old(db.View()), sid, ids, now).Ok?
    ensures db.View() == CreateJobs(old(db.View()), sid, ids, now).t
  {
    var rows: seq<Job> := [];
    for i := 0 to 3
      invariant |rows| == i
      invariant forall k :: 0 <= k < i ==> rows[k] == StageJob(sid, PIPELINE[k], now)
    {
      rows := rows + [NewJob(PipelineKey(sid, PIPELINE[i]), sid, PIPELINE[i], NoInput, now)];
    }
    // The flush inserts the batch in one statement, under the unique key constraint.
    if exists row :: row in rows && KeyTaken(db.jobs, row.key) {
      assert forall row :: row in rows ==> row.jobType in PIPELINE && row.key == PipelineKey(sid, row.jobType);
      return false;
    }
    assert forall stage :: stage in PIPELINE ==> StageJob(sid, stage, now) in rows;
    db.jobs := db.jobs[ids[0] := rows[0]][ids[1] := rows[1]][ids[2] := rows[2]];
    ghost var inserted, logged := db.jobs, db.events;
    ghost var created := [JobCreated(ids[0]), JobCreated(ids[1]), JobCreated(ids[2])];
    for i := 0 to 3
      invariant db.events == logged + created[..i] && db.jobs == inserted
    {
      db.events := db.events + [JobCreated(ids[i])];
    }
    assert created[..3] == created;
    ok := true;
  }

  method Transition(db: DB.Database, j: Id, to: JobStatus, output: Option<Payload>, error: Option<string>,
                    newId: Id, now: Time)
    requires j in db.jobs
    modifies db`jobs, db`events
    ensures db.View() == TransitionJob(old(db.View()), j, to, output, error, newId, now)
  {
    var job := db.jobs[j];
    var oldStatus := job.status;
    job := job.(status := to);
    if to == Running {
      job := job.(startedAt := Some(now));
    } else if to == Completed {
      job := job.(completedAt := Some(now));
      if output.Some? {
        job := job.(output := output);
      }
    } else if to == Failed {
      if error.Some? {
        job := job.(error := error);
      }
      if job.retryCount < job.maxRetries {
        job := job.(nextRunAt := Some(now), retryCount := job.retryCount + 1);
      } else {
        job := job.(nextRunAt := None);
      }
    }
    db.jobs := db.jobs[j := job];
    db.events := db.events + [JobMoved(j, oldStatus, to)];
    if to == Completed {
      var next := PipelineNext(job.jobType);
      if next.Some? {
        EnsureNext(db, job.session, next.value, newId, now);
      }
    }
  }

  method EnsureNext(db: DB.Database, sid: Id, next: JobType, newId: Id, now: Time)
    modifies db`jobs, db`events
    ensures db.View() == EnsureNextJob(old(db.View()), sid, next, newId, now)
  {
    if !KeyTaken(db.jobs, PipelineKey(sid, next)) {
      db.jobs := db.jobs[newId := NewJob(PipelineKey(sid, next), sid, next, NoInput, now)];
      db.events := db.events + [JobCreated(newId)];
    }
  }

  method Retry(db: DB.Database, j: Id, newId: Id, now: Time)
    requires j in db.jobs
    modifies db`jobs, db`events
    ensures db.View() == RetryJob(old(db.View()), j, newId, now)
  {
    Transition(db, j, Pending, None, None, newId, now);
  }
}
