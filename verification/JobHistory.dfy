/** What any sequence of orchestrator calls leaves behind: an event log that
    replays to the job table, and a pipeline that is never duplicated. */
module JobHistory {
  import opened Domain
  import opened Orchestrator

  datatype Call =
    | CreateCall(sid: Id, ids: seq<Id>, now: Time)
    | MoveCall(j: Id, to: JobStatus, output: Option<Payload>, error: Option<string>, newId: Id, now: Time)
    | RetryCall(j: Id, newId: Id, now: Time)

  /** The rows a call names exist, and the identifiers it draws are new. */
  predicate Callable(t: Tables, c: Call) {
    match c
    case CreateCall(_, ids, _) =>
      && |ids| == 3 && ids[0] != ids[1] && ids[0] != ids[2] && ids[1] != ids[2]
      && ids[0] !in t.jobs && ids[1] !in t.jobs && ids[2] !in t.jobs
    case MoveCall(j, _, _, _, newId, _) => j in t.jobs && newId !in t.jobs
    case RetryCall(j, newId, _) => j in t.jobs && newId !in t.jobs
  }

  function Perform(t: Tables, c: Call): Tables
    requires Callable(t, c)
  {
    match c
    case CreateCall(sid, ids, now) => Settle(t, CreateJobs(t, sid, ids, now))
    case MoveCall(j, to, output, error, newId, now) => TransitionJob(t, j, to, output, error, newId, now)
    case RetryCall(j, newId, now) => RetryJob(t, j, newId, now)
  }

  predicate AllCallable(t: Tables, calls: seq<Call>)
    decreases |calls|
  {
    calls == [] || (Callable(t, calls[0]) && AllCallable(Perform(t, calls[0]), calls[1..]))
  }

  function RunCalls(t: Tables, calls: seq<Call>): Tables
    requires AllCallable(t, calls)
    decreases |calls|
  {
    if calls == [] then t else RunCalls(Perform(t, calls[0]), calls[1..])
  }

  // ---- Event log replay ----

  /** The status of a job as its events tell it. */
  function Replay(events: seq<Event>, j: Id): Option<JobStatus> {
    if events == [] then None
    else
      var rest, last := events[..|events| - 1], events[|events| - 1];
      match last
      case JobCreated(k) => if k == j then Some(Pending) else Replay(rest, j)
      case JobMoved(k, _, to) => if k == j then Some(to) else Replay(rest, j)
      case _ => Replay(rest, j)
  }

  /** A job is created once, and each move starts where the one before ended. */
  predicate Chained(events: seq<Event>, j: Id) {
    events == [] ||
    var rest, last := events[..|events| - 1], events[|events| - 1];
    && Chained(rest, j)
    && match last
       case JobCreated(k) => k == j ==> Replay(rest, j) == None
       case JobMoved(k, from, _) => k == j ==> Replay(rest, j) == Some(from)
       case _ => true
  }

  ghost predicate LogFaithful(t: Tables) {
    && (forall j: Id :: Chained(t.events, j))
    && (forall j: Id :: Replay(t.events, j) == if j in t.jobs then Some(t.jobs[j].status) else None)
  }

  lemma AppendCreated(events: seq<Event>, k: Id, j: Id)
    requires Chained(events, j) && (k == j ==> Replay(events, j) == None)
    ensures Chained(events + [JobCreated(k)], j)
    ensures Replay(events + [JobCreated(k)], j) == if k == j then Some(Pending) else Replay(events, j)
  {
    assert (events + [JobCreated(k)])[..|events|] == events;
  }

  lemma AppendMoved(events: seq<Event>, k: Id, from: JobStatus, to: JobStatus, j: Id)
    requires Chained(events, j) && (k == j ==> Replay(events, j) == Some(from))
    ensures Chained(events + [JobMoved(k, from, to)], j)
    ensures Replay(events + [JobMoved(k, from, to)], j) == if k == j then Some(to) else Replay(events, j)
  {
    assert (events + [JobMoved(k, from, to)])[..|events|] == events;
  }

  lemma EnsureKeepsLog(t: Tables, sid: Id, next: JobType, newId: Id, now: Time)
    requires LogFaithful(t) && newId !in t.jobs
    ensures LogFaithful(EnsureNextJob(t, sid, next, newId, now))
  {
    forall j: Id
      ensures Chained(t.events + [JobCreated(newId)], j)
      ensures Replay(t.events + [JobCreated(newId)], j) == if j == newId then Some(Pending) else Replay(t.events, j)
    {
      AppendCreated(t.events, newId, j);
    }
  }

  lemma MoveKeepsLog(t: Tables, j: Id, to: JobStatus, output: Option<Payload>, error: Option<string>,
                     newId: Id, now: Time)
    requires LogFaithful(t) && j in t.jobs && newId !in t.jobs
    ensures LogFaithful(TransitionJob(t, j, to, output, error, newId, now))
  {
    var job := t.jobs[j];
    var moved := t.(jobs := t.jobs[j := MoveJob(job, to, output, error, now)],
                    events := t.events + [JobMoved(j, job.status, to)]);
    forall k: Id
      ensures Chained(moved.events, k)
      ensures Replay(moved.events, k) == if k == j then Some(to) else Replay(t.events, k)
    {
      AppendMoved(t.events, j, job.status, to, k);
    }
    assert LogFaithful(moved);
    var next := PipelineNext(job.jobType);
    if next.Some? {
      EnsureKeepsLog(moved, job.session, next.value, newId, now);
    }
  }

  lemma AppendThree(events: seq<Event>, ids: seq<Id>, j: Id)
    requires |ids| == 3 && ids[0] != ids[1] && ids[0] != ids[2] && ids[1] != ids[2]
    requires Chained(events, j) && (j in ids ==> Replay(events, j) == None)
    ensures var after := events + [JobCreated(ids[0]), JobCreated(ids[1]), JobCreated(ids[2])];
            && Chained(after, j)
            && Replay(after, j) == if j in ids then Some(Pending) else Replay(events, j)
  {
    var e1 := events + [JobCreated(ids[0])];
    var e2 := e1 + [JobCreated(ids[1])];
    AppendCreated(events, ids[0], j);
    AppendCreated(e1, ids[1], j);
    AppendCreated(e2, ids[2], j);
    assert e2 + [JobCreated(ids[2])] == events + [JobCreated(ids[0]), JobCreated(ids[1]), JobCreated(ids[2])];
  }

  lemma CreateKeepsLog(t: Tables, sid: Id, ids: seq<Id>, now: Time)
    requires LogFaithful(t) && Callable(t, CreateCall(sid, ids, now))
    ensures LogFaithful(Settle(t, CreateJobs(t, sid, ids, now)))
  {
    var after := t.events + [JobCreated(ids[0]), JobCreated(ids[1]), JobCreated(ids[2])];
    forall j: Id
      ensures Chained(after, j)
      ensures Replay(after, j) == if j in ids then Some(Pending) else Replay(t.events, j)
    {
      AppendThree(t.events, ids, j);
    }
  }

  /** After every sequence of service calls each job's events form a chain, and
      replaying them gives the status in the job table. */
  lemma {:induction false} LogReplaysToStatus(t: Tables, calls: seq<Call>)
    requires LogFaithful(t) && AllCallable(t, calls)
    ensures LogFaithful(RunCalls(t, calls))
    decreases |calls|
  {
    if calls != [] {
      match calls[0] {
        case CreateCall(sid, ids, now) => CreateKeepsLog(t, sid, ids, now);
        case MoveCall(j, to, output, error, newId, now) => MoveKeepsLog(t, j, to, output, error, newId, now);
        case RetryCall(j, newId, now) => MoveKeepsLog(t, j, Pending, None, None, newId, now);
      }
      LogReplaysToStatus(Perform(t, calls[0]), calls[1..]);
    }
  }

  // ---- Eager and chained creation ----

  predicate HasStage(t: Tables, sid: Id, stage: JobType) {
    KeyTaken(t.jobs, PipelineKey(sid, stage))
  }

  predicate PipelineComplete(t: Tables, sid: Id) {
    forall stage | stage in PIPELINE :: HasStage(t, sid, stage)
  }

  function SessionJobs(t: Tables, sid: Id): set<Id> {
    set j | j in t.jobs && t.jobs[j].session == sid
  }

  /** The log shows a completion of the job. */
  predicate CompletedOnce(events: seq<Event>, j: Id) {
    exists i :: 0 <= i < |events| && events[i].JobMoved? && events[i].job == j && events[i].to == Completed
  }

  /** Some job of the stage has been completed for the session. */
  predicate StageCompleted(t: Tables, sid: Id, stage: JobType) {
    exists j :: j in t.jobs && t.jobs[j].session == sid && t.jobs[j].jobType == stage && CompletedOnce(t.events, j)
  }

  /** The pipeline of a session reaches exactly one stage past its completions. */
  predicate ChainGrown(t: Tables, sid: Id) {
    && HasStage(t, sid, Transcribe)
    && (HasStage(t, sid, Summarize) <==> StageCompleted(t, sid, Transcribe))
    && (HasStage(t, sid, ExtractArtifact) <==> StageCompleted(t, sid, Summarize))
  }

  /** Every row keeps its identity. */
  predicate RowsKept(jobs: map<Id, Job>, after: map<Id, Job>) {
    forall j :: j in jobs ==>
      j in after && after[j].key == jobs[j].key && after[j].session == jobs[j].session
        && after[j].jobType == jobs[j].jobType
  }

  lemma TransitionKeepsRows(t: Tables, j: Id, to: JobStatus, output: Option<Payload>, error: Option<string>,
                            newId: Id, now: Time)
    requires j in t.jobs && newId !in t.jobs
    ensures RowsKept(t.jobs, TransitionJob(t, j, to, output, error, newId, now).jobs)
  {
  }

  /** A call leaves the identity of every job alone. */
  lemma PerformKeepsRows(t: Tables, c: Call)
    requires Callable(t, c)
    ensures RowsKept(t.jobs, Perform(t, c).jobs)
  {
    match c
    case CreateCall(_, _, _) =>
    case MoveCall(j, to, output, error, newId, now) => TransitionKeepsRows(t, j, to, output, error, newId, now);
    case RetryCall(j, newId, now) => TransitionKeepsRows(t, j, Pending, None, None, newId, now);
  }

  /** The log only grows, and its new entries show a completion exactly when
      the call completes a job. */
  lemma PerformExtendsLog(t: Tables, c: Call)
    requires Callable(t, c)
    ensures var before, after := t.events, Perform(t, c).events;
            && before <= after
            && (forall i :: |before| <= i < |after| && after[i].JobMoved? && after[i].to == Completed ==>
                  Completes(t, c) == Some(after[i].job))
            && (Completes(t, c).Some? ==>
                  |before| < |after| && after[|before|] == JobMoved(c.j, t.jobs[c.j].status, Completed))
  {
    var after := Perform(t, c).events;
    match c
    case CreateCall(_, ids, _) =>
    case MoveCall(j, to, _, _, newId, _) =>
      var logged := t.events + [JobMoved(j, t.jobs[j].status, to)];
      assert after == logged || after == logged + [JobCreated(newId)];
    case RetryCall(j, _, _) =>
      assert after == t.events + [JobMoved(j, t.jobs[j].status, Pending)];
  }

  lemma PerformKeepsStages(t: Tables, c: Call, sid: Id, stage: JobType)
    requires Callable(t, c)
    ensures HasStage(t, sid, stage) ==> HasStage(Perform(t, c), sid, stage)
    ensures StageCompleted(t, sid, stage) ==> StageCompleted(Perform(t, c), sid, stage)
  {
    PerformKeepsRows(t, c);
    PerformExtendsLog(t, c);
    var after := Perform(t, c);
    if HasStage(t, sid, stage) {
      var j :| j in t.jobs && t.jobs[j].key == PipelineKey(sid, stage);
      assert j in after.jobs && after.jobs[j].key == PipelineKey(sid, stage);
    }
    if StageCompleted(t, sid, stage) {
      var j :| j in t.jobs && t.jobs[j].session == sid && t.jobs[j].jobType == stage && CompletedOnce(t.events, j);
      var i :| 0 <= i < |t.events| && t.events[i].JobMoved? && t.events[i].job == j && t.events[i].to == Completed;
      assert after.events[i] == t.events[i];
      assert CompletedOnce(after.events, j) && j in after.jobs;
    }
  }

  /** The job a call completes, if any. */
  function Completes(t: Tables, c: Call): Option<Id>
    requires Callable(t, c)
  {
    if c.MoveCall? && c.to == Completed then Some(c.j) else None
  }

  /** A completion makes the next stage; nothing else makes a stage of a
      session whose first stage exists. */
  lemma PerformStage(t: Tables, c: Call, sid: Id, stage: JobType, next: JobType)
    requires Callable(t, c) && HasStage(t, sid, Transcribe) && PipelineNext(stage) == Some(next)
    ensures HasStage(Perform(t, c), sid, next) <==>
            HasStage(t, sid, next) ||
            (Completes(t, c).Some? && t.jobs[c.j].session == sid && t.jobs[c.j].jobType == stage)
  {
    PerformKeepsStages(t, c, sid, next);
    var after := Perform(t, c);
    if Completes(t, c).Some? && t.jobs[c.j].session == sid && t.jobs[c.j].jobType == stage {
      CompletionMakesNext(t, c, next);
    } else if HasStage(after, sid, next) {
      NewStageIsCompletion(t, c, sid, next);
    }
  }

  lemma CompletionMakesNext(t: Tables, c: Call, next: JobType)
    requires Callable(t, c) && Completes(t, c).Some? && PipelineNext(t.jobs[c.j].jobType) == Some(next)
    ensures HasStage(Perform(t, c), t.jobs[c.j].session, next)
  {
    var sid := t.jobs[c.j].session;
    var moved := t.jobs[c.j := MoveJob(t.jobs[c.j], c.to, c.output, c.error, c.now)];
    if !KeyTaken(moved, PipelineKey(sid, next)) {
      assert Perform(t, c).jobs[c.newId].key == PipelineKey(sid, next);
    }
  }

  lemma NewStageIsCompletion(t: Tables, c: Call, sid: Id, next: JobType)
    requires Callable(t, c) && HasStage(t, sid, Transcribe) && next != Transcribe
    requires HasStage(Perform(t, c), sid, next)
    ensures HasStage(t, sid, next) ||
            (Completes(t, c).Some? && t.jobs[c.j].session == sid && PipelineNext(t.jobs[c.j].jobType) == Some(next))
  {
    var after := Perform(t, c);
    var k :| k in after.jobs && after.jobs[k].key == PipelineKey(sid, next);
    if c.CreateCall? && c.sid == sid {
      assert KeyTaken(t.jobs, PipelineKey(sid, PIPELINE[0]));
    }
    if k in t.jobs {
      assert t.jobs[k].key == PipelineKey(sid, next);
    }
  }

  lemma PerformCompletion(t: Tables, c: Call, sid: Id, stage: JobType)
    requires LogFaithful(t) && Callable(t, c)
    ensures StageCompleted(Perform(t, c), sid, stage) <==>
            StageCompleted(t, sid, stage) ||
            (Completes(t, c).Some? && t.jobs[c.j].session == sid && t.jobs[c.j].jobType == stage)
  {
    PerformKeepsStages(t, c, sid, stage);
    PerformKeepsRows(t, c);
    PerformExtendsLog(t, c);
    var after := Perform(t, c);
    if Completes(t, c).Some? && t.jobs[c.j].session == sid && t.jobs[c.j].jobType == stage {
      assert CompletedOnce(after.events, c.j);
    }
    if StageCompleted(after, sid, stage) {
      var j :| j in after.jobs && after.jobs[j].session == sid && after.jobs[j].jobType == stage
        && CompletedOnce(after.events, j);
      OldCompletion(t, c, j);
    }
  }

  lemma OldCompletion(t: Tables, c: Call, j: Id)
    requires LogFaithful(t) && Callable(t, c) && CompletedOnce(Perform(t, c).events, j)
    ensures Completes(t, c) == Some(j) || (j in t.jobs && CompletedOnce(t.events, j))
  {
    PerformExtendsLog(t, c);
    var after := Perform(t, c).events;
    var i :| 0 <= i < |after| && after[i].JobMoved? && after[i].job == j && after[i].to == Completed;
    if i < |t.events| {
      assert t.events[i] == after[i];
      MovedJobsReplay(t.events, i);
    }
  }

  /** The log only mentions jobs it replays to a status. */
  lemma {:induction false} MovedJobsReplay(events: seq<Event>, i: nat)
    requires i < |events| && events[i].JobMoved?
    ensures Replay(events, events[i].job).Some?
  {
    if i < |events| - 1 {
      MovedJobsReplay(events[..|events| - 1], i);
    }
  }

  /** Chained creation, over every sequence of calls: starting from the first
      stage alone, the stages present are those of eager creation cut off one
      past the last completion. */
  lemma {:induction false} ChainFollowsCompletions(t: Tables, calls: seq<Call>, sid: Id)
    requires LogFaithful(t) && ChainGrown(t, sid) && AllCallable(t, calls)
    ensures ChainGrown(RunCalls(t, calls), sid)
    decreases |calls|
  {
    if calls != [] {
      var c := calls[0];
      PerformStage(t, c, sid, Transcribe, Summarize);
      PerformStage(t, c, sid, Summarize, ExtractArtifact);
      PerformCompletion(t, c, sid, Transcribe);
      PerformCompletion(t, c, sid, Summarize);
      PerformKeepsStages(t, c, sid, Transcribe);
      assert RunCalls(t, calls[..1]) == Perform(t, c) by {
        assert calls[..1][1..] == [] && calls[..1][0] == c;
      }
      LogReplaysToStatus(t, calls[..1]);
      ChainFollowsCompletions(Perform(t, c), calls[1..], sid);
    }
  }

  /** Once both links have been completed the chained pipeline is the eager one. */
  lemma EagerEqualsChained(t: Tables, calls: seq<Call>, sid: Id)
    requires LogFaithful(t) && ChainGrown(t, sid) && AllCallable(t, calls)
    ensures var end := RunCalls(t, calls);
            PipelineComplete(end, sid) <==>
            StageCompleted(end, sid, Transcribe) && StageCompleted(end, sid, Summarize)
  {
    ChainFollowsCompletions(t, calls, sid);
    assert PIPELINE[0] == Transcribe && PIPELINE[1] == Summarize && PIPELINE[2] == ExtractArtifact;
  }

  /** One row per key. */
  predicate UniqueKeys(jobs: map<Id, Job>) {
    forall i, k :: i in jobs && k in jobs && jobs[i].key == jobs[k].key ==> i == k
  }

  /** Ensuring the next stage is idempotent: afterwards exactly one row has its
      key, and ensuring it again, at any time and with any id, changes nothing. */
  lemma EnsureIsIdempotent(t: Tables, sid: Id, next: JobType, newId: Id, now: Time, newId': Id, now': Time)
    requires UniqueKeys(t.jobs) && newId !in t.jobs
    ensures var after := EnsureNextJob(t, sid, next, newId, now);
            && UniqueKeys(after.jobs) && HasStage(after, sid, next)
            && EnsureNextJob(after, sid, next, newId', now') == after
            && (HasStage(t, sid, next) ==> after == t)
  {
    var after := EnsureNextJob(t, sid, next, newId, now);
    if !HasStage(t, sid, next) {
      assert after.jobs[newId].key == PipelineKey(sid, next);
    }
  }

  lemma EagerIsComplete(t: Tables, sid: Id, ids: seq<Id>, now: Time)
    requires Callable(t, CreateCall(sid, ids, now))
    ensures PipelineComplete(Settle(t, CreateJobs(t, sid, ids, now)), sid) <==>
            CreateJobs(t, sid, ids, now).Ok? || PipelineComplete(t, sid)
  {
    var r := CreateJobs(t, sid, ids, now);
    if r.Ok? {
      assert r.t.jobs[ids[0]].key == PipelineKey(sid, Transcribe);
      assert r.t.jobs[ids[1]].key == PipelineKey(sid, Summarize);
      assert r.t.jobs[ids[2]].key == PipelineKey(sid, ExtractArtifact);
    }
  }

  /** A complete pipeline, however it was made, never gains a job: no call
      adds or duplicates one. */
  lemma {:induction false} CompletePipelineIsStable(t: Tables, calls: seq<Call>, sid: Id)
    requires PipelineComplete(t, sid) && AllCallable(t, calls)
    ensures PipelineComplete(RunCalls(t, calls), sid)
    ensures SessionJobs(RunCalls(t, calls), sid) == SessionJobs(t, sid)
    decreases |calls|
  {
    if calls != [] {
      var c := calls[0];
      var after := Perform(t, c);
      PerformKeepsRows(t, c);
      forall stage | stage in PIPELINE
        ensures HasStage(after, sid, stage)
      {
        PerformKeepsStages(t, c, sid, stage);
      }
      assert SessionJobs(after, sid) == SessionJobs(t, sid) by {
        CompleteMeansNoNewRow(t, c, sid);
      }
      CompletePipelineIsStable(after, calls[1..], sid);
    }
  }

  lemma CompleteMeansNoNewRow(t: Tables, c: Call, sid: Id)
    requires PipelineComplete(t, sid) && Callable(t, c)
    ensures forall j :: j in Perform(t, c).jobs && j !in t.jobs ==> Perform(t, c).jobs[j].session != sid
  {
    assert PIPELINE[0] == Transcribe && PIPELINE[1] == Summarize && PIPELINE[2] == ExtractArtifact;
    assert HasStage(t, sid, Transcribe) && HasStage(t, sid, Summarize) && HasStage(t, sid, ExtractArtifact);
    if c.MoveCall? {
      var next := PipelineNext(t.jobs[c.j].jobType);
      if next.Some? && t.jobs[c.j].session == sid {
        var moved := t.jobs[c.j := MoveJob(t.jobs[c.j], c.to, c.output, c.error, c.now)];
        assert HasStage(t, sid, next.value);
        var k :| k in t.jobs && t.jobs[k].key == PipelineKey(sid, next.value);
        assert k in moved && moved[k].key == PipelineKey(sid, next.value);
      }
    }
  }
}
