/** What each step of the engine does to one job row, and where new job rows
    come from. */
module JobRows {
  import opened Domain
  import opened StateMachine
  import opened Orchestrator
  import opened SessionApi
  import opened ArtifactService
  import opened Agents
  import opened Worker
  import opened System
  import opened SystemInvariant

  /** The step ends an execution of the job. */
  predicate EndsJob(w: World, st: Step, j: Id) {
    Enabled(w, st) && st.FinishStep? && w.executors[st.w] == j
  }

  /** The step ends an execution of the job whose handler returns. */
  predicate Returns(w: World, st: Step, j: Id) {
    && EndsJob(w, st, j) && Registered(w.t.jobs[j].jobType)
    && Handle(w.t, j, st.e.provider, st.e.artifact, w.now).Ok?
  }

  function Unstuck(job: Job, now: Time): Job {
    if TimedOut(job, now) then Freed(job) else job
  }

  /** The row a returning handler leaves. */
  function Finished(t: Tables, j: Id, e: Surroundings, now: Time): Job
    requires j in t.jobs
  {
    t.jobs[j].(status := Completed, output := Execute(t, j, e, now).committed.jobs[j].output)
  }

  function EndRow(w: World, st: Step, j: Id): Job
    requires j in w.t.jobs && EndsJob(w, st, j)
  {
    if Returns(w, st, j) then Finished(w.t, j, st.e, w.now) else FailByWorker(w.t.jobs[j], st.e.message, w.now)
  }

  /** The row after the step, stated by the kind of step alone. */
  function RowAfter(w: World, st: Step, j: Id): Job
    requires j in w.t.jobs
  {
    var row := w.t.jobs[j];
    if !Enabled(w, st) then row else
    match st
    case ClaimStep(_, k) => if k == j then Worker.Start(Unstuck(row, w.now), w.now) else Unstuck(row, w.now)
    case HeartbeatStep(k) => if k == j then Beat(row, w.now) else row
    case RetryStep(k, _) => if k == j then row.(status := Pending) else row
    case FinishStep(x, _, _) => if w.executors[x] == j then EndRow(w, st, j) else row
    case DeletionStep(idle, half) => if idle && !half.outcome.Died? then Unstuck(row, w.now) else row
    case _ => row
  }

  lemma ExecuteRows(t: Tables, j: Id, e: Surroundings, now: Time, i: Id)
    requires j in t.jobs && Registered(t.jobs[j].jobType) && i in t.jobs
    ensures var x := Execute(t, j, e, now);
            && x.committed.jobs.Keys == t.jobs.Keys && x.pending.jobs == x.committed.jobs
            && x.committed.jobs[i] ==
                 if i != j then t.jobs[i]
                 else if Handle(t, j, e.provider, e.artifact, now).Ok? then Finished(t, j, e, now)
                 else FailByWorker(t.jobs[j], e.message, now)
  {
    RaisingHandlerFlushes(t, j, e.provider, e.artifact, now);
  }

  lemma FinishRow(w: World, st: Step, j: Id)
    requires KeysOk(w.t.jobs) && Enabled(w, st) && st.FinishStep? && j in w.t.jobs
    ensures Apply(w, st).t.jobs.Keys == w.t.jobs.Keys && Apply(w, st).t.jobs[j] == RowAfter(w, st, j)
  {
    assert KeyFits(w.t.jobs[w.executors[st.w]]);
    ExecuteRows(w.t, w.executors[st.w], st.e, w.now, j);
  }


  lemma StatusRow(t: Tables, sid: Id, user: Id, target: Option<SessionStatus>, ids: seq<Id>, now: Time, j: Id)
    requires FreshIds(t.jobs, ids) && j in t.jobs
    ensures var after := Settle(t, UpdateStatus(t, sid, user, target, ids, now)).jobs;
            j in after && after[j] == t.jobs[j]
  {
  }

  lemma ReviewRow(t: Tables, aid: Id, approve: bool, user: Id, comment: string, newId: Id, suffix: string, now: Time,
                  j: Id)
    requires newId !in t.jobs && j in t.jobs
    ensures var after := Settle(t, ReviewEndpoint(t, aid, approve, user, comment, newId, suffix, now)).jobs;
            j in after && after[j] == t.jobs[j]
  {
  }

  lemma WorkerRow(w: World, st: Step, j: Id)
    requires Enabled(w, st) && j in w.t.jobs
    requires st.ClaimStep? || st.HeartbeatStep? || st.RetryStep? || st.DeletionStep?
    ensures j in Apply(w, st).t.jobs && Apply(w, st).t.jobs[j] == RowAfter(w, st, j)
  {
  }

  lemma RequestRow(w: World, st: Step, j: Id)
    requires Enabled(w, st) && j in w.t.jobs
    requires st.Tick? || st.CreateStep? || st.ConsentStep? || st.UploadStep? || st.CancelStep? || st.RetractStep?
          || st.PublishStep? || st.CrashStep?
    ensures j in Apply(w, st).t.jobs && Apply(w, st).t.jobs[j] == RowAfter(w, st, j)
  {
  }

  /** Every step rewrites a job row exactly so. */
  lemma RowStep(w: World, st: Step, j: Id)
    requires KeysOk(w.t.jobs) && j in w.t.jobs
    ensures j in Apply(w, st).t.jobs && Apply(w, st).t.jobs[j] == RowAfter(w, st, j)
  {
    if Enabled(w, st) {
      match st
      case FinishStep(_, _, _) => FinishRow(w, st, j);
      case StatusStep(sid, user, target, ids) => StatusRow(w.t, sid, user, target, ids, w.now, j);
      case ReviewStep(aid, approve, user, comment, newId, suffix) =>
        ReviewRow(w.t, aid, approve, user, comment, newId, suffix, w.now, j);
      case ClaimStep(_, _) => WorkerRow(w, st, j);
      case HeartbeatStep(_) => WorkerRow(w, st, j);
      case RetryStep(_, _) => WorkerRow(w, st, j);
      case DeletionStep(_, _) => WorkerRow(w, st, j);
      case _ => RequestRow(w, st, j);
    }
  }

  // ---- New rows ----

  /** The step is an accepted entry into processing. */
  predicate Starts(w: World, st: Step, sid: Id) {
    && Enabled(w, st) && st.StatusStep? && st.sid == sid && st.target == Some(Processing)
    && UpdateStatus(w.t, sid, st.user, st.target, st.ids, w.now).Ok?
  }

  /** The step rejects an artifact of the session. */
  predicate Rejects(w: World, st: Step, sid: Id) {
    && Enabled(w, st) && st.ReviewStep? && !st.approve
    && st.aid in w.t.artifacts && w.t.artifacts[st.aid].session == sid
  }

  predicate IsNew(job: Job) {
    job.status == Pending && job.nextRunAt == None && job.startedAt == None
  }

  lemma StatusNewRow(w: World, st: Step, j: Id)
    requires Enabled(w, st) && st.StatusStep? && j in Apply(w, st).t.jobs && j !in w.t.jobs
    ensures var row := Apply(w, st).t.jobs[j]; IsNew(row) && Starts(w, st, row.session)
  {
  }

  lemma ReviewNewRow(w: World, st: Step, j: Id)
    requires Enabled(w, st) && st.ReviewStep? && j in Apply(w, st).t.jobs && j !in w.t.jobs
    ensures var row := Apply(w, st).t.jobs[j]; IsNew(row) && Rejects(w, st, row.session)
  {
  }

  lemma OtherNewRow(w: World, st: Step, j: Id)
    requires KeysOk(w.t.jobs) && Enabled(w, st) && !st.StatusStep? && !st.ReviewStep?
    requires j in Apply(w, st).t.jobs && j !in w.t.jobs
    ensures var row := Apply(w, st).t.jobs[j]; IsNew(row) && row.jobType == Publish && st.PublishStep?
  {
    if st.FinishStep? {
      FinishRow(w, st, w.executors[st.w]);
    }
  }

  /** A new row is pending, and comes from an accepted entry into processing,
      the rejection of an artifact of its session, or a publish request. */
  lemma NewRow(w: World, st: Step, j: Id)
    requires KeysOk(w.t.jobs) && j in Apply(w, st).t.jobs && j !in w.t.jobs
    ensures var row := Apply(w, st).t.jobs[j];
            && IsNew(row)
            && (Starts(w, st, row.session) || Rejects(w, st, row.session)
                || (row.jobType == Publish && st.PublishStep?))
  {
    if st.StatusStep? {
      StatusNewRow(w, st, j);
    } else if st.ReviewStep? {
      ReviewNewRow(w, st, j);
    } else {
      OtherNewRow(w, st, j);
    }
  }

  // ---- Failed rows ----

  /** A failed job waits: whatever due time it carries, a step takes it out of
      failed exactly when it is a retry of it, or the end of an execution of it
      that still went on and whose handler returns. */
  lemma FailedUntilRetried(w: World, st: Step, j: Id)
    requires KeysOk(w.t.jobs) && j in w.t.jobs && w.t.jobs[j].status == Failed
    ensures j in Apply(w, st).t.jobs
    ensures Apply(w, st).t.jobs[j].status != Failed <==>
            (Enabled(w, st) && st.RetryStep? && st.j == j) || Returns(w, st, j)
  {
    RowStep(w, st, j);
  }

  // ---- Rows nobody can run ----

  predicate Held(w: World, j: Id) {
    exists x :: x in w.executors && w.executors[x] == j
  }

  /** The job can still be, or is being, executed. */
  predicate Live(w: World, j: Id)
    requires j in w.t.jobs
  {
    w.t.jobs[j].status != Completed || Held(w, j)
  }

  lemma StaysUnheld(w: World, st: Step, j: Id)
    requires !Held(w, j) && !(Enabled(w, st) && st.ClaimStep? && st.j == j)
    ensures !Held(Apply(w, st), j)
  {
    var after := Apply(w, st);
    forall x | x in after.executors
      ensures after.executors[x] != j
    {
      assert x in w.executors ==> w.executors[x] != j;
    }
  }

  /** A completed job nobody executes stays as it is. */
  lemma Frozen(w: World, st: Step, j: Id)
    requires KeysOk(w.t.jobs) && j in w.t.jobs && !Live(w, j)
    ensures j in Apply(w, st).t.jobs && Apply(w, st).t.jobs[j] == w.t.jobs[j] && !Live(Apply(w, st), j)
  {
    RowStep(w, st, j);
    assert Enabled(w, st) && st.ClaimStep? ==> st.j != j;
    assert EndsJob(w, st, j) ==> Held(w, j);
    StaysUnheld(w, st, j);
  }

  // ---- Running rows carry a time stamp ----

  predicate Stamped(jobs: map<Id, Job>) {
    forall j :: j in jobs && jobs[j].status == Running ==> jobs[j].startedAt.Some?
  }

  lemma StampedStep(w: World, st: Step)
    requires KeysOk(w.t.jobs) && Stamped(w.t.jobs)
    ensures Stamped(Apply(w, st).t.jobs)
  {
    var after := Apply(w, st).t.jobs;
    forall j | j in after && after[j].status == Running
      ensures after[j].startedAt.Some?
    {
      if j in w.t.jobs {
        RowStep(w, st, j);
      } else {
        NewRow(w, st, j);
      }
    }
  }

  // ---- Entering retracted ----

  lemma TransitionAvoids(t: Tables, other: Id, target: SessionStatus, sid: Id)
    requires target != Retracted && sid in t.sessions && t.sessions[sid].status != Retracted
    ensures var after := TransitionSession(t, other, target).t.sessions; sid in after && after[sid].status != Retracted
  {
  }

  lemma ReviewAvoids(t: Tables, aid: Id, approve: bool, user: Id, comment: string, newId: Id, suffix: string, now: Time,
                     sid: Id)
    requires sid in t.sessions && t.sessions[sid].status != Retracted
    ensures var after := Settle(t, ReviewEndpoint(t, aid, approve, user, comment, newId, suffix, now)).sessions;
            sid in after && after[sid].status != Retracted
  {
    if aid in t.artifacts && approve {
      var reviewed, other := Reviewed(t, aid, ArtifactApproved, user, comment), t.artifacts[aid].session;
      TransitionAvoids(reviewed, other, Reviewing, sid);
      TransitionAvoids(reviewed, other, SessionStatus.Approved, sid);
      TransitionAvoids(TransitionSession(reviewed, other, Reviewing).t, other, SessionStatus.Approved, sid);
    }
  }

  lemma HandleAvoids(t: Tables, j: Id, p: Provider, aid: Id, now: Time, sid: Id)
    requires j in t.jobs && Registered(t.jobs[j].jobType) && sid in t.sessions && t.sessions[sid].status != Retracted
    ensures var after := Handle(t, j, p, aid, now).t.sessions; sid in after && after[sid].status != Retracted
  {
  }

  lemma FinishAvoids(w: World, st: Step, sid: Id)
    requires KeysOk(w.t.jobs) && Enabled(w, st) && st.FinishStep?
    requires sid in w.t.sessions && w.t.sessions[sid].status != Retracted
    ensures var after := Apply(w, st).t.sessions; sid in after && after[sid].status != Retracted
  {
    assert KeyFits(w.t.jobs[w.executors[st.w]]);
    HandleAvoids(w.t, w.executors[st.w], st.e.provider, st.e.artifact, w.now, sid);
    RaisingHandlerFlushes(w.t, w.executors[st.w], st.e.provider, st.e.artifact, w.now);
  }

  /** The step is an accepted request of the owner for the status. */
  predicate Requests(w: World, st: Step, sid: Id, status: SessionStatus) {
    && Enabled(w, st) && st.StatusStep? && st.sid == sid && st.target == Some(status)
    && Owned(w.t, sid, st.user)
  }

  lemma StatusEnters(t: Tables, other: Id, user: Id, target: Option<SessionStatus>, ids: seq<Id>, now: Time, sid: Id)
    requires |ids| == 3 && sid in t.sessions && t.sessions[sid].status != Retracted
    ensures var after := Settle(t, UpdateStatus(t, other, user, target, ids, now)).sessions;
            && sid in after
            && (after[sid].status == Retracted <==>
                && other == sid && Owned(t, sid, user) && target == Some(Retracted)
                && t.sessions[sid].status == Retracting)
  {
  }

  lemma OtherAvoids(w: World, st: Step, sid: Id)
    requires Enabled(w, st) && !st.StatusStep? && !st.ReviewStep? && !st.FinishStep? && !st.PublishStep?
    requires sid in w.t.sessions && w.t.sessions[sid].status != Retracted
    ensures var after := Apply(w, st).t.sessions; sid in after && after[sid].status != Retracted
  {
  }

  lemma PublishAvoids(t: Tables, aid: Id, newId: Id, now: Time, sid: Id)
    requires sid in t.sessions && t.sessions[sid].status != Retracted
    ensures var after := Settle(t, PublishEndpoint(t, aid, newId, now)).sessions;
            sid in after && after[sid].status != Retracted
  {
  }

  /** The saga itself never reaches retracted: a session enters it exactly by its
      owner's status request, from retracting. */
  lemma RetractedByRequest(w: World, st: Step, sid: Id)
    requires KeysOk(w.t.jobs) && sid in w.t.sessions && w.t.sessions[sid].status != Retracted
    ensures sid in Apply(w, st).t.sessions
    ensures Apply(w, st).t.sessions[sid].status == Retracted <==>
            Requests(w, st, sid, Retracted) && w.t.sessions[sid].status == Retracting
  {
    if Enabled(w, st) {
      match st
      case StatusStep(other, user, target, ids) => StatusEnters(w.t, other, user, target, ids, w.now, sid);
      case ReviewStep(aid, approve, user, comment, newId, suffix) =>
        ReviewAvoids(w.t, aid, approve, user, comment, newId, suffix, w.now, sid);
      case FinishStep(_, _, _) => FinishAvoids(w, st, sid);
      case PublishStep(aid, newId) => PublishAvoids(w.t, aid, newId, w.now, sid);
      case _ => OtherAvoids(w, st, sid);
    }
  }
}
