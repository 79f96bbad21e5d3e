/** The whole engine as one machine: requests and worker commits as serialised
    transactions over the tables, the audio directory and a clock. Executors are
    not assumed to hold a lease: any number may run the same job. */
module System {
  import opened Domain
  import opened StateMachine
  import opened Keys
  import opened Orchestrator
  import opened SessionApi
  import opened ArtifactService
  import opened Agents
  import opened Worker

  /** `executors` maps running handlers to their jobs. `uploads` and `drawn` are
      history variables: which session each audio file was uploaded for, and
      each artifact id drawn for. */
  datatype World = World(t: Tables, files: set<FileKey>, uploads: map<FileKey, Id>, drawn: map<Id, Id>,
                         executors: map<Id, Id>, now: Time)

  const EMPTY_WORLD: World := World(EmptyTables, {}, map[], map[], map[], 0)

  /** How a deletion attempt ends: committed, refused by the operating system,
      or by the death of the worker before its commit, after or before the file
      was removed. */
  datatype Outcome = Done | Refused(message: string) | Died(fileGone: bool)

  datatype Half = NoDeletion | Attempt(d: Id, outcome: Outcome)

  datatype Step =
    | Tick(dt: Time)
    | CreateStep(sid: Id, user: Id, hasDevice: bool)
    | ConsentStep(sid: Id, user: Id, grant: bool)
    | StatusStep(sid: Id, user: Id, target: Option<SessionStatus>, ids: seq<Id>)
    | UploadStep(sid: Id, user: Id, key: FileKey)
    | CancelStep(sid: Id, user: Id)
    | RetractStep(sid: Id, user: Id, ids: seq<Id>)
    | ReviewStep(aid: Id, approve: bool, user: Id, comment: string, newId: Id, suffix: string)
    | PublishStep(aid: Id, newId: Id)
    | RetryStep(j: Id, newId: Id)
    | ClaimStep(w: Id, j: Id)
    | HeartbeatStep(j: Id)
    | CrashStep(w: Id)
    | FinishStep(w: Id, e: Surroundings, half: Half)
    | DeletionStep(idle: bool, half: Half)

  predicate HalfEnabled(t: Tables, files: set<FileKey>, now: Time, half: Half) {
    half.Attempt? ==>
      && half.d in t.deletions && EligibleDeletion(t.deletions[half.d], now)
      && (half.outcome.Refused? ==>
            && t.deletions[half.d].kind == DeleteLocalAudio && t.deletions[half.d].target.Some?
            && t.deletions[half.d].target.value in files)
  }

  /** Row ids and file names are drawn fresh; a retry is of a failed job. */
  predicate Enabled(w: World, st: Step) {
    match st
    case CreateStep(sid, _, _) => sid !in w.t.sessions
    case StatusStep(_, _, _, ids) =>
      && |ids| == 3 && ids[0] != ids[1] && ids[0] != ids[2] && ids[1] != ids[2]
      && ids[0] !in w.t.jobs && ids[1] !in w.t.jobs && ids[2] !in w.t.jobs
    case UploadStep(_, _, key) => key !in w.uploads
    case RetractStep(_, _, ids) =>
      && |ids| == 3 && ids[0] != ids[1] && ids[0] != ids[2] && ids[1] != ids[2]
      && ids[0] !in w.t.deletions && ids[1] !in w.t.deletions && ids[2] !in w.t.deletions
    case ReviewStep(_, _, _, _, newId, _) => newId !in w.t.jobs
    case PublishStep(_, newId) => newId !in w.t.jobs
    case RetryStep(j, newId) => j in w.t.jobs && w.t.jobs[j].status == Failed && newId !in w.t.jobs
    case ClaimStep(x, j) => x !in w.executors && j in w.t.jobs && Claimable(Release(w.t.jobs, w.now)[j], w.now)
    case HeartbeatStep(j) => j in w.t.jobs
    case CrashStep(x) => x in w.executors
    case FinishStep(x, e, half) =>
      && x in w.executors && w.executors[x] in w.t.jobs && e.artifact !in w.drawn
      && HalfEnabled(Execute(w.t, w.executors[x], e, w.now).pending, w.files, w.now, half)
    case DeletionStep(_, half) => half.Attempt? && HalfEnabled(w.t, w.files, w.now, half)
    case _ => true
  }

  /** The deletion half: its commit takes the session's pending writes along. */
  function AfterHalf(committed: Tables, pending: Tables, half: Half): Tables
    requires half.Attempt? ==> half.d in pending.deletions
  {
    match half
    case NoDeletion => committed
    case Attempt(d, Done) => DeletionDone(pending, d)
    case Attempt(d, Refused(message)) => DeletionFailed(pending, d, message)
    case Attempt(_, Died(_)) => committed
  }

  function FilesAfter(files: set<FileKey>, pending: Tables, half: Half): set<FileKey>
    requires half.Attempt? ==> half.d in pending.deletions
  {
    if half.Attempt? && (half.outcome.Done? || (half.outcome.Died? && half.outcome.fileGone))
    then FilesWithout(files, pending.deletions[half.d]) else files
  }

  function Request(w: World, r: Reply): World {
    w.(t := Settle(w.t, r))
  }

  function Claim(t: Tables, j: Id, now: Time): Tables
    requires j in t.jobs
  {
    var released := Release(t.jobs, now);
    t.(jobs := released[j := Worker.Start(released[j], now)])
  }

  function Apply(w: World, st: Step): World {
    if !Enabled(w, st) then w else
    match st
    case Tick(dt) => w.(now := w.now + dt)
    case CreateStep(sid, user, hasDevice) => Request(w, CreateSession(w.t, sid, user, hasDevice))
    case ConsentStep(sid, user, grant) => Request(w, UpdateConsent(w.t, sid, user, grant, w.now))
    case StatusStep(sid, user, target, ids) => Request(w, UpdateStatus(w.t, sid, user, target, ids, w.now))
    case UploadStep(sid, user, key) =>
      var r := UploadAudio(w.t, sid, user, key);
      if r.Raise? then w else w.(t := r.t, files := w.files + {key}, uploads := w.uploads[key := sid])
    case CancelStep(sid, user) => Request(w, CancelSession(w.t, sid, user))
    case RetractStep(sid, user, ids) => Request(w, RetractEndpoint(w.t, sid, user, ids, w.now))
    case ReviewStep(aid, approve, user, comment, newId, suffix) =>
      Request(w, ReviewEndpoint(w.t, aid, approve, user, comment, newId, suffix, w.now))
    case PublishStep(aid, newId) => Request(w, PublishEndpoint(w.t, aid, newId, w.now))
    case RetryStep(j, newId) => w.(t := RetryJob(w.t, j, newId, w.now))
    case ClaimStep(x, j) => w.(t := Claim(w.t, j, w.now), executors := w.executors[x := j])
    case HeartbeatStep(j) => w.(t := WithJob(w.t, j, Beat(w.t.jobs[j], w.now)))
    case CrashStep(x) => w.(executors := w.executors - {x})
    case FinishStep(x, e, half) =>
      var run := Execute(w.t, w.executors[x], e, w.now);
      w.(t := AfterHalf(run.committed, run.pending, half), files := FilesAfter(w.files, run.pending, half),
         executors := w.executors - {x}, drawn := w.drawn[e.artifact := w.t.jobs[w.executors[x]].session])
    case DeletionStep(idle, half) =>
      // An idle first half leaves its release pending in the same session.
      var pending := if idle then w.t.(jobs := Release(w.t.jobs, w.now)) else w.t;
      w.(t := AfterHalf(w.t, pending, half), files := FilesAfter(w.files, pending, half))
  }

  // ---- The invariant ----

  /** A row's session exists and has left the early group. */
  predicate OfActive(sessions: map<Id, Session>, sid: Id) {
    sid in sessions && !Early(sessions[sid].status)
  }

  predicate HasPipeline(jobs: map<Id, Job>, sid: Id) {
    forall stage | stage in PIPELINE :: KeyTaken(jobs, PipelineKey(sid, stage))
  }

  predicate RowsOk(t: Tables) {
    && (forall j :: j in t.jobs ==> OfActive(t.sessions, t.jobs[j].session))
    && (forall a :: a in t.artifacts ==> OfActive(t.sessions, t.artifacts[a].session))
    && (forall d :: d in t.deletions ==> OfActive(t.sessions, t.deletions[d].session))
    && (forall s :: s in t.sessions && !Early(t.sessions[s].status) ==>
          t.sessions[s].audioKey.Some? && HasPipeline(t.jobs, s))
  }

  predicate KeyFits(job: Job) {
    && job.key.session == job.session
    && match job.key
       case PipelineKey(_, stage) => job.jobType == stage && Stage(stage)
       case RetryKey(_, _) => job.jobType == ExtractArtifact
       case PublishKey(_, a) => job.jobType == Publish && job.input == PublishOf(a)
  }

  predicate KeysOk(jobs: map<Id, Job>) {
    && (forall j :: j in jobs ==> KeyFits(jobs[j]))
    && (forall i, j :: i in jobs && j in jobs && jobs[i].key == jobs[j].key ==> i == j)
  }

  predicate Granted(audit: seq<AuditEntry>, sid: Id) {
    exists i :: 0 <= i < |audit| && audit[i].action == ConsentGranted && audit[i].session == sid
  }

  predicate ConsentOk(sessions: map<Id, Session>, audit: seq<AuditEntry>) {
    forall s :: s in sessions
                && (sessions[s].consent || (sessions[s].status != Idle && sessions[s].status != Cancelled)) ==>
      Granted(audit, s)
  }

  predicate TracesOk(sessions: map<Id, Session>) {
    forall s :: s in sessions ==> TraceOk(sessions[s])
  }

  predicate Transcribed(jobs: map<Id, Job>, sid: Id) {
    exists i :: i in jobs && jobs[i].session == sid && jobs[i].jobType == Transcribe
                && jobs[i].status == Completed && jobs[i].output.Some?
  }

  /** A completed later stage has a completed transcription behind it. */
  predicate CausesOk(jobs: map<Id, Job>) {
    forall j :: j in jobs && jobs[j].status == Completed
                && (jobs[j].jobType == Summarize || jobs[j].jobType == ExtractArtifact) ==>
      Transcribed(jobs, jobs[j].session)
  }

  /** A completed transcription carries its payload. */
  predicate PayloadsOk(jobs: map<Id, Job>) {
    forall j :: j in jobs && jobs[j].status == Completed && jobs[j].jobType == Transcribe ==> jobs[j].output.Some?
  }

  predicate Good(t: Tables) {
    && RowsOk(t) && KeysOk(t.jobs) && ConsentOk(t.sessions, t.audit) && TracesOk(t.sessions)
    && CausesOk(t.jobs) && PayloadsOk(t.jobs)
  }

  /** Every file was uploaded, every session's and deletion job's audio file was
      uploaded for that session, and a completed removal has removed its file. */
  predicate FilesOk(w: World) {
    && w.files <= w.uploads.Keys
    && (forall s :: s in w.t.sessions && w.t.sessions[s].audioKey.Some? ==>
          w.t.sessions[s].audioKey.value in w.uploads && w.uploads[w.t.sessions[s].audioKey.value] == s)
    && (forall d :: d in w.t.deletions && w.t.deletions[d].target.Some? ==>
          && w.t.deletions[d].target.value in w.uploads
          && w.uploads[w.t.deletions[d].target.value] == w.t.deletions[d].session)
    && (forall d :: d in w.t.deletions && w.t.deletions[d].kind == DeleteLocalAudio
                    && w.t.deletions[d].status == Completed && w.t.deletions[d].target.Some? ==>
          w.t.deletions[d].target.value !in w.files)
  }

  /** Every artifact belongs to the session its id was drawn for. */
  predicate DrawnOk(w: World) {
    forall a :: a in w.t.artifacts ==> a in w.drawn && w.drawn[a] == w.t.artifacts[a].session
  }

  predicate Inv(w: World) {
    && Good(w.t) && FilesOk(w) && DrawnOk(w)
    && (forall x :: x in w.executors ==> w.executors[x] in w.t.jobs)
  }

  // ---- Runs ----

  function Run(w: World, steps: seq<Step>): World {
    if steps == [] then w else Apply(Run(w, steps[..|steps| - 1]), steps[|steps| - 1])
  }

  lemma EmptyInv()
    ensures Inv(EMPTY_WORLD)
  {
  }
}
