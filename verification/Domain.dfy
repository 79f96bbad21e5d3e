/** The rows of the job, session and artifact engine, and what an open
    transaction sees of them. */
module Domain {

  datatype Option<+T> = None | Some(value: T)

  // Row identifiers stand for UUIDs: opaque tokens compared for equality.
  type Id = nat

  // The name of a stored audio file.
  type FileKey = nat

  // A point in time, in microseconds.
  type Time = nat

  const SECOND: Time := 1_000_000

  datatype SessionStatus =
    | Idle | Capturing | Paused
    | Processing | ProcessingFailed
    | NeedsReview | Reviewing | Approved
    | Publishing | PublishFailed | Published
    | Retracting | Retracted | Cancelled

  /** A session row. `trace` is a history variable, not a column: it records
      every value ever written to `status`, the initial one included. */
  datatype Session = Session(
    user: Id,
    status: SessionStatus,
    consent: bool,
    audioKey: Option<FileKey>,
    deletedAt: Option<Time>,
    retractedBy: Option<Id>,
    trace: seq<SessionStatus>)

  /** A write to the status column, keeping the history. */
  function WithStatus(s: Session, status: SessionStatus): Session {
    s.(status := status, trace := s.trace + [status])
  }

  datatype JobType = Transcribe | Summarize | ExtractArtifact | Publish | OtherType(name: string)

  datatype JobStatus = Pending | Running | Completed | Failed

  /** The three idempotency key formats. */
  datatype JobKey =
    | PipelineKey(session: Id, stage: JobType)
    | RetryKey(session: Id, suffix: string)
    | PublishKey(session: Id, artifact: Id)

  datatype JobInput = NoInput | RetryReason(comment: string) | PublishOf(artifact: Id)

  /** The part of a job's output document that later stages read. */
  datatype Payload =
    | Transcript(text: string)
    | Summary(kind: Option<string>, title: Option<string>)
    | Extracted(artifactKind: string, artifactTitle: string)
    | FeishuDoc(artifact: Id)

  datatype Job = Job(
    key: JobKey,
    session: Id,
    jobType: JobType,
    status: JobStatus,
    input: JobInput,
    output: Option<Payload>,
    error: Option<string>,
    priority: int,
    retryCount: nat,
    maxRetries: nat,
    nextRunAt: Option<Time>,
    startedAt: Option<Time>,
    completedAt: Option<Time>,
    createdAt: Time)

  /** A job row as inserted: pending, never run, with the column defaults. */
  function NewJob(key: JobKey, session: Id, jobType: JobType, input: JobInput, now: Time): Job {
    Job(key, session, jobType, Pending, input, None, None, 0, 0, 3, None, None, None, now)
  }

  datatype ArtifactStatus = Draft | PendingReview | ArtifactApproved | ArtifactRejected | ArtifactPublished

  datatype Artifact = Artifact(
    session: Id,
    job: Id,
    kind: string,
    title: string,
    status: ArtifactStatus,
    reviewStatus: Option<ArtifactStatus>,
    comment: string,
    publishedAt: Option<Time>)

  datatype DeletionKind = DeleteArtifactRows | DeleteLocalAudio | DeleteFeishuDocs

  datatype DeletionJob = DeletionJob(
    session: Id,
    kind: DeletionKind,
    target: Option<FileKey>,
    status: JobStatus,
    error: Option<string>,
    nextRunAt: Option<Time>,
    createdAt: Time)

  datatype Event =
    | JobCreated(job: Id)
    | JobMoved(job: Id, from: JobStatus, to: JobStatus)
    | ArtifactReviewed(artifact: Id, session: Id, verdict: ArtifactStatus, reviewer: Id)
    | SessionMoved(session: Id, target: SessionStatus)

  datatype AuditAction = ConsentGranted | ConsentRevoked | RetractInitiated

  datatype AuditEntry = AuditEntry(action: AuditAction, session: Id, user: Id, at: Time)

  /** The transactional tables. */
  datatype Tables = Tables(
    sessions: map<Id, Session>,
    jobs: map<Id, Job>,
    artifacts: map<Id, Artifact>,
    deletions: map<Id, DeletionJob>,
    events: seq<Event>,
    audit: seq<AuditEntry>)

  const EmptyTables := Tables(map[], map[], map[], map[], [], [])

  datatype Error = NotFound | BadRequest | Forbidden | Conflict | ValueError | IntegrityError | ProviderFailure

  /** How an operation ends: with the tables it has flushed so far, either
      normally or by raising. */
  datatype Reply = Ok(t: Tables) | Raise(t: Tables, error: Error)

  /** A request's transaction: committed when the endpoint returns, rolled
      back when it raises. */
  function Settle(before: Tables, r: Reply): Tables {
    if r.Ok? then r.t else before
  }

  predicate KeyTaken(jobs: map<Id, Job>, key: JobKey) {
    exists j :: j in jobs && jobs[j].key == key
  }

  /** Flushing one new job row, under the unique key constraint. */
  function InsertJob(t: Tables, id: Id, job: Job): Reply {
    if KeyTaken(t.jobs, job.key) then Raise(t, IntegrityError)
    else Ok(t.(jobs := t.jobs[id := job]))
  }
}
