/** What each session request answers and writes, told by the rows and columns
    it finds and leaves, independently of the transition table and of the
    functions that specify the endpoints. */
module RequestColumns {
  import opened Domain
  import opened Orchestrator
  import opened SessionApi
  import opened System
  import opened SystemTheorems

  predicate Mine(t: Tables, sid: Id, user: Id) {
    sid in t.sessions && t.sessions[sid].user == user
  }

  /** Only one session row differs. */
  predicate OnlySession(t: Tables, after: Tables, sid: Id, row: Session) {
    after == t.(sessions := t.sessions[sid := row])
  }

  lemma CreationColumns(t: Tables, sid: Id, user: Id, hasDevice: bool)
    ensures var r := CreateSession(t, sid, user, hasDevice);
            if hasDevice
            then r.Ok? && OnlySession(t, r.t, sid, Session(user, Idle, false, None, None, None, [Idle]))
            else r == Raise(t, BadRequest)
  {
  }

  /** Consent is what was last asked for, up to publication. */
  lemma ConsentColumns(t: Tables, sid: Id, user: Id, grant: bool, now: Time)
    ensures var r := UpdateConsent(t, sid, user, grant, now);
            if !Mine(t, sid, user) then r == Raise(t, NotFound)
            else
              var s := t.sessions[sid];
              if s.status == Published || s.status == Retracting || s.status == Retracted || s.status == Cancelled
              then r == Raise(t, Conflict)
              else var action := if grant then ConsentGranted else ConsentRevoked;
                   && r.Ok? && r.t.sessions == t.sessions[sid := s.(consent := grant)]
                   && r.t.audit == t.audit + [AuditEntry(action, sid, user, now)]
                   && r.t == t.(sessions := r.t.sessions, audit := r.t.audit)
  {
  }

  /** A capturing request right after an accepted consent request obeys it. */
  lemma CaptureObeysConsent(t: Tables, sid: Id, user: Id, grant: bool, ids: seq<Id>, now: Time)
    requires |ids| == 3 && Mine(t, sid, user) && (t.sessions[sid].status == Idle || t.sessions[sid].status == Paused)
    ensures var asked := UpdateConsent(t, sid, user, grant, now);
            && asked.Ok?
            && var r := UpdateStatus(asked.t, sid, user, Some(Capturing), ids, now);
               && (r.Ok? <==> grant)
               && (!grant ==> r == Raise(asked.t, Forbidden))
  {
    ConsentColumns(t, sid, user, grant, now);
  }

  // ---- The status endpoint ----

  /** From which statuses a request for each status is accepted, the row owned
      by the caller; for processing see `SystemTheorems.ProcessingAccepted`. */
  predicate Accepts(s: Session, target: SessionStatus)
    requires target != Processing
  {
    match target
    case Idle => s.status == Idle
    case Capturing => s.status == Capturing || (s.consent && (s.status == Idle || s.status == Paused))
    case Paused => s.status == Capturing || s.status == Paused
    case ProcessingFailed => s.status == Processing || s.status == ProcessingFailed
    case NeedsReview => s.status == Processing || s.status == NeedsReview
    case Reviewing => s.status == NeedsReview || s.status == Reviewing
    case Approved => s.status == Reviewing || s.status == Approved
    case Publishing => s.status == Approved || s.status == PublishFailed || s.status == Publishing
    case PublishFailed => s.status == Publishing || s.status == PublishFailed
    case Published => s.status == Publishing || s.status == Published
    case Retracting => s.status == Published || s.status == Retracting
    case Retracted => s.status == Retracting
    case Cancelled => s.status == Idle || s.status == Capturing || s.status == Paused
  }

  lemma EarlyTargets(t: Tables, sid: Id, user: Id, target: SessionStatus, ids: seq<Id>, now: Time)
    requires |ids| == 3 && Mine(t, sid, user)
    requires target == Idle || target == Capturing || target == Paused || target == Cancelled
    ensures UpdateStatus(t, sid, user, Some(target), ids, now).Ok? <==> Accepts(t.sessions[sid], target)
  {
  }

  lemma ReviewTargets(t: Tables, sid: Id, user: Id, target: SessionStatus, ids: seq<Id>, now: Time)
    requires |ids| == 3 && Mine(t, sid, user)
    requires target == ProcessingFailed || target == NeedsReview || target == Reviewing || target == Approved
    ensures UpdateStatus(t, sid, user, Some(target), ids, now).Ok? <==> Accepts(t.sessions[sid], target)
  {
  }

  lemma LateTargets(t: Tables, sid: Id, user: Id, target: SessionStatus, ids: seq<Id>, now: Time)
    requires |ids| == 3 && Mine(t, sid, user)
    requires target == Publishing || target == PublishFailed || target == Published || target == Retracting
          || target == Retracted
    ensures UpdateStatus(t, sid, user, Some(target), ids, now).Ok? <==> Accepts(t.sessions[sid], target)
  {
  }

  /** What an accepted or refused status request leaves, for every status but processing. */
  lemma StatusColumns(t: Tables, sid: Id, user: Id, target: SessionStatus, ids: seq<Id>, now: Time)
    requires |ids| == 3 && target != Processing
    ensures var r := UpdateStatus(t, sid, user, Some(target), ids, now);
            if !Mine(t, sid, user) then r == Raise(t, NotFound)
            else
              var s := t.sessions[sid];
              if Accepts(s, target)
              then r.Ok? && OnlySession(t, r.t, sid, s.(status := target, trace := s.trace + [target]))
              else r == Raise(t, if target == Capturing && !s.consent then Forbidden else Conflict)
  {
    if Mine(t, sid, user) {
      match target
      case Idle | Capturing | Paused | Cancelled => EarlyTargets(t, sid, user, target, ids, now);
      case ProcessingFailed | NeedsReview | Reviewing | Approved => ReviewTargets(t, sid, user, target, ids, now);
      case _ => LateTargets(t, sid, user, target, ids, now);
    }
  }

  /** A string that names no status. */
  lemma UnknownStatus(t: Tables, sid: Id, user: Id, ids: seq<Id>, now: Time)
    requires |ids| == 3
    ensures UpdateStatus(t, sid, user, None, ids, now) == Raise(t, if Mine(t, sid, user) then BadRequest else NotFound)
  {
  }

  predicate HoldsKey(jobs: map<Id, Job>, key: JobKey) {
    exists j :: j in jobs && jobs[j].key == key
  }

  /** A new pipeline job, column by column. */
  function FirstRow(sid: Id, stage: JobType, now: Time): Job {
    Job(PipelineKey(sid, stage), sid, stage, Pending, NoInput, None, None, 0, 0, 3, None, None, None, now)
  }

  predicate PipelineHeld(jobs: map<Id, Job>, sid: Id) {
    || HoldsKey(jobs, PipelineKey(sid, Transcribe)) || HoldsKey(jobs, PipelineKey(sid, Summarize))
    || HoldsKey(jobs, PipelineKey(sid, ExtractArtifact))
  }

  lemma CreationNeedsFreeKeys(t: Tables, sid: Id, ids: seq<Id>, now: Time)
    requires |ids| == 3
    ensures CreateJobs(t, sid, ids, now) ==
            if PipelineHeld(t.jobs, sid) then Raise(t, IntegrityError)
            else Ok(t.(jobs := t.jobs[ids[0] := FirstRow(sid, Transcribe, now)][ids[1] := FirstRow(sid, Summarize, now)]
                                     [ids[2] := FirstRow(sid, ExtractArtifact, now)],
                       events := t.events + [JobCreated(ids[0]), JobCreated(ids[1]), JobCreated(ids[2])]))
  {
    assert PIPELINE[0] == Transcribe && PIPELINE[1] == Summarize && PIPELINE[2] == ExtractArtifact;
    if PipelineHeld(t.jobs, sid) {
      assert exists stage :: stage in PIPELINE && KeyTaken(t.jobs, PipelineKey(sid, stage)) by {
        assert KeyTaken(t.jobs, PipelineKey(sid, PIPELINE[0])) || KeyTaken(t.jobs, PipelineKey(sid, PIPELINE[1]))
            || KeyTaken(t.jobs, PipelineKey(sid, PIPELINE[2]));
      }
    }
  }

  /** Entering processing: the order of refusals, and the three rows. */
  lemma ProcessingColumns(t: Tables, sid: Id, user: Id, ids: seq<Id>, now: Time)
    requires |ids| == 3 && Mine(t, sid, user)
    ensures var r, s := UpdateStatus(t, sid, user, Some(Processing), ids, now), t.sessions[sid];
            var written := t.sessions[sid := s.(status := Processing, trace := s.trace + [Processing])];
            if s.status != Capturing && s.status != Processing && s.status != ProcessingFailed then
              r == Raise(t, Conflict)
            else if s.audioKey == None then r == Raise(t.(sessions := written), BadRequest)
            else if PipelineHeld(t.jobs, sid) then r == Raise(t.(sessions := written), IntegrityError)
            else
              r == Ok(t.(sessions := written,
                         jobs := t.jobs[ids[0] := FirstRow(sid, Transcribe, now)]
                                       [ids[1] := FirstRow(sid, Summarize, now)]
                                       [ids[2] := FirstRow(sid, ExtractArtifact, now)],
                         events := t.events + [JobCreated(ids[0]), JobCreated(ids[1]), JobCreated(ids[2])]))
  {
    IntoProcessing(t.sessions[sid].status, t.sessions[sid].consent);
    CreationNeedsFreeKeys(SetStatus(t, sid, Processing), sid, ids, now);
  }

  // ---- Audio, cancellation, retraction ----

  lemma UploadColumns(t: Tables, sid: Id, user: Id, key: FileKey)
    ensures var r := UploadAudio(t, sid, user, key);
            if Mine(t, sid, user) then r.Ok? && OnlySession(t, r.t, sid, t.sessions[sid].(audioKey := Some(key)))
            else r == Raise(t, NotFound)
  {
  }

  lemma CancelColumns(t: Tables, sid: Id, user: Id)
    ensures var r := CancelSession(t, sid, user);
            if !Mine(t, sid, user) then r == Raise(t, NotFound)
            else
              var s := t.sessions[sid];
              if s.status == Idle || s.status == Capturing || s.status == Paused
              then r.Ok? && OnlySession(t, r.t, sid, s.(status := Cancelled, trace := s.trace + [Cancelled]))
              else r == Raise(t, Conflict)
  {
  }

  lemma RetractColumns(t: Tables, sid: Id, user: Id, ids: seq<Id>, now: Time)
    requires |ids| == 3 && ids[0] != ids[1] && ids[0] != ids[2] && ids[1] != ids[2]
    ensures var r := RetractEndpoint(t, sid, user, ids, now);
            if !Mine(t, sid, user) then r == Raise(t, NotFound)
            else if t.sessions[sid].status != Published then r == Raise(t, Forbidden)
            else
              var s, d := t.sessions[sid], r.t.deletions;
              && r.Ok?
              && r.t == t.(sessions := t.sessions[sid := s.(status := Retracting, trace := s.trace + [Retracting],
                                                            deletedAt := Some(now), retractedBy := Some(user))],
                           deletions := d, audit := t.audit + [AuditEntry(RetractInitiated, sid, user, now)])
              && d.Keys == t.deletions.Keys + {ids[0], ids[1], ids[2]}
              && (forall k :: k in t.deletions && k !in ids ==> d[k] == t.deletions[k])
              && d[ids[0]] == DeletionJob(sid, DeleteArtifactRows, None, Pending, None, None, now)
              && d[ids[1]] == DeletionJob(sid, DeleteLocalAudio, s.audioKey, Pending, None, None, now)
              && d[ids[2]] == DeletionJob(sid, DeleteFeishuDocs, None, Pending, None, None, now)
  {
  }

  /** In the engine's machine a cancellation is the request's. */
  lemma CancelStepCancels(w: World, sid: Id, user: Id)
    requires Mine(w.t, sid, user)
    requires var s := w.t.sessions[sid].status; s == Idle || s == Capturing || s == Paused
    ensures var after := Apply(w, CancelStep(sid, user));
            after.t.sessions[sid].status == Cancelled && after == w.(t := w.t.(sessions := after.t.sessions))
  {
  }
}
