/** The invariant of the whole engine is kept by every step. */
module SystemInvariant {
  import opened Domain
  import opened StateMachine
  import opened Keys
  import opened Orchestrator
  import opened SessionApi
  import opened ArtifactService
  import opened Agents
  import opened Worker
  import opened System

  // ---- Single writes ----

  /** Rows may change in everything but their identity. */
  predicate SameIdentity(jobs: map<Id, Job>, after: map<Id, Job>) {
    && jobs.Keys <= after.Keys
    && forall j :: j in jobs ==>
         && after[j].key == jobs[j].key && after[j].session == jobs[j].session
         && after[j].jobType == jobs[j].jobType && after[j].input == jobs[j].input
  }

  /** Completed rows stay completed, with a payload if they had one. */
  predicate KeepsCompleted(jobs: map<Id, Job>, after: map<Id, Job>) {
    forall j :: j in jobs && jobs[j].status == Completed ==>
      j in after && after[j].status == Completed
  }

  lemma PipelineKept(jobs: map<Id, Job>, after: map<Id, Job>, sid: Id)
    requires SameIdentity(jobs, after) && HasPipeline(jobs, sid)
    ensures HasPipeline(after, sid)
  {
    forall stage | stage in PIPELINE
      ensures KeyTaken(after, PipelineKey(sid, stage))
    {
      var j :| j in jobs && jobs[j].key == PipelineKey(sid, stage);
      assert j in after && after[j].key == PipelineKey(sid, stage);
    }
  }

  lemma TranscribedKept(jobs: map<Id, Job>, after: map<Id, Job>, sid: Id)
    requires SameIdentity(jobs, after) && KeepsCompleted(jobs, after) && PayloadsOk(after) && Transcribed(jobs, sid)
    ensures Transcribed(after, sid)
  {
    var i :| i in jobs && jobs[i].session == sid && jobs[i].jobType == Transcribe
             && jobs[i].status == Completed && jobs[i].output.Some?;
    assert after[i].status == Completed && after[i].jobType == Transcribe;
  }

  lemma KeysRewritten(jobs: map<Id, Job>, after: map<Id, Job>)
    requires KeysOk(jobs) && SameIdentity(jobs, after) && after.Keys == jobs.Keys
    ensures KeysOk(after)
  {
    forall j | j in after
      ensures KeyFits(after[j])
    {
      assert KeyFits(jobs[j]);
    }
  }

  lemma RowsRewritten(t: Tables, after: map<Id, Job>)
    requires RowsOk(t) && KeysOk(t.jobs) && SameIdentity(t.jobs, after) && after.Keys == t.jobs.Keys
    ensures RowsOk(t.(jobs := after)) && KeysOk(after)
  {
    KeysRewritten(t.jobs, after);
    forall s | s in t.sessions && !Early(t.sessions[s].status)
      ensures HasPipeline(after, s)
    {
      PipelineKept(t.jobs, after, s);
    }
  }

  /** Rewriting job rows: what is newly completed must have its cause. */
  lemma JobsWritten(t: Tables, after: map<Id, Job>)
    requires Good(t) && SameIdentity(t.jobs, after) && after.Keys == t.jobs.Keys
    requires KeepsCompleted(t.jobs, after) && PayloadsOk(after)
    requires forall j :: j in after && after[j].status == Completed && t.jobs[j].status != Completed
                         && (after[j].jobType == Summarize || after[j].jobType == ExtractArtifact) ==>
               Transcribed(t.jobs, after[j].session)
    ensures Good(t.(jobs := after))
  {
    RowsRewritten(t, after);
    forall j | j in after && after[j].status == Completed
               && (after[j].jobType == Summarize || after[j].jobType == ExtractArtifact)
      ensures Transcribed(after, after[j].session)
    {
      assert Transcribed(t.jobs, t.jobs[j].session);
      TranscribedKept(t.jobs, after, after[j].session);
    }
  }

  lemma JobRowsOk(t: Tables, j: Id, row: Job)
    requires RowsOk(t) && j !in t.jobs && OfActive(t.sessions, row.session)
    ensures RowsOk(t.(jobs := t.jobs[j := row]))
  {
    forall s | s in t.sessions && !Early(t.sessions[s].status)
      ensures HasPipeline(t.jobs[j := row], s)
    {
      PipelineKept(t.jobs, t.jobs[j := row], s);
    }
  }

  lemma JobKeysOk(jobs: map<Id, Job>, j: Id, row: Job)
    requires KeysOk(jobs) && KeyFits(row) && !KeyTaken(jobs, row.key)
    ensures KeysOk(jobs[j := row])
  {
  }

  lemma JobCausesOk(jobs: map<Id, Job>, j: Id, row: Job)
    requires CausesOk(jobs) && PayloadsOk(jobs) && j !in jobs && row.status == Pending
    ensures CausesOk(jobs[j := row]) && PayloadsOk(jobs[j := row])
  {
    var after := jobs[j := row];
    assert PayloadsOk(after);
    forall i | i in after && after[i].status == Completed
               && (after[i].jobType == Summarize || after[i].jobType == ExtractArtifact)
      ensures Transcribed(after, after[i].session)
    {
      assert after[i] == jobs[i];
      TranscribedKept(jobs, after, after[i].session);
    }
  }

  /** Adding a pending job of an active session under a free, fitting key. */
  lemma JobAdded(t: Tables, j: Id, row: Job)
    requires Good(t) && j !in t.jobs && OfActive(t.sessions, row.session)
    requires KeyFits(row) && !KeyTaken(t.jobs, row.key) && row.status == Pending
    ensures Good(t.(jobs := t.jobs[j := row]))
  {
    JobRowsOk(t, j, row);
    JobKeysOk(t.jobs, j, row);
    JobCausesOk(t.jobs, j, row);
  }

  lemma SessionRowsOk(t: Tables, sid: Id, row: Session)
    requires RowsOk(t) && sid in t.sessions && Early(row.status) == Early(t.sessions[sid].status)
    requires t.sessions[sid].audioKey.Some? ==> row.audioKey.Some?
    ensures RowsOk(t.(sessions := t.sessions[sid := row]))
  {
    var after := t.(sessions := t.sessions[sid := row]);
    assert forall s :: OfActive(t.sessions, s) ==> OfActive(after.sessions, s);
  }

  /** Writing one session row within its group. */
  lemma SessionWritten(t: Tables, sid: Id, row: Session)
    requires Good(t) && sid in t.sessions && TraceOk(row)
    requires Early(row.status) == Early(t.sessions[sid].status)
    requires t.sessions[sid].audioKey.Some? ==> row.audioKey.Some?
    requires row.consent || (row.status != Idle && row.status != Cancelled) ==> Granted(t.audit, sid)
    ensures Good(t.(sessions := t.sessions[sid := row]))
  {
    SessionRowsOk(t, sid, row);
  }

  lemma ArtifactsWritten(t: Tables, after: map<Id, Artifact>)
    requires Good(t) && forall a :: a in after ==> OfActive(t.sessions, after[a].session)
    ensures Good(t.(artifacts := after))
  {
  }

  lemma DeletionsWritten(t: Tables, after: map<Id, DeletionJob>)
    requires Good(t) && forall d :: d in after ==> OfActive(t.sessions, after[d].session)
    ensures Good(t.(deletions := after))
  {
  }

  lemma AuditGrown(t: Tables, entry: AuditEntry)
    requires Good(t)
    ensures Good(t.(audit := t.audit + [entry]))
  {
    forall s | Granted(t.audit, s)
      ensures Granted(t.audit + [entry], s)
    {
      var i :| 0 <= i < |t.audit| && t.audit[i].action == ConsentGranted && t.audit[i].session == s;
      assert (t.audit + [entry])[i] == t.audit[i];
    }
  }

  // ---- Requests ----

  lemma StatusWritten(t: Tables, sid: Id, next: SessionStatus, consent: bool)
    requires Good(t) && sid in t.sessions && CanTransition(t.sessions[sid].status, next, consent)
    requires (consent ==> t.sessions[sid].consent) && next != Processing
    ensures Good(SetStatus(t, sid, next))
  {
    var s := t.sessions[sid];
    GuardedMoves(s.status, next, consent);
    TraceStep(s, next);
    SessionWritten(t, sid, WithStatus(s, next));
  }

  lemma CreateKeeps(t: Tables, sid: Id, user: Id, hasDevice: bool)
    requires Good(t) && sid !in t.sessions
    ensures Good(Settle(t, CreateSession(t, sid, user, hasDevice)))
  {
    if hasDevice {
      var row := Session(user, Idle, false, None, None, None, [Idle]);
      var after := t.(sessions := t.sessions[sid := row]);
      assert MILESTONES[..1] == [Idle];
      assert [Idle][..0] == [];
      assert TraceOk(row);
      assert forall s :: OfActive(t.sessions, s) ==> OfActive(after.sessions, s);
    }
  }

  lemma ConsentKeeps(t: Tables, sid: Id, user: Id, grant: bool, now: Time)
    requires Good(t)
    ensures Good(Settle(t, UpdateConsent(t, sid, user, grant, now)))
  {
    if UpdateConsent(t, sid, user, grant, now).Ok? {
      var entry := AuditEntry(if grant then ConsentGranted else ConsentRevoked, sid, user, now);
      AuditGrown(t, entry);
      var logged := t.(audit := t.audit + [entry]);
      assert grant ==> Granted(logged.audit, sid) by {
        assert logged.audit[|t.audit|] == entry;
      }
      assert TraceOk(t.sessions[sid]);
      SessionWritten(logged, sid, t.sessions[sid].(consent := grant));
    }
  }

  /** The job table after a pipeline's creation. */
  function WithPipeline(jobs: map<Id, Job>, sid: Id, ids: seq<Id>, now: Time): map<Id, Job>
    requires |ids| == 3
  {
    jobs[ids[0] := StageJob(sid, Transcribe, now)]
        [ids[1] := StageJob(sid, Summarize, now)]
        [ids[2] := StageJob(sid, ExtractArtifact, now)]
  }

  predicate FreshIds(jobs: map<Id, Job>, ids: seq<Id>) {
    && |ids| == 3 && ids[0] != ids[1] && ids[0] != ids[2] && ids[1] != ids[2]
    && ids[0] !in jobs && ids[1] !in jobs && ids[2] !in jobs
  }

  lemma PipelineShape(jobs: map<Id, Job>, sid: Id, ids: seq<Id>, now: Time)
    requires FreshIds(jobs, ids)
    ensures var after := WithPipeline(jobs, sid, ids, now);
            && SameIdentity(jobs, after) && KeepsCompleted(jobs, after) && HasPipeline(after, sid)
            && (forall j :: j in jobs ==> after[j] == jobs[j])
            && (forall j :: j in after && j !in jobs ==> after[j].session == sid && after[j].status == Pending)
  {
    var after := WithPipeline(jobs, sid, ids, now);
    assert after[ids[0]].key == PipelineKey(sid, Transcribe);
    assert after[ids[1]].key == PipelineKey(sid, Summarize);
    assert after[ids[2]].key == PipelineKey(sid, ExtractArtifact);
  }

  lemma PipelineKeysOk(jobs: map<Id, Job>, sid: Id, ids: seq<Id>, now: Time)
    requires FreshIds(jobs, ids) && KeysOk(jobs) && forall j :: j in jobs ==> jobs[j].session != sid
    ensures KeysOk(WithPipeline(jobs, sid, ids, now))
  {
    PipelineShape(jobs, sid, ids, now);
    var after := WithPipeline(jobs, sid, ids, now);
    forall i, j | i in after && j in after && after[i].key == after[j].key
      ensures i == j
    {
      assert i in jobs ==> after[i].key.session != sid;
      assert j in jobs ==> after[j].key.session != sid;
    }
  }

  lemma PipelineCausesOk(jobs: map<Id, Job>, sid: Id, ids: seq<Id>, now: Time)
    requires FreshIds(jobs, ids) && CausesOk(jobs) && PayloadsOk(jobs)
    ensures var after := WithPipeline(jobs, sid, ids, now); CausesOk(after) && PayloadsOk(after)
  {
    PipelineShape(jobs, sid, ids, now);
    var after := WithPipeline(jobs, sid, ids, now);
    assert PayloadsOk(after);
    forall j | j in after && after[j].status == Completed
               && (after[j].jobType == Summarize || after[j].jobType == ExtractArtifact)
      ensures Transcribed(after, after[j].session)
    {
      assert j in jobs && Transcribed(jobs, jobs[j].session);
      TranscribedKept(jobs, after, jobs[j].session);
    }
  }

  lemma PipelineRowsOk(t: Tables, sid: Id, row: Session, after: map<Id, Job>, events: seq<Event>)
    requires RowsOk(t) && sid in t.sessions && !Early(row.status) && row.audioKey.Some?
    requires SameIdentity(t.jobs, after) && HasPipeline(after, sid)
    requires forall j :: j in after && j !in t.jobs ==> after[j].session == sid
    ensures RowsOk(t.(sessions := t.sessions[sid := row], jobs := after, events := events))
  {
    var sessions := t.sessions[sid := row];
    assert forall s :: OfActive(t.sessions, s) ==> OfActive(sessions, s);
    forall s | s in sessions && !Early(sessions[s].status)
      ensures HasPipeline(after, s)
    {
      if s != sid {
        PipelineKept(t.jobs, after, s);
      }
    }
  }

  lemma PipelineAdded(t: Tables, sid: Id, ids: seq<Id>, now: Time)
    requires Good(t) && FreshIds(t.jobs, ids)
    requires sid in t.sessions && t.sessions[sid].status == Capturing && t.sessions[sid].audioKey.Some?
    ensures Good(t.(sessions := t.sessions[sid := WithStatus(t.sessions[sid], Processing)],
                    jobs := WithPipeline(t.jobs, sid, ids, now),
                    events := t.events + [JobCreated(ids[0]), JobCreated(ids[1]), JobCreated(ids[2])]))
  {
    var after, row := WithPipeline(t.jobs, sid, ids, now), WithStatus(t.sessions[sid], Processing);
    var events := t.events + [JobCreated(ids[0]), JobCreated(ids[1]), JobCreated(ids[2])];
    PipelineShape(t.jobs, sid, ids, now);
    PipelineKeysOk(t.jobs, sid, ids, now);
    PipelineCausesOk(t.jobs, sid, ids, now);
    PipelineRowsOk(t, sid, row, after, events);
    TraceStep(t.sessions[sid], Processing);
    PipelineResult(t, sid, row, after, events);
  }

  lemma PipelineResult(t: Tables, sid: Id, row: Session, after: map<Id, Job>, events: seq<Event>)
    requires Good(t) && sid in t.sessions && TraceOk(row) && t.sessions[sid].status == Capturing
    requires row.consent == t.sessions[sid].consent && row.status == Processing
    requires KeysOk(after) && CausesOk(after) && PayloadsOk(after)
    requires RowsOk(t.(sessions := t.sessions[sid := row], jobs := after, events := events))
    ensures Good(t.(sessions := t.sessions[sid := row], jobs := after, events := events))
  {
  }

  /** From any status but capturing the pipeline's keys are taken already, so
      entering processing is refused. */
  lemma ProcessingOnlyOnce(t: Tables, sid: Id, ids: seq<Id>, now: Time)
    requires Good(t) && |ids| == 3 && OfActive(t.sessions, sid)
    ensures CreateJobs(SetStatus(t, sid, Processing), sid, ids, now).Raise?
  {
    assert PIPELINE[0] == Transcribe;
    assert KeyTaken(t.jobs, PipelineKey(sid, PIPELINE[0]));
  }

  lemma StatusKeeps(t: Tables, sid: Id, user: Id, target: Option<SessionStatus>, ids: seq<Id>, now: Time)
    requires Good(t) && FreshIds(t.jobs, ids)
    ensures Good(Settle(t, UpdateStatus(t, sid, user, target, ids, now)))
  {
    if UpdateStatus(t, sid, user, target, ids, now).Ok? {
      var s := t.sessions[sid];
      if target.value != Processing {
        StatusWritten(t, sid, target.value, s.consent);
      } else if s.status == Capturing {
        PipelineAdded(t, sid, ids, now);
      } else {
        ProcessingOnlyOnce(t, sid, ids, now);
      }
    }
  }

  lemma CancelKeeps(t: Tables, sid: Id, user: Id)
    requires Good(t)
    ensures Good(Settle(t, CancelSession(t, sid, user)))
  {
    if CancelSession(t, sid, user).Ok? {
      StatusWritten(t, sid, Cancelled, false);
    }
  }

  function Tombstone(s: Session, user: Id, now: Time): Session {
    WithStatus(s, Retracting).(deletedAt := Some(now), retractedBy := Some(user))
  }

  lemma TombstoneKeeps(t: Tables, sid: Id, user: Id, now: Time)
    requires Good(t) && sid in t.sessions && t.sessions[sid].status == SessionStatus.Published
    ensures Good(t.(sessions := t.sessions[sid := Tombstone(t.sessions[sid], user, now)]))
  {
    TraceStep(t.sessions[sid], Retracting);
    SessionWritten(t, sid, Tombstone(t.sessions[sid], user, now));
  }

  lemma SagaRowsKeep(t: Tables, sid: Id, audio: Option<FileKey>, ids: seq<Id>, now: Time)
    requires Good(t) && |ids| == 3 && OfActive(t.sessions, sid)
    ensures Good(t.(deletions := t.deletions[ids[0] := NewDeletion(sid, DeleteArtifactRows, None, now)]
                                            [ids[1] := NewDeletion(sid, DeleteLocalAudio, audio, now)]
                                            [ids[2] := NewDeletion(sid, DeleteFeishuDocs, None, now)]))
  {
    DeletionsWritten(t, t.deletions[ids[0] := NewDeletion(sid, DeleteArtifactRows, None, now)]
                                   [ids[1] := NewDeletion(sid, DeleteLocalAudio, audio, now)]
                                   [ids[2] := NewDeletion(sid, DeleteFeishuDocs, None, now)]);
  }

  lemma RetractKeeps(t: Tables, sid: Id, user: Id, ids: seq<Id>, now: Time)
    requires Good(t) && |ids| == 3
    ensures Good(Settle(t, RetractEndpoint(t, sid, user, ids, now)))
  {
    if RetractEndpoint(t, sid, user, ids, now).Ok? {
      TombstoneKeeps(t, sid, user, now);
      var t1 := t.(sessions := t.sessions[sid := Tombstone(t.sessions[sid], user, now)]);
      SagaRowsKeep(t1, sid, t.sessions[sid].audioKey, ids, now);
      AuditGrown(RetractSession(t, sid, user, ids, now).t, AuditEntry(RetractInitiated, sid, user, now));
    }
  }

  /** The service's session moves; it never asks for capturing or processing. */
  lemma TransitionKeeps(t: Tables, sid: Id, target: SessionStatus)
    requires Good(t) && target != Processing
    ensures Good(Settle(t, TransitionSession(t, sid, target)))
  {
    if TransitionSession(t, sid, target).Ok? {
      StatusWritten(t, sid, target, false);
    }
  }

  lemma ReviewedKeeps(t: Tables, aid: Id, verdict: ArtifactStatus, reviewer: Id, comment: string)
    requires Good(t) && aid in t.artifacts
    ensures Good(Reviewed(t, aid, verdict, reviewer, comment))
  {
    ArtifactsWritten(t, Reviewed(t, aid, verdict, reviewer, comment).artifacts);
  }

  /** The status writes that follow the last approval. */
  lemma ApprovalKeeps(t: Tables, sid: Id)
    requires Good(t)
    ensures Good(Settle(t, TransitionSession(t, sid, SessionStatus.Approved)))
    ensures var first := Settle(t, TransitionSession(t, sid, Reviewing));
            Good(Settle(t, TransitionSession(first, sid, SessionStatus.Approved)))
  {
    TransitionKeeps(t, sid, Reviewing);
    TransitionKeeps(t, sid, SessionStatus.Approved);
    TransitionKeeps(Settle(t, TransitionSession(t, sid, Reviewing)), sid, SessionStatus.Approved);
  }

  lemma ApproveKeeps(t: Tables, aid: Id, reviewer: Id, comment: string)
    requires Good(t) && aid in t.artifacts
    ensures Good(Settle(t, Approve(t, aid, reviewer, comment)))
  {
    ReviewedKeeps(t, aid, ArtifactApproved, reviewer, comment);
    ApprovalKeeps(Reviewed(t, aid, ArtifactApproved, reviewer, comment), t.artifacts[aid].session);
  }

  lemma RejectKeeps(t: Tables, aid: Id, reviewer: Id, comment: string, newId: Id, suffix: string, now: Time)
    requires Good(t) && aid in t.artifacts && newId !in t.jobs
    ensures Good(Settle(t, Reject(t, aid, reviewer, comment, newId, suffix, now)))
  {
    var reviewed, sid := Reviewed(t, aid, ArtifactRejected, reviewer, comment), t.artifacts[aid].session;
    ReviewedKeeps(t, aid, ArtifactRejected, reviewer, comment);
    if Reject(t, aid, reviewer, comment, newId, suffix, now).Ok? {
      JobAdded(reviewed, newId, NewJob(RetryKey(sid, suffix), sid, ExtractArtifact, RetryReason(comment), now));
    }
  }

  lemma PublishQueued(t: Tables, aid: Id, newId: Id, now: Time)
    requires Good(t) && newId !in t.jobs && aid in t.artifacts
             && !KeyTaken(t.jobs, PublishKey(t.artifacts[aid].session, aid))
    ensures var sid := t.artifacts[aid].session;
            Good(t.(jobs := t.jobs[newId := NewJob(PublishKey(sid, aid), sid, Publish, PublishOf(aid), now)]))
  {
    var sid := t.artifacts[aid].session;
    JobAdded(t, newId, NewJob(PublishKey(sid, aid), sid, Publish, PublishOf(aid), now));
  }

  lemma PublishKeeps(t: Tables, aid: Id, newId: Id, now: Time)
    requires Good(t) && newId !in t.jobs
    ensures Good(Settle(t, PublishEndpoint(t, aid, newId, now)))
  {
    if PublishEndpoint(t, aid, newId, now).Ok? {
      var sid := t.artifacts[aid].session;
      var row := NewJob(PublishKey(sid, aid), sid, Publish, PublishOf(aid), now);
      PublishQueued(t, aid, newId, now);
      TransitionKeeps(t.(jobs := t.jobs[newId := row]), sid, SessionStatus.Publishing);
    }
  }

  // ---- Worker commits ----

  lemma ReleaseShape(jobs: map<Id, Job>, now: Time)
    ensures var after := Release(jobs, now);
            && SameIdentity(jobs, after) && KeepsCompleted(jobs, after)
            && (PayloadsOk(jobs) ==> PayloadsOk(after))
            && forall j :: j in after && after[j].status == Completed ==> jobs[j].status == Completed
  {
  }

  lemma ReleaseKeeps(t: Tables, now: Time)
    requires Good(t)
    ensures Good(t.(jobs := Release(t.jobs, now)))
  {
    ReleaseShape(t.jobs, now);
    JobsWritten(t, Release(t.jobs, now));
  }

  /** A row that is not completed may take any uncompleted form. */
  lemma OpenRowShape(jobs: map<Id, Job>, j: Id, row: Job)
    requires PayloadsOk(jobs) && j in jobs && row.status != Completed && jobs[j].status != Completed
    requires row.key == jobs[j].key && row.session == jobs[j].session
    requires row.jobType == jobs[j].jobType && row.input == jobs[j].input
    ensures var after := jobs[j := row]; SameIdentity(jobs, after) && KeepsCompleted(jobs, after) && PayloadsOk(after)
  {
  }

  lemma OpenRowWritten(t: Tables, j: Id, row: Job)
    requires Good(t) && j in t.jobs && row.status != Completed && t.jobs[j].status != Completed
    requires row.key == t.jobs[j].key && row.session == t.jobs[j].session
    requires row.jobType == t.jobs[j].jobType && row.input == t.jobs[j].input
    ensures Good(WithJob(t, j, row))
  {
    OpenRowShape(t.jobs, j, row);
    JobsWritten(t, t.jobs[j := row]);
  }

  lemma ClaimKeeps(t: Tables, j: Id, now: Time)
    requires Good(t) && j in t.jobs && Claimable(Release(t.jobs, now)[j], now)
    ensures Good(Claim(t, j, now))
  {
    ReleaseKeeps(t, now);
    var released := t.(jobs := Release(t.jobs, now));
    OpenRowWritten(released, j, Worker.Start(released.jobs[j], now));
  }

  lemma LookupIsCause(t: Tables, sid: Id)
    requires HasTranscript(t, sid)
    ensures Transcribed(t.jobs, sid)
  {
    var i := TheRow(CompletedRows(t, sid, Transcribe));
    assert i in t.jobs && t.jobs[i].output.Some?;
  }

  /** A completion is the only row written, and has its cause. */
  lemma FinishShape(jobs: map<Id, Job>, j: Id, output: Option<Payload>)
    requires PayloadsOk(jobs) && j in jobs && (jobs[j].jobType == Transcribe ==> output.Some?)
    requires jobs[j].jobType == Summarize || jobs[j].jobType == ExtractArtifact ==> Transcribed(jobs, jobs[j].session)
    ensures var after := jobs[j := jobs[j].(status := Completed, output := output)];
            && SameIdentity(jobs, after) && KeepsCompleted(jobs, after) && PayloadsOk(after)
            && forall i :: i in after && after[i].status == Completed && jobs[i].status != Completed
                           && (after[i].jobType == Summarize || after[i].jobType == ExtractArtifact) ==>
                 Transcribed(jobs, after[i].session)
  {
  }

  lemma FinishKeeps(t: Tables, j: Id, output: Option<Payload>)
    requires Good(t) && j in t.jobs
    requires t.jobs[j].jobType == Transcribe ==> output.Some?
    requires t.jobs[j].jobType == Summarize || t.jobs[j].jobType == ExtractArtifact ==>
             Transcribed(t.jobs, t.jobs[j].session)
    ensures Good(Finish(t, j, output))
  {
    FinishShape(t.jobs, j, output);
    JobsWritten(t, t.jobs[j := t.jobs[j].(status := Completed, output := output)]);
  }

  lemma ExtractedRowsKeep(t: Tables, sid: Id, aid: Id, row: Artifact)
    requires Good(t) && OfActive(t.sessions, sid) && row.session == sid
    ensures Good(SetStatus(t.(artifacts := t.artifacts[aid := row]), sid, NeedsReview))
  {
    var t1 := t.(artifacts := t.artifacts[aid := row]);
    ArtifactsWritten(t, t1.artifacts);
    TraceStep(t1.sessions[sid], NeedsReview);
    SessionWritten(t1, sid, WithStatus(t1.sessions[sid], NeedsReview));
  }

  lemma ExtractKeeps(t: Tables, j: Id, p: Provider, aid: Id)
    requires Good(t) && j in t.jobs && t.jobs[j].jobType == ExtractArtifact && HandleExtract(t, j, p, aid).Ok?
    ensures Good(HandleExtract(t, j, p, aid).t)
  {
    var sid := t.jobs[j].session;
    var kind, title := KindOf(SummaryDocument(t, sid)), TitleOf(SummaryDocument(t, sid));
    var row := Artifact(sid, j, kind, title, PendingReview, None, "", None);
    ExtractedRowsKeep(t, sid, aid, row);
    LookupIsCause(t, sid);
    FinishKeeps(SetStatus(t.(artifacts := t.artifacts[aid := row]), sid, NeedsReview), j, Some(Extracted(kind, title)));
  }

  lemma TransitionTables(t: Tables, sid: Id, target: SessionStatus)
    ensures TransitionSession(t, sid, target).t == Settle(t, TransitionSession(t, sid, target))
    ensures TransitionSession(t, sid, target).t.jobs == t.jobs
  {
  }

  /** Marking published leaves good tables also where it raises. */
  lemma MarkKeeps(t: Tables, a: Id, now: Time)
    requires Good(t) && a in t.artifacts
    ensures Good(MarkPublished(t, a, now).t) && MarkPublished(t, a, now).t.jobs == t.jobs
  {
    var written := t.artifacts[a := t.artifacts[a].(status := ArtifactPublished, publishedAt := Some(now))];
    var sid := t.artifacts[a].session;
    ArtifactsWritten(t, written);
    TransitionKeeps(t.(artifacts := written), sid, SessionStatus.Published);
    TransitionTables(t.(artifacts := written), sid, SessionStatus.Published);
    assert MarkPublished(t, a, now).t == TransitionSession(t.(artifacts := written), sid, SessionStatus.Published).t;
  }

  lemma PublishRowsKeep(t: Tables, j: Id, now: Time)
    requires Good(t) && j in t.jobs && t.jobs[j].jobType == Publish
    ensures Good(HandlePublish(t, j, now).t)
  {
    var input := t.jobs[j].input;
    if input.PublishOf? {
      var a := input.artifact;
      if a in t.artifacts {
        MarkKeeps(t, a, now);
        if MarkPublished(t, a, now).Ok? {
          FinishKeeps(MarkPublished(t, a, now).t, j, Some(FeishuDoc(a)));
        }
      } else {
        FinishKeeps(t, j, Some(FeishuDoc(a)));
      }
    }
  }

  /** A handler's flushed tables are good whether it returns or raises. */
  lemma HandleKeeps(t: Tables, j: Id, p: Provider, aid: Id, now: Time)
    requires Good(t) && j in t.jobs && Registered(t.jobs[j].jobType)
    ensures Good(Handle(t, j, p, aid, now).t)
  {
    var sid := t.jobs[j].session;
    match t.jobs[j].jobType
    case Transcribe =>
      FinishKeeps(t, j, Some(Transcript(if p.ProviderAnswer? then p.transcript else "")));
    case Summarize =>
      if HandleSummarize(t, j, p).Ok? {
        LookupIsCause(t, sid);
        FinishKeeps(t, j, p.document);
      }
    case ExtractArtifact =>
      if HandleExtract(t, j, p, aid).Ok? {
        ExtractKeeps(t, j, p, aid);
      }
    case Publish => PublishRowsKeep(t, j, now);
  }

  /** The worker's failure record never touches a row that is not running. */
  lemma FailKeeps(t: Tables, j: Id, row: Job)
    requires Good(t) && j in t.jobs
    requires row == t.jobs[j] || (t.jobs[j].status == Running && row.status == Failed
             && row.key == t.jobs[j].key && row.session == t.jobs[j].session
             && row.jobType == t.jobs[j].jobType && row.input == t.jobs[j].input)
    ensures Good(WithJob(t, j, row))
  {
    if row == t.jobs[j] {
      assert t.jobs[j := row] == t.jobs;
    } else {
      OpenRowWritten(t, j, row);
    }
  }

  lemma ExecuteKeeps(t: Tables, j: Id, e: Surroundings, now: Time)
    requires Good(t) && j in t.jobs
    ensures Good(Execute(t, j, e, now).committed) && Good(Execute(t, j, e, now).pending)
  {
    assert KeyFits(t.jobs[j]) && Registered(t.jobs[j].jobType);
    HandleKeeps(t, j, e.provider, e.artifact, now);
    var r := Handle(t, j, e.provider, e.artifact, now);
    if r.Raise? {
      RaisingHandlerFlushes(t, j, e.provider, e.artifact, now);
      FailKeeps(t, j, FailByWorker(t.jobs[j], e.message, now));
      FailKeeps(r.t, j, FailByWorker(t.jobs[j], e.message, now));
    }
  }

  lemma DoneKeeps(t: Tables, d: Id)
    requires Good(t) && d in t.deletions
    ensures Good(DeletionDone(t, d))
  {
    var done := DeletionDone(t, d);
    ArtifactsWritten(t, done.artifacts);
    DeletionsWritten(t.(artifacts := done.artifacts), done.deletions);
  }

  lemma HalfKeeps(committed: Tables, pending: Tables, half: Half)
    requires Good(committed) && Good(pending) && (half.Attempt? ==> half.d in pending.deletions)
    ensures Good(AfterHalf(committed, pending, half))
  {
    if half.Attempt? && half.outcome.Done? {
      DoneKeeps(pending, half.d);
    } else if half.Attempt? && half.outcome.Refused? {
      DeletionsWritten(pending, DeletionFailed(pending, half.d, half.outcome.message).deletions);
    }
  }

  lemma RetryKeeps(t: Tables, j: Id, newId: Id, now: Time)
    requires Good(t) && j in t.jobs && t.jobs[j].status == Failed
    ensures Good(RetryJob(t, j, newId, now))
  {
    OpenRowWritten(t, j, MoveJob(t.jobs[j], Pending, None, None, now));
  }

  lemma BeatKeeps(t: Tables, j: Id, now: Time)
    requires Good(t) && j in t.jobs
    ensures Good(WithJob(t, j, Beat(t.jobs[j], now)))
  {
    if t.jobs[j].status == Running {
      OpenRowWritten(t, j, Beat(t.jobs[j], now));
    } else {
      assert t.jobs[j := t.jobs[j]] == t.jobs;
    }
  }

  lemma UploadKeeps(t: Tables, sid: Id, user: Id, key: FileKey)
    requires Good(t)
    ensures Good(Settle(t, UploadAudio(t, sid, user, key)))
  {
    if UploadAudio(t, sid, user, key).Ok? {
      assert TraceOk(t.sessions[sid]);
      SessionWritten(t, sid, t.sessions[sid].(audioKey := Some(key)));
    }
  }
}
