/** What holds in every reachable state of the engine, and over every run. */
module SystemTheorems {
  import opened Domain
  import opened StateMachine
  import opened Orchestrator
  import opened SessionApi
  import opened ArtifactService
  import opened Agents
  import opened Worker
  import opened System
  import opened SystemInvariant
  import opened SystemRuns

  function After(steps: seq<Step>): World {
    Run(EMPTY_WORLD, steps)
  }

  lemma {:induction false} RunOn(w: World, steps: seq<Step>)
    requires Inv(w)
    ensures Inv(Run(w, steps)) && Evolves(w.t, Run(w, steps).t)
  {
    if steps == [] {
      EvolvesReflexive(w.t);
    } else {
      var mid := Run(w, steps[..|steps| - 1]);
      RunOn(w, steps[..|steps| - 1]);
      StepKeeps(mid, steps[|steps| - 1]);
      StepEvolves(mid, steps[|steps| - 1]);
      EvolvesTransitive(w.t, mid.t, Run(w, steps).t);
    }
  }

  // ---- Reachable states ----

  predicate NoRows(t: Tables, sid: Id) {
    && (forall j :: j in t.jobs ==> t.jobs[j].session != sid)
    && (forall a :: a in t.artifacts ==> t.artifacts[a].session != sid)
    && (forall d :: d in t.deletions ==> t.deletions[d].session != sid)
  }

  predicate StageOnce(jobs: map<Id, Job>, sid: Id, stage: JobType) {
    exists j :: j in jobs && jobs[j].key == PipelineKey(sid, stage)
                && forall i :: i in jobs && jobs[i].key == PipelineKey(sid, stage) ==> i == j
  }

  /** Every session either has not started processing and owns nothing, or has
      its audio and exactly one job for each pipeline key. */
  lemma SessionsArePartitioned(steps: seq<Step>, sid: Id)
    requires sid in After(steps).t.sessions
    ensures var t := After(steps).t;
            if Early(t.sessions[sid].status) then NoRows(t, sid)
            else t.sessions[sid].audioKey.Some? && forall stage | stage in PIPELINE :: StageOnce(t.jobs, sid, stage)
  {
    Reachable(steps);
    var t := After(steps).t;
    if !Early(t.sessions[sid].status) {
      forall stage | stage in PIPELINE
        ensures StageOnce(t.jobs, sid, stage)
      {
        var j :| j in t.jobs && t.jobs[j].key == PipelineKey(sid, stage);
      }
    }
  }

  /** A session that is neither idle nor cancelled was granted consent once,
      whatever has been revoked since. */
  lemma ConsentWasGranted(steps: seq<Step>, sid: Id)
    requires sid in After(steps).t.sessions
    requires var s := After(steps).t.sessions[sid].status; s != Idle && s != Cancelled
    ensures Granted(After(steps).t.audit, sid)
  {
    Reachable(steps);
  }

  /** Publication is dominated by review: the statuses ever written to a
      published session pass through every milestone in order. */
  lemma PublishedThroughReview(steps: seq<Step>, sid: Id) returns (at: seq<nat>)
    requires sid in After(steps).t.sessions
    requires var s := After(steps).t.sessions[sid].status;
             s == SessionStatus.Published || s == Retracting || s == Retracted
    ensures Embedding(MILESTONES, After(steps).t.sessions[sid].trace, at)
  {
    Reachable(steps);
    var s := After(steps).t.sessions[sid];
    assert TraceOk(s) && MILESTONES[..8] == MILESTONES;
    at := SubsequenceHasEmbedding(MILESTONES, s.trace);
  }

  /** The history is what was written: no step shortens it, and its end is the status. */
  lemma TraceIsHistory(steps: seq<Step>, st: Step, sid: Id)
    requires sid in After(steps).t.sessions
    ensures var before, after := After(steps).t.sessions, Apply(After(steps), st).t.sessions;
            && sid in after
            && before[sid].trace <= after[sid].trace
            && after[sid].trace != [] && after[sid].trace[|after[sid].trace| - 1] == after[sid].status
  {
    Reachable(steps);
    StepKeeps(After(steps), st);
    StepEvolves(After(steps), st);
    assert TraceOk(Apply(After(steps), st).t.sessions[sid]);
    assert SessionEvolves(After(steps).t.sessions[sid], Apply(After(steps), st).t.sessions[sid]);
  }

  /** A session never has two transcription or two summary jobs, so the
      handlers' lookups never see two rows. */
  lemma LookupsAreUnambiguous(steps: seq<Step>, i: Id, j: Id)
    requires var jobs := After(steps).t.jobs;
             && i in jobs && j in jobs && jobs[i].session == jobs[j].session && jobs[i].jobType == jobs[j].jobType
             && (jobs[i].jobType == Transcribe || jobs[i].jobType == Summarize)
    ensures i == j
  {
    Reachable(steps);
    var jobs := After(steps).t.jobs;
    assert KeyFits(jobs[i]) && KeyFits(jobs[j]);
  }

  /** A completed summary or extraction has a completed transcription with a
      payload behind it. */
  lemma StagesHaveCauses(steps: seq<Step>, j: Id)
    requires var jobs := After(steps).t.jobs;
             && j in jobs && jobs[j].status == Completed
             && (jobs[j].jobType == Summarize || jobs[j].jobType == ExtractArtifact)
    ensures Transcribed(After(steps).t.jobs, After(steps).t.jobs[j].session)
  {
    Reachable(steps);
  }

  // ---- Over runs ----

  /** Completions, tombstones and audit entries are for good. */
  lemma NothingIsUndone(steps: seq<Step>, more: seq<Step>)
    ensures var before, after := After(steps).t, Run(After(steps), more).t;
            && KeepsCompleted(before.jobs, after.jobs)
            && before.audit <= after.audit
            && forall s :: s in before.sessions && before.sessions[s].deletedAt.Some? ==>
                 s in after.sessions && after.sessions[s].deletedAt.Some?
  {
    Reachable(steps);
    RunOn(After(steps), more);
    var before, after := After(steps).t, Run(After(steps), more).t;
    assert forall s :: s in before.sessions ==>
             s in after.sessions && SessionEvolves(before.sessions[s], after.sessions[s]);
  }

  lemma EarlyKeysFree(t: Tables, sid: Id)
    requires RowsOk(t) && KeysOk(t.jobs) && !OfActive(t.sessions, sid)
    ensures forall stage | stage in PIPELINE :: !KeyTaken(t.jobs, PipelineKey(sid, stage))
  {
    forall j | j in t.jobs
      ensures t.jobs[j].key.session != sid
    {
      assert KeyFits(t.jobs[j]) && OfActive(t.sessions, t.jobs[j].session);
    }
  }

  lemma PipelineFree(t: Tables, sid: Id, ids: seq<Id>, now: Time)
    requires |ids| == 3 && forall stage | stage in PIPELINE :: !KeyTaken(t.jobs, PipelineKey(sid, stage))
    requires sid in t.sessions
    ensures CreateJobs(SetStatus(t, sid, Processing), sid, ids, now).Ok?
  {
  }

  /** The jobs' keys decide, once the session's own guards are met. */
  lemma ProcessingRequest(t: Tables, sid: Id, user: Id, ids: seq<Id>, now: Time)
    requires |ids| == 3
    ensures UpdateStatus(t, sid, user, Some(Processing), ids, now).Ok? <==>
            && Owned(t, sid, user) && CanTransition(t.sessions[sid].status, Processing, t.sessions[sid].consent)
            && t.sessions[sid].audioKey.Some? && CreateJobs(SetStatus(t, sid, Processing), sid, ids, now).Ok?
  {
  }

  lemma IntoProcessing(from: SessionStatus, consent: bool)
    ensures CanTransition(from, Processing, consent) <==>
            from == Capturing || from == Processing || from == ProcessingFailed
  {
  }

  lemma ProcessingGuard(t: Tables, sid: Id, user: Id, ids: seq<Id>, now: Time)
    requires Good(t) && |ids| == 3
    ensures UpdateStatus(t, sid, user, Some(Processing), ids, now).Ok? <==>
            Owned(t, sid, user) && t.sessions[sid].status == Capturing && t.sessions[sid].audioKey.Some?
  {
    ProcessingRequest(t, sid, user, ids, now);
    if sid in t.sessions {
      IntoProcessing(t.sessions[sid].status, t.sessions[sid].consent);
      if OfActive(t.sessions, sid) {
        ProcessingOnlyOnce(t, sid, ids, now);
      } else {
        EarlyKeysFree(t, sid);
        PipelineFree(t, sid, ids, now);
      }
    }
  }

  /** Entering processing is accepted exactly for the owner's capturing session
      with audio. In particular a session whose processing failed never
      processes again, though the transition table has that edge. */
  lemma ProcessingAccepted(steps: seq<Step>, sid: Id, user: Id, ids: seq<Id>, now: Time)
    requires |ids| == 3
    ensures var t := After(steps).t;
            UpdateStatus(t, sid, user, Some(Processing), ids, now).Ok? <==>
            Owned(t, sid, user) && t.sessions[sid].status == Capturing && t.sessions[sid].audioKey.Some?
  {
    Reachable(steps);
    ProcessingGuard(After(steps).t, sid, user, ids, now);
  }

  /** A session that owns a job never enters processing again. */
  lemma ProcessingRefusedLater(w: World, more: seq<Step>, j: Id, user: Id, ids: seq<Id>)
    requires Inv(w) && j in w.t.jobs && |ids| == 3
    ensures var later := Run(w, more);
            UpdateStatus(later.t, w.t.jobs[j].session, user, Some(Processing), ids, later.now).Raise?
  {
    RunOn(w, more);
    var later, sid := Run(w, more), w.t.jobs[j].session;
    assert later.t.jobs[j].session == sid;
    ProcessingGuard(later.t, sid, user, ids, later.now);
  }

  lemma EntryMakesJob(t: Tables, sid: Id, user: Id, ids: seq<Id>, now: Time)
    requires FreshIds(t.jobs, ids)
    ensures var r := UpdateStatus(t, sid, user, Some(Processing), ids, now);
            r.Ok? ==> ids[2] in r.t.jobs && r.t.jobs[ids[2]].session == sid
  {
  }

  /** Over any run, entering processing succeeds at most once per session. */
  lemma ProcessingOnce(steps: seq<Step>, sid: Id, user: Id, ids: seq<Id>, more: seq<Step>, user': Id, ids': seq<Id>)
    requires Enabled(After(steps), StatusStep(sid, user, Some(Processing), ids))
    requires UpdateStatus(After(steps).t, sid, user, Some(Processing), ids, After(steps).now).Ok?
    requires |ids'| == 3
    ensures var later := Run(Apply(After(steps), StatusStep(sid, user, Some(Processing), ids)), more);
            UpdateStatus(later.t, sid, user', Some(Processing), ids', later.now).Raise?
  {
    Reachable(steps);
    StepKeeps(After(steps), StatusStep(sid, user, Some(Processing), ids));
    EntryMakesJob(After(steps).t, sid, user, ids, After(steps).now);
    ProcessingRefusedLater(Apply(After(steps), StatusStep(sid, user, Some(Processing), ids)), more, ids[2], user',
                           ids');
  }

  lemma IntoPublishing(from: SessionStatus)
    ensures CanTransition(from, SessionStatus.Publishing, false) <==>
            from == SessionStatus.Approved || from == SessionStatus.Publishing || from == PublishFailed
  {
  }

  lemma PublishRequest(t: Tables, aid: Id, newId: Id, now: Time)
    requires aid in t.artifacts && t.artifacts[aid].session in t.sessions
    ensures var sid := t.artifacts[aid].session;
            PublishEndpoint(t, aid, newId, now).Ok? <==>
            && t.artifacts[aid].status == ArtifactApproved && !KeyTaken(t.jobs, PublishKey(sid, aid))
            && CanTransition(t.sessions[sid].status, SessionStatus.Publishing, false)
  {
  }

  /** A publication is accepted exactly for an approved artifact without a
      publish job whose session is approved, being published, or failed to be. */
  lemma PublishAccepted(steps: seq<Step>, aid: Id, newId: Id)
    ensures var t := After(steps).t; aid in t.artifacts ==> t.artifacts[aid].session in t.sessions
    ensures var w := After(steps);
            PublishEndpoint(w.t, aid, newId, w.now).Ok? <==>
            && aid in w.t.artifacts && w.t.artifacts[aid].status == ArtifactApproved
            && !KeyTaken(w.t.jobs, PublishKey(w.t.artifacts[aid].session, aid))
            && var status := w.t.sessions[w.t.artifacts[aid].session].status;
               status == SessionStatus.Approved || status == SessionStatus.Publishing || status == PublishFailed
  {
    Reachable(steps);
    var w := After(steps);
    if aid in w.t.artifacts {
      assert OfActive(w.t.sessions, w.t.artifacts[aid].session);
      PublishRequest(w.t, aid, newId, w.now);
      IntoPublishing(w.t.sessions[w.t.artifacts[aid].session].status);
    }
  }

  /** Cancelling is accepted exactly while the session owns no job, artifact or
      deletion job and is not cancelled yet. */
  lemma CancelAccepted(steps: seq<Step>, sid: Id, user: Id)
    ensures var t := After(steps).t;
            CancelSession(t, sid, user).Ok? <==>
            Owned(t, sid, user) && t.sessions[sid].status != Cancelled && NoRows(t, sid)
  {
    Reachable(steps);
    var t := After(steps).t;
    if sid in t.sessions {
      IntoCancelled(t.sessions[sid].status);
      EarlyOwnsNothing(t, sid);
    }
  }

  lemma IntoCancelled(from: SessionStatus)
    ensures CanTransition(from, Cancelled, false) <==> Early(from) && from != Cancelled
  {
  }

  lemma EarlyOwnsNothing(t: Tables, sid: Id)
    requires RowsOk(t) && KeysOk(t.jobs) && sid in t.sessions
    ensures Early(t.sessions[sid].status) <==> NoRows(t, sid)
  {
    if !Early(t.sessions[sid].status) {
      assert PIPELINE[0] == Transcribe && KeyTaken(t.jobs, PipelineKey(sid, PIPELINE[0]));
      var j :| j in t.jobs && t.jobs[j].key == PipelineKey(sid, PIPELINE[0]);
      assert KeyFits(t.jobs[j]);
    }
  }

  lemma {:induction false} DrawnGrows(w: World, steps: seq<Step>, a: Id)
    requires a in w.drawn
    ensures a in Run(w, steps).drawn && Run(w, steps).drawn[a] == w.drawn[a]
  {
    if steps != [] {
      DrawnGrows(w, steps[..|steps| - 1], a);
    }
  }

  lemma PublishRefused(w: World, j: Id, sid: Id, aid: Id, newId: Id)
    requires DrawnOk(w) && aid in w.drawn && w.drawn[aid] == sid
    requires j in w.t.jobs && w.t.jobs[j].key == PublishKey(sid, aid)
    ensures PublishEndpoint(w.t, aid, newId, w.now).Raise?
  {
    assert KeyTaken(w.t.jobs, PublishKey(sid, aid));
  }

  lemma PublishRefusedLater(w: World, more: seq<Step>, j: Id, aid: Id, newId: Id)
    requires Inv(w) && j in w.t.jobs && aid in w.drawn && w.t.jobs[j].key == PublishKey(w.drawn[aid], aid)
    ensures var later := Run(w, more);
            PublishEndpoint(later.t, aid, newId, later.now).Raise?
  {
    RunOn(w, more);
    DrawnGrows(w, more, aid);
    PublishRefused(Run(w, more), j, w.drawn[aid], aid, newId);
  }

  lemma RequestTakesKey(t: Tables, aid: Id, newId: Id, now: Time)
    ensures var r := PublishEndpoint(t, aid, newId, now);
            r.Ok? ==> newId in r.t.jobs && r.t.jobs[newId].key == PublishKey(t.artifacts[aid].session, aid)
  {
  }

  /** Over any run, a publication of an artifact is requested at most once,
      whatever becomes of the first request. */
  lemma PublishOnce(steps: seq<Step>, aid: Id, newId: Id, more: seq<Step>, newId': Id)
    requires Enabled(After(steps), PublishStep(aid, newId))
    requires PublishEndpoint(After(steps).t, aid, newId, After(steps).now).Ok?
    ensures var later := Run(Apply(After(steps), PublishStep(aid, newId)), more);
            PublishEndpoint(later.t, aid, newId', later.now).Raise?
  {
    Reachable(steps);
    StepKeeps(After(steps), PublishStep(aid, newId));
    RequestTakesKey(After(steps).t, aid, newId, After(steps).now);
    PublishRefusedLater(Apply(After(steps), PublishStep(aid, newId)), more, newId, aid, newId');
  }

  // ---- Leaving the terminal states ----

  predicate SameStatus(t: Tables, after: Tables, sid: Id) {
    sid in t.sessions && sid in after.sessions && after.sessions[sid].status == t.sessions[sid].status
  }

  lemma TransitionFromTerminal(t: Tables, other: Id, target: SessionStatus, sid: Id)
    requires sid in t.sessions && Terminal(t.sessions[sid].status)
    ensures SameStatus(t, TransitionSession(t, other, target).t, sid)
  {
  }

  lemma StatusFromTerminal(t: Tables, other: Id, user: Id, target: Option<SessionStatus>, ids: seq<Id>, now: Time,
                           sid: Id)
    requires |ids| == 3 && sid in t.sessions && Terminal(t.sessions[sid].status)
    ensures SameStatus(t, Settle(t, UpdateStatus(t, other, user, target, ids, now)), sid)
  {
  }

  lemma RetractFromTerminal(t: Tables, other: Id, user: Id, ids: seq<Id>, now: Time, sid: Id)
    requires |ids| == 3 && sid in t.sessions && Terminal(t.sessions[sid].status)
    ensures SameStatus(t, Settle(t, RetractEndpoint(t, other, user, ids, now)), sid)
  {
  }

  lemma CancelFromTerminal(t: Tables, other: Id, user: Id, sid: Id)
    requires sid in t.sessions && Terminal(t.sessions[sid].status)
    ensures SameStatus(t, Settle(t, CancelSession(t, other, user)), sid)
  {
  }

  lemma RequestFromTerminal(w: World, st: Step, sid: Id)
    requires Enabled(w, st) && sid in w.t.sessions && Terminal(w.t.sessions[sid].status)
    requires !st.FinishStep? && !st.ReviewStep? && !st.PublishStep?
    ensures SameStatus(w.t, Apply(w, st).t, sid)
  {
    match st
    case StatusStep(other, user, target, ids) => StatusFromTerminal(w.t, other, user, target, ids, w.now, sid);
    case RetractStep(other, user, ids) => RetractFromTerminal(w.t, other, user, ids, w.now, sid);
    case CancelStep(other, user) => CancelFromTerminal(w.t, other, user, sid);
    case _ =>
  }

  lemma ApproveFromTerminal(t: Tables, aid: Id, user: Id, comment: string, sid: Id)
    requires sid in t.sessions && Terminal(t.sessions[sid].status) && aid in t.artifacts
    ensures SameStatus(t, Approve(t, aid, user, comment).t, sid)
  {
    var reviewed, other := Reviewed(t, aid, ArtifactApproved, user, comment), t.artifacts[aid].session;
    TransitionFromTerminal(reviewed, other, Reviewing, sid);
    TransitionFromTerminal(reviewed, other, SessionStatus.Approved, sid);
    TransitionFromTerminal(TransitionSession(reviewed, other, Reviewing).t, other, SessionStatus.Approved, sid);
  }

  lemma ReviewFromTerminal(w: World, st: Step, sid: Id)
    requires st.ReviewStep? && sid in w.t.sessions && Terminal(w.t.sessions[sid].status)
    ensures SameStatus(w.t, Apply(w, st).t, sid)
  {
    if st.aid in w.t.artifacts {
      ApproveFromTerminal(w.t, st.aid, st.user, st.comment, sid);
    }
  }

  lemma PublishFromTerminal(t: Tables, aid: Id, newId: Id, now: Time, sid: Id)
    requires sid in t.sessions && Terminal(t.sessions[sid].status) && aid in t.artifacts
    ensures SameStatus(t, RequestPublish(t, aid, newId, now).t, sid)
    ensures SameStatus(t, MarkPublished(t, aid, now).t, sid)
  {
  }

  lemma ExecuteFromTerminal(t: Tables, j: Id, e: Surroundings, now: Time, sid: Id)
    requires j in t.jobs && KeyFits(t.jobs[j]) && sid in t.sessions && Terminal(t.sessions[sid].status)
    ensures var x := Execute(t, j, e, now);
            var extracts := t.jobs[j].session == sid && t.jobs[j].jobType == ExtractArtifact
                            && HandleExtract(t, j, e.provider, e.artifact).Ok?;
            && x.committed.sessions == x.pending.sessions
            && sid in x.committed.sessions
            && x.committed.sessions[sid].status == if extracts then NeedsReview else t.sessions[sid].status
  {
    RaisingHandlerFlushesOnly(t, j, e, now);
    if t.jobs[j].jobType == Publish && t.jobs[j].input.PublishOf? && t.jobs[j].input.artifact in t.artifacts {
      PublishFromTerminal(t, t.jobs[j].input.artifact, 0, now, sid);
    }
  }

  lemma FinishFromTerminal(w: World, st: Step, sid: Id)
    requires KeysOk(w.t.jobs) && Enabled(w, st) && st.FinishStep?
    requires sid in w.t.sessions && Terminal(w.t.sessions[sid].status)
    ensures SameStatus(w.t, Apply(w, st).t, sid) <==> !Extracts(w, st, sid)
  {
    ExecuteFromTerminal(w.t, w.executors[st.w], st.e, w.now, sid);
  }

  lemma RaisingHandlerFlushesOnly(t: Tables, j: Id, e: Surroundings, now: Time)
    requires j in t.jobs && Registered(t.jobs[j].jobType)
    ensures Handle(t, j, e.provider, e.artifact, now).Raise? ==>
              Handle(t, j, e.provider, e.artifact, now).t.sessions == t.sessions
  {
    RaisingHandlerFlushes(t, j, e.provider, e.artifact, now);
  }

  /** A terminal session is left by exactly one kind of step: the commit of an
      extraction for it, which writes needs_review past the transition table. */
  lemma TerminalLeftByExtraction(w: World, st: Step, sid: Id)
    requires KeysOk(w.t.jobs) && sid in w.t.sessions && Terminal(w.t.sessions[sid].status)
    ensures SameStatus(w.t, Apply(w, st).t, sid) <==> !Extracts(w, st, sid)
  {
    if Enabled(w, st) {
      if st.FinishStep? {
        FinishFromTerminal(w, st, sid);
      } else if st.ReviewStep? {
        ReviewFromTerminal(w, st, sid);
      } else if st.PublishStep? {
        if st.aid in w.t.artifacts {
          PublishFromTerminal(w.t, st.aid, st.newId, w.now, sid);
        }
      } else {
        RequestFromTerminal(w, st, sid);
      }
    }
  }

  lemma CancelledStep(w: World, st: Step, sid: Id)
    requires RowsOk(w.t) && KeysOk(w.t.jobs) && sid in w.t.sessions && w.t.sessions[sid].status == Cancelled
    ensures sid in Apply(w, st).t.sessions && Apply(w, st).t.sessions[sid].status == Cancelled
  {
    TerminalLeftByExtraction(w, st, sid);
    assert forall j :: j in w.t.jobs ==> OfActive(w.t.sessions, w.t.jobs[j].session);
  }

  /** Cancelled is absorbing: a cancelled session owns no job, so not even an
      extraction's direct write reaches it. */
  lemma {:induction false} CancelledForGood(steps: seq<Step>, more: seq<Step>, sid: Id)
    requires sid in After(steps).t.sessions && After(steps).t.sessions[sid].status == Cancelled
    ensures var after := Run(After(steps), more).t.sessions; sid in after && after[sid].status == Cancelled
  {
    if more != [] {
      CancelledForGood(steps, more[..|more| - 1], sid);
      Reachable(steps);
      RunOn(After(steps), more[..|more| - 1]);
      CancelledStep(Run(After(steps), more[..|more| - 1]), more[|more| - 1], sid);
    }
  }
}
