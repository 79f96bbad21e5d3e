/** Every run of the engine keeps the invariant. */
module SystemRuns {
  import opened Domain
  import opened StateMachine
  import opened Orchestrator
  import opened SessionApi
  import opened ArtifactService
  import opened Agents
  import opened Worker
  import opened System
  import opened SystemInvariant

  // ---- Files ----

  /** No session's audio key has changed or appeared. */
  predicate SameAudio(t: Tables, after: Tables) {
    forall s :: s in after.sessions && after.sessions[s].audioKey.Some? ==>
      s in t.sessions && t.sessions[s].audioKey == after.sessions[s].audioKey
  }

  /** A commit that leaves audio keys and deletion jobs alone. */
  predicate FileNeutral(t: Tables, after: Tables) {
    SameAudio(t, after) && after.deletions == t.deletions
  }

  lemma StatusNeutral(t: Tables, sid: Id, user: Id, target: Option<SessionStatus>, ids: seq<Id>, now: Time)
    requires |ids| == 3
    ensures FileNeutral(t, Settle(t, UpdateStatus(t, sid, user, target, ids, now)))
  {
  }

  lemma PublishNeutral(t: Tables, aid: Id, newId: Id, now: Time)
    ensures FileNeutral(t, Settle(t, PublishEndpoint(t, aid, newId, now)))
  {
  }

  /** Requests other than an upload and a retraction leave the files' records alone. */
  lemma RequestNeutral(w: World, st: Step)
    requires Enabled(w, st)
    requires st.Tick? || st.CreateStep? || st.ConsentStep? || st.StatusStep? || st.CancelStep? || st.PublishStep?
             || st.RetryStep?
    ensures FileNeutral(w.t, Apply(w, st).t)
  {
    if st.StatusStep? {
      StatusNeutral(w.t, st.sid, st.user, st.target, st.ids, w.now);
    } else if st.PublishStep? {
      PublishNeutral(w.t, st.aid, st.newId, w.now);
    }
  }

  lemma ReviewNeutral(t: Tables, aid: Id, approve: bool, user: Id, comment: string, newId: Id, suffix: string,
                      now: Time)
    ensures FileNeutral(t, Settle(t, ReviewEndpoint(t, aid, approve, user, comment, newId, suffix, now)))
  {
  }

  lemma HandleNeutral(t: Tables, j: Id, p: Provider, aid: Id, now: Time)
    requires j in t.jobs && Registered(t.jobs[j].jobType)
    ensures FileNeutral(t, Handle(t, j, p, aid, now).t)
  {
  }

  lemma ExecuteNeutral(t: Tables, j: Id, e: Surroundings, now: Time)
    requires j in t.jobs
    ensures FileNeutral(t, Execute(t, j, e, now).committed) && FileNeutral(t, Execute(t, j, e, now).pending)
  {
    if Registered(t.jobs[j].jobType) {
      HandleNeutral(t, j, e.provider, e.artifact, now);
    }
  }

  lemma NeutralKeepsFiles(w: World, after: World)
    requires FilesOk(w) && FileNeutral(w.t, after.t) && after.files == w.files && after.uploads == w.uploads
    ensures FilesOk(after)
  {
  }

  lemma UploadKeepsFiles(w: World, sid: Id, user: Id, key: FileKey)
    requires FilesOk(w) && key !in w.uploads && UploadAudio(w.t, sid, user, key).Ok?
    ensures FilesOk(w.(t := UploadAudio(w.t, sid, user, key).t, files := w.files + {key},
                       uploads := w.uploads[key := sid]))
  {
  }

  lemma RetractKeepsFiles(w: World, sid: Id, user: Id, ids: seq<Id>)
    requires FilesOk(w) && Enabled(w, RetractStep(sid, user, ids))
    ensures FilesOk(Apply(w, RetractStep(sid, user, ids)))
  {
  }

  /** A deletion half, on any pending writes that leave the files' records alone. */
  lemma HalfKeepsFiles(w: World, committed: Tables, pending: Tables, half: Half)
    requires FilesOk(w) && FileNeutral(w.t, committed) && FileNeutral(w.t, pending)
    requires HalfEnabled(pending, w.files, w.now, half)
    ensures FilesOk(w.(t := AfterHalf(committed, pending, half), files := FilesAfter(w.files, pending, half)))
  {
  }

  // ---- Steps ----

  lemma RequestKeeps(w: World, st: Step)
    requires Inv(w) && Enabled(w, st)
    requires st.CreateStep? || st.ConsentStep? || st.StatusStep? || st.CancelStep? || st.ReviewStep? || st.PublishStep?
             || st.RetryStep?
    ensures Good(Apply(w, st).t)
  {
    match st
    case CreateStep(sid, user, hasDevice) => CreateKeeps(w.t, sid, user, hasDevice);
    case ConsentStep(sid, user, grant) => ConsentKeeps(w.t, sid, user, grant, w.now);
    case StatusStep(sid, user, target, ids) => StatusKeeps(w.t, sid, user, target, ids, w.now);
    case CancelStep(sid, user) => CancelKeeps(w.t, sid, user);
    case ReviewStep(aid, approve, user, comment, newId, suffix) =>
      if aid in w.t.artifacts {
        ApproveKeeps(w.t, aid, user, comment);
        RejectKeeps(w.t, aid, user, comment, newId, suffix, w.now);
      }
    case PublishStep(aid, newId) => PublishKeeps(w.t, aid, newId, w.now);
    case RetryStep(j, newId) => RetryKeeps(w.t, j, newId, w.now);
  }

  lemma FinishStepKeeps(w: World, st: Step)
    requires Inv(w) && Enabled(w, st) && st.FinishStep?
    ensures Good(Apply(w, st).t) && FilesOk(Apply(w, st))
  {
    var j := w.executors[st.w];
    var run := Execute(w.t, j, st.e, w.now);
    ExecuteKeeps(w.t, j, st.e, w.now);
    ExecuteNeutral(w.t, j, st.e, w.now);
    HalfKeeps(run.committed, run.pending, st.half);
    HalfKeepsFiles(w, run.committed, run.pending, st.half);
  }

  lemma DeletionStepKeeps(w: World, st: Step)
    requires Inv(w) && Enabled(w, st) && st.DeletionStep?
    ensures Good(Apply(w, st).t) && FilesOk(Apply(w, st))
  {
    var pending := if st.idle then w.t.(jobs := Release(w.t.jobs, w.now)) else w.t;
    ReleaseKeeps(w.t, w.now);
    HalfKeeps(w.t, pending, st.half);
    HalfKeepsFiles(w, w.t, pending, st.half);
  }

  // ---- How rows evolve ----

  predicate SessionEvolves(s: Session, after: Session) {
    && after.user == s.user && s.trace <= after.trace
    && (after.status != s.status ==> |s.trace| < |after.trace|)
    && (s.deletedAt.Some? ==> after.deletedAt.Some?)
  }

  predicate DeletionEvolves(d: DeletionJob, after: DeletionJob) {
    && after.kind == d.kind && after.session == d.session && after.target == d.target
    && (d.status == Completed ==> after.status == Completed)
  }

  /** Rows are never removed from these tables and keep their identity; a
      completion, a tombstone, a written status and an audit entry are for good. */
  predicate Evolves(t: Tables, after: Tables) {
    && SameIdentity(t.jobs, after.jobs) && KeepsCompleted(t.jobs, after.jobs)
    && (forall s :: s in t.sessions ==> s in after.sessions && SessionEvolves(t.sessions[s], after.sessions[s]))
    && (forall d :: d in t.deletions ==> d in after.deletions && DeletionEvolves(t.deletions[d], after.deletions[d]))
    && t.audit <= after.audit
  }

  lemma EvolvesTransitive(a: Tables, b: Tables, c: Tables)
    requires Evolves(a, b) && Evolves(b, c)
    ensures Evolves(a, c)
  {
    forall s | s in a.sessions
      ensures s in c.sessions && SessionEvolves(a.sessions[s], c.sessions[s])
    {
      assert SessionEvolves(a.sessions[s], b.sessions[s]) && SessionEvolves(b.sessions[s], c.sessions[s]);
    }
    forall d | d in a.deletions
      ensures d in c.deletions && DeletionEvolves(a.deletions[d], c.deletions[d])
    {
      assert DeletionEvolves(a.deletions[d], b.deletions[d]) && DeletionEvolves(b.deletions[d], c.deletions[d]);
    }
  }

  lemma EvolvesReflexive(t: Tables)
    ensures Evolves(t, t)
  {
  }

  lemma SessionRowEvolves(t: Tables, sid: Id, row: Session)
    requires sid in t.sessions && SessionEvolves(t.sessions[sid], row)
    ensures Evolves(t, t.(sessions := t.sessions[sid := row]))
  {
  }

  lemma JobRowEvolves(t: Tables, j: Id, row: Job)
    requires j in t.jobs ==>
               && row.key == t.jobs[j].key && row.session == t.jobs[j].session && row.jobType == t.jobs[j].jobType
               && row.input == t.jobs[j].input && (t.jobs[j].status == Completed ==> row.status == Completed)
    ensures Evolves(t, WithJob(t, j, row))
  {
  }

  lemma StatusEvolves(t: Tables, sid: Id, user: Id, target: Option<SessionStatus>, ids: seq<Id>, now: Time)
    requires FreshIds(t.jobs, ids)
    ensures Evolves(t, Settle(t, UpdateStatus(t, sid, user, target, ids, now)))
  {
    var r := UpdateStatus(t, sid, user, target, ids, now);
    if r.Ok? {
      SessionRowEvolves(t, sid, WithStatus(t.sessions[sid], target.value));
    }
  }

  lemma RetractEvolves(t: Tables, sid: Id, user: Id, ids: seq<Id>, now: Time)
    requires |ids| == 3 && ids[0] !in t.deletions && ids[1] !in t.deletions && ids[2] !in t.deletions
    ensures Evolves(t, Settle(t, RetractEndpoint(t, sid, user, ids, now)))
  {
    if RetractEndpoint(t, sid, user, ids, now).Ok? {
      SessionRowEvolves(t, sid, Tombstone(t.sessions[sid], user, now));
    }
  }

  lemma CreateEvolves(t: Tables, sid: Id, user: Id, hasDevice: bool)
    requires sid !in t.sessions
    ensures Evolves(t, Settle(t, CreateSession(t, sid, user, hasDevice)))
  {
  }

  lemma ConsentEvolves(t: Tables, sid: Id, user: Id, grant: bool, now: Time)
    ensures Evolves(t, Settle(t, UpdateConsent(t, sid, user, grant, now)))
  {
    if UpdateConsent(t, sid, user, grant, now).Ok? {
      SessionRowEvolves(t, sid, t.sessions[sid].(consent := grant));
    }
  }

  lemma UploadEvolves(t: Tables, sid: Id, user: Id, key: FileKey)
    ensures Evolves(t, Settle(t, UploadAudio(t, sid, user, key)))
  {
    if UploadAudio(t, sid, user, key).Ok? {
      SessionRowEvolves(t, sid, t.sessions[sid].(audioKey := Some(key)));
    }
  }

  lemma CancelEvolves(t: Tables, sid: Id, user: Id)
    ensures Evolves(t, Settle(t, CancelSession(t, sid, user)))
  {
    if CancelSession(t, sid, user).Ok? {
      SessionRowEvolves(t, sid, WithStatus(t.sessions[sid], Cancelled));
    }
  }

  lemma TransitionEvolves(t: Tables, sid: Id, target: SessionStatus)
    ensures Evolves(t, TransitionSession(t, sid, target).t)
  {
    if TransitionSession(t, sid, target).Ok? {
      SessionRowEvolves(t, sid, WithStatus(t.sessions[sid], target));
    }
  }

  lemma ReviewedEvolves(t: Tables, aid: Id, user: Id, comment: string)
    requires aid in t.artifacts
    ensures Evolves(t, Reviewed(t, aid, ArtifactApproved, user, comment))
  {
  }

  lemma ApproveEvolves(t: Tables, aid: Id, user: Id, comment: string)
    requires aid in t.artifacts
    ensures Evolves(t, Approve(t, aid, user, comment).t)
  {
    var reviewed, sid := Reviewed(t, aid, ArtifactApproved, user, comment), t.artifacts[aid].session;
    var first := TransitionSession(reviewed, sid, Reviewing).t;
    TransitionEvolves(reviewed, sid, Reviewing);
    TransitionEvolves(reviewed, sid, SessionStatus.Approved);
    TransitionEvolves(first, sid, SessionStatus.Approved);
    ReviewedEvolves(t, aid, user, comment);
    EvolvesTransitive(t, reviewed, first);
    EvolvesTransitive(t, first, TransitionSession(first, sid, SessionStatus.Approved).t);
    EvolvesTransitive(t, reviewed, TransitionSession(reviewed, sid, SessionStatus.Approved).t);
  }

  lemma RejectEvolves(t: Tables, aid: Id, user: Id, comment: string, newId: Id, suffix: string, now: Time)
    requires aid in t.artifacts && newId !in t.jobs
    ensures Evolves(t, Reject(t, aid, user, comment, newId, suffix, now).t)
  {
  }

  lemma ReviewEvolves(t: Tables, aid: Id, approve: bool, user: Id, comment: string, newId: Id, suffix: string,
                      now: Time)
    requires newId !in t.jobs
    ensures Evolves(t, Settle(t, ReviewEndpoint(t, aid, approve, user, comment, newId, suffix, now)))
  {
    if aid in t.artifacts && approve {
      ApproveEvolves(t, aid, user, comment);
    } else if aid in t.artifacts {
      RejectEvolves(t, aid, user, comment, newId, suffix, now);
    }
  }

  lemma PublishEvolves(t: Tables, aid: Id, newId: Id, now: Time)
    requires newId !in t.jobs
    ensures Evolves(t, Settle(t, PublishEndpoint(t, aid, newId, now)))
  {
    if PublishEndpoint(t, aid, newId, now).Ok? {
      var sid := t.artifacts[aid].session;
      var row := NewJob(PublishKey(sid, aid), sid, Publish, PublishOf(aid), now);
      JobRowEvolves(t, newId, row);
      TransitionEvolves(WithJob(t, newId, row), sid, SessionStatus.Publishing);
      EvolvesTransitive(t, WithJob(t, newId, row),
                        TransitionSession(WithJob(t, newId, row), sid, SessionStatus.Publishing).t);
    }
  }

  lemma ReleaseEvolves(t: Tables, now: Time)
    ensures Evolves(t, t.(jobs := Release(t.jobs, now)))
  {
  }

  lemma ClaimEvolves(t: Tables, j: Id, now: Time)
    requires j in t.jobs && Claimable(Release(t.jobs, now)[j], now)
    ensures Evolves(t, Claim(t, j, now))
  {
    var released := t.(jobs := Release(t.jobs, now));
    ReleaseEvolves(t, now);
    JobRowEvolves(released, j, Worker.Start(released.jobs[j], now));
    EvolvesTransitive(t, released, Claim(t, j, now));
  }

  lemma HandlePublishEvolves(t: Tables, j: Id, now: Time)
    requires j in t.jobs
    ensures Evolves(t, HandlePublish(t, j, now).t)
  {
    var r, input := HandlePublish(t, j, now), t.jobs[j].input;
    if input.PublishOf? && input.artifact in t.artifacts {
      var marked := MarkPublished(t, input.artifact, now).t;
      var written := t.(artifacts := marked.artifacts);
      assert Evolves(t, written);
      TransitionEvolves(written, t.artifacts[input.artifact].session, SessionStatus.Published);
      EvolvesTransitive(t, written, marked);
      if r.Ok? {
        JobRowEvolves(marked, j, r.t.jobs[j]);
        EvolvesTransitive(t, marked, r.t);
      }
    }
  }

  lemma HandleExtractEvolves(t: Tables, j: Id, p: Provider, aid: Id)
    requires j in t.jobs
    ensures Evolves(t, HandleExtract(t, j, p, aid).t)
  {
    var r, sid := HandleExtract(t, j, p, aid), t.jobs[j].session;
    if r.Ok? {
      JobRowEvolves(t, j, r.t.jobs[j]);
      if sid in t.sessions {
        SessionRowEvolves(t, sid, WithStatus(t.sessions[sid], NeedsReview));
      }
    } else {
      EvolvesReflexive(t);
    }
  }

  lemma HandleEarlyEvolves(t: Tables, j: Id, p: Provider)
    requires j in t.jobs
    ensures Evolves(t, HandleTranscribe(t, j, p).t) && Evolves(t, HandleSummarize(t, j, p).t)
  {
    EvolvesReflexive(t);
    if p.ProviderAnswer? {
      JobRowEvolves(t, j, t.jobs[j].(status := Completed, output := Some(Transcript(p.transcript))));
      JobRowEvolves(t, j, t.jobs[j].(status := Completed, output := p.document));
    }
  }

  /** What a handler has flushed, returned or raised. */
  lemma HandleEvolves(t: Tables, j: Id, p: Provider, aid: Id, now: Time)
    requires j in t.jobs && Registered(t.jobs[j].jobType)
    ensures Evolves(t, Handle(t, j, p, aid, now).t)
  {
    match t.jobs[j].jobType
    case Publish => HandlePublishEvolves(t, j, now);
    case ExtractArtifact => HandleExtractEvolves(t, j, p, aid);
    case _ => HandleEarlyEvolves(t, j, p);
  }

  lemma ExecuteEvolves(t: Tables, j: Id, e: Surroundings, now: Time)
    requires j in t.jobs && KeyFits(t.jobs[j])
    ensures Evolves(t, Execute(t, j, e, now).committed) && Evolves(t, Execute(t, j, e, now).pending)
  {
    var r := Handle(t, j, e.provider, e.artifact, now);
    HandleEvolves(t, j, e.provider, e.artifact, now);
    if r.Raise? {
      RaisingHandlerFlushes(t, j, e.provider, e.artifact, now);
      var row := FailByWorker(t.jobs[j], e.message, now);
      JobRowEvolves(t, j, row);
      JobRowEvolves(r.t, j, row);
      EvolvesTransitive(t, r.t, WithJob(r.t, j, row));
    }
  }

  /** A deletion attempt on a pending deletion job. */
  lemma HalfEvolves(t: Tables, committed: Tables, pending: Tables, half: Half)
    requires Evolves(t, committed) && Evolves(t, pending)
    requires half.Attempt? ==> half.d in pending.deletions && pending.deletions[half.d].status == Pending
    ensures Evolves(t, AfterHalf(committed, pending, half))
  {
  }

  lemma FinishStepEvolves(w: World, st: Step)
    requires KeysOk(w.t.jobs) && Enabled(w, st) && st.FinishStep?
    ensures Evolves(w.t, Apply(w, st).t)
  {
    var run := Execute(w.t, w.executors[st.w], st.e, w.now);
    ExecuteEvolves(w.t, w.executors[st.w], st.e, w.now);
    HalfEvolves(w.t, run.committed, run.pending, st.half);
  }

  lemma DeletionStepEvolves(w: World, st: Step)
    requires Enabled(w, st) && st.DeletionStep?
    ensures Evolves(w.t, Apply(w, st).t)
  {
    var pending := if st.idle then w.t.(jobs := Release(w.t.jobs, w.now)) else w.t;
    ReleaseEvolves(w.t, w.now);
    HalfEvolves(w.t, w.t, pending, st.half);
  }

  lemma JobStepEvolves(w: World, st: Step)
    requires Enabled(w, st) && (st.ClaimStep? || st.HeartbeatStep? || st.RetryStep?)
    ensures Evolves(w.t, Apply(w, st).t)
  {
    match st
    case ClaimStep(_, j) => ClaimEvolves(w.t, j, w.now);
    case HeartbeatStep(j) => JobRowEvolves(w.t, j, Beat(w.t.jobs[j], w.now));
    case RetryStep(j, newId) => JobRowEvolves(w.t, j, MoveJob(w.t.jobs[j], Pending, None, None, w.now));
  }

  lemma RequestStepEvolves(w: World, st: Step)
    requires Enabled(w, st)
    requires st.CreateStep? || st.ConsentStep? || st.StatusStep? || st.UploadStep? || st.CancelStep? || st.RetractStep?
             || st.ReviewStep? || st.PublishStep?
    ensures Evolves(w.t, Apply(w, st).t)
  {
    match st
    case CreateStep(sid, user, hasDevice) => CreateEvolves(w.t, sid, user, hasDevice);
    case ConsentStep(sid, user, grant) => ConsentEvolves(w.t, sid, user, grant, w.now);
    case StatusStep(sid, user, target, ids) => StatusEvolves(w.t, sid, user, target, ids, w.now);
    case UploadStep(sid, user, key) => UploadEvolves(w.t, sid, user, key);
    case CancelStep(sid, user) => CancelEvolves(w.t, sid, user);
    case RetractStep(sid, user, ids) => RetractEvolves(w.t, sid, user, ids, w.now);
    case ReviewStep(aid, approve, user, comment, newId, suffix) =>
      ReviewEvolves(w.t, aid, approve, user, comment, newId, suffix, w.now);
    case PublishStep(aid, newId) => PublishEvolves(w.t, aid, newId, w.now);
  }

  /** Every step lets every table evolve. */
  lemma StepEvolves(w: World, st: Step)
    requires KeysOk(w.t.jobs)
    ensures Evolves(w.t, Apply(w, st).t)
  {
    EvolvesReflexive(w.t);
    if Enabled(w, st) && !st.Tick? && !st.CrashStep? {
      match st
      case FinishStep(_, _, _) => FinishStepEvolves(w, st);
      case DeletionStep(_, _) => DeletionStepEvolves(w, st);
      case ClaimStep(_, _) => JobStepEvolves(w, st);
      case HeartbeatStep(_) => JobStepEvolves(w, st);
      case RetryStep(_, _) => JobStepEvolves(w, st);
      case _ => RequestStepEvolves(w, st);
    }
  }

  // ---- Where artifacts come from ----

  /** Every artifact was there before, for the same session. */
  predicate NoNewArtifact(t: Tables, after: Tables) {
    forall a :: a in after.artifacts ==> a in t.artifacts && after.artifacts[a].session == t.artifacts[a].session
  }

  /** The step commits an extraction for the session. */
  predicate Extracts(w: World, st: Step, sid: Id) {
    && st.FinishStep? && Enabled(w, st)
    && var j := w.executors[st.w];
       && w.t.jobs[j].session == sid && w.t.jobs[j].jobType == ExtractArtifact
       && HandleExtract(w.t, j, st.e.provider, st.e.artifact).Ok?
  }

  lemma ExecuteArtifacts(t: Tables, j: Id, e: Surroundings, now: Time)
    requires j in t.jobs && KeyFits(t.jobs[j])
    ensures var x := Execute(t, j, e, now);
            if t.jobs[j].jobType == ExtractArtifact && HandleExtract(t, j, e.provider, e.artifact).Ok?
            then x.committed == x.pending && e.artifact in x.committed.artifacts
                 && x.committed.artifacts[e.artifact].session == t.jobs[j].session
                 && x.committed.artifacts == t.artifacts[e.artifact := x.committed.artifacts[e.artifact]]
            else NoNewArtifact(t, x.committed) && NoNewArtifact(t, x.pending)
  {
  }

  lemma ApproveArtifacts(t: Tables, aid: Id, user: Id, comment: string)
    requires aid in t.artifacts
    ensures NoNewArtifact(t, Approve(t, aid, user, comment).t)
  {
    assert Approve(t, aid, user, comment).t.artifacts == Reviewed(t, aid, ArtifactApproved, user, comment).artifacts;
  }

  lemma ReviewArtifacts(t: Tables, aid: Id, approve: bool, user: Id, comment: string, newId: Id, suffix: string,
                        now: Time)
    ensures NoNewArtifact(t, Settle(t, ReviewEndpoint(t, aid, approve, user, comment, newId, suffix, now)))
  {
    if aid in t.artifacts && approve {
      ApproveArtifacts(t, aid, user, comment);
    }
  }

  lemma RequestArtifacts(w: World, st: Step)
    requires Enabled(w, st) && !st.FinishStep? && !st.ReviewStep?
    ensures NoNewArtifact(w.t, Apply(w, st).t)
  {
  }

  /** A new artifact comes from the commit of an extraction for its session,
      under the id drawn for it. */
  lemma ArtifactsFromExtraction(w: World, st: Step, a: Id)
    requires KeysOk(w.t.jobs) && a in Apply(w, st).t.artifacts
    ensures var row := Apply(w, st).t.artifacts[a];
            || (a in w.t.artifacts && row.session == w.t.artifacts[a].session)
            || (Extracts(w, st, row.session) && a == st.e.artifact)
  {
    if Enabled(w, st) {
      if st.FinishStep? {
        ExecuteArtifacts(w.t, w.executors[st.w], st.e, w.now);
      } else if st.ReviewStep? {
        ReviewArtifacts(w.t, st.aid, st.approve, st.user, st.comment, st.newId, st.suffix, w.now);
      } else {
        RequestArtifacts(w, st);
      }
    }
  }

  lemma DrawnKept(w: World, st: Step)
    requires KeysOk(w.t.jobs) && DrawnOk(w)
    ensures DrawnOk(Apply(w, st))
  {
    var after := Apply(w, st);
    forall a | a in after.t.artifacts
      ensures a in after.drawn && after.drawn[a] == after.t.artifacts[a].session
    {
      ArtifactsFromExtraction(w, st, a);
    }
  }

  // ---- The invariant ----

  lemma FileStepKeeps(w: World, st: Step)
    requires Inv(w) && Enabled(w, st) && (st.UploadStep? || st.RetractStep?)
    ensures Good(Apply(w, st).t) && FilesOk(Apply(w, st))
  {
    match st
    case UploadStep(sid, user, key) =>
      UploadKeeps(w.t, sid, user, key);
      if UploadAudio(w.t, sid, user, key).Ok? {
        UploadKeepsFiles(w, sid, user, key);
      }
    case RetractStep(sid, user, ids) =>
      RetractKeeps(w.t, sid, user, ids, w.now);
      RetractKeepsFiles(w, sid, user, ids);
  }

  lemma JobStepKeeps(w: World, st: Step)
    requires Inv(w) && Enabled(w, st) && (st.ClaimStep? || st.HeartbeatStep?)
    ensures Good(Apply(w, st).t) && FilesOk(Apply(w, st))
  {
    match st
    case ClaimStep(_, j) =>
      ClaimKeeps(w.t, j, w.now);
      NeutralKeepsFiles(w, Apply(w, st));
    case HeartbeatStep(j) =>
      BeatKeeps(w.t, j, w.now);
      NeutralKeepsFiles(w, Apply(w, st));
  }

  lemma StepKeepsTables(w: World, st: Step)
    requires Inv(w) && Enabled(w, st) && !st.Tick? && !st.CrashStep?
    ensures Good(Apply(w, st).t) && FilesOk(Apply(w, st))
  {
    match st
    case UploadStep(_, _, _) => FileStepKeeps(w, st);
    case RetractStep(_, _, _) => FileStepKeeps(w, st);
    case ClaimStep(_, _) => JobStepKeeps(w, st);
    case HeartbeatStep(_) => JobStepKeeps(w, st);
    case FinishStep(_, _, _) => FinishStepKeeps(w, st);
    case DeletionStep(_, _) => DeletionStepKeeps(w, st);
    case _ =>
      RequestKeeps(w, st);
      NeutralStep(w, st);
      NeutralKeepsFiles(w, Apply(w, st));
  }

  lemma NeutralStep(w: World, st: Step)
    requires Enabled(w, st)
    requires st.CreateStep? || st.ConsentStep? || st.StatusStep? || st.CancelStep? || st.PublishStep? || st.RetryStep?
          || st.ReviewStep?
    ensures var after := Apply(w, st);
            FileNeutral(w.t, after.t) && after.files == w.files && after.uploads == w.uploads
  {
    if st.ReviewStep? {
      ReviewNeutral(w.t, st.aid, st.approve, st.user, st.comment, st.newId, st.suffix, w.now);
    } else {
      RequestNeutral(w, st);
    }
  }

  /** Every executor's job exists. */
  lemma ExecutorsKept(w: World, st: Step)
    requires w.t.jobs.Keys <= Apply(w, st).t.jobs.Keys && forall x :: x in w.executors ==> w.executors[x] in w.t.jobs
    ensures forall x :: x in Apply(w, st).executors ==> Apply(w, st).executors[x] in Apply(w, st).t.jobs
  {
  }

  lemma StepKeeps(w: World, st: Step)
    requires Inv(w)
    ensures Inv(Apply(w, st))
  {
    if Enabled(w, st) && !st.Tick? && !st.CrashStep? {
      StepKeepsTables(w, st);
      DrawnKept(w, st);
      StepEvolves(w, st);
      ExecutorsKept(w, st);
    }
  }

  /** The invariant holds in every reachable state. */
  lemma {:induction false} Reachable(steps: seq<Step>)
    ensures Inv(Run(EMPTY_WORLD, steps))
  {
    if steps == [] {
      EmptyInv();
    } else {
      Reachable(steps[..|steps| - 1]);
      StepKeeps(Run(EMPTY_WORLD, steps[..|steps| - 1]), steps[|steps| - 1]);
    }
  }
}
