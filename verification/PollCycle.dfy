/** The poll cycle: two halves in one database session, and what sharing it
    means for publication. */
module PollCycle {
  import opened Domain
  import opened StateMachine
  import opened SessionApi
  import opened ArtifactService
  import opened Agents
  import opened Worker
  import opened System
  import opened SystemInvariant
  import opened SystemRuns
  import opened JobRows
  import opened Walks
  import DB = Database

  /** The first half's outcome: an execution, or a release left pending. */
  function FirstHalf(t: Tables, job: Option<Id>, env: Id -> Surroundings, now: Time, later: Time): Execution
    requires job.Some? ==> job.value in t.jobs
  {
    var released := t.(jobs := Release(t.jobs, now));
    match job
    case None => Execution(t, released)
    case Some(j) => Execute(WithJob(released, j, Worker.Start(released.jobs[j], now)), j, env(j), later)
  }

  /** One cycle of the worker's loop, ending with the session closed. */
  method Poll(db: DB.Database, locked: set<Id>, now: Time, later: Time, after: Time, env: Id -> Surroundings,
              removeFails: bool, message: string)
    returns (job: Option<Id>, half: Half)
    requires db.Clean()
    modifies db
    ensures db.Clean()
    ensures match job
            case None => forall j :: j in old(db.jobs) && j !in locked ==>
              !Claimable(Release(old(db.jobs), now)[j], now)
            case Some(j) => IsClaim(Release(old(db.jobs), now), now, locked, j)
    ensures var x := FirstHalf(old(db.committed), job, env, now, later);
            && HalfEnabled(x.pending, old(db.files), after, half)
            && (half == NoDeletion <==> forall d :: d in x.pending.deletions ==>
                !EligibleDeletion(x.pending.deletions[d], after))
            && (half.Attempt? ==> !half.outcome.Died?)
            && db.committed == AfterHalf(x.committed, x.pending, half)
            && db.files == FilesAfter(old(db.files), x.pending, half)
  {
    job := ProcessOne(db, locked, now, later, env);
    ghost var x := FirstHalf(old(db.committed), job, env, now, later);
    assert db.committed == x.committed && db.View() == x.pending;
    ghost var files := db.files;
    var deletion := ProcessDeletion(db, after, removeFails, message);
    half := NoDeletion;
    if deletion.Some? {
      // A failed row can only be the refusal recorded by this attempt.
      half := Attempt(deletion.value,
                      if db.deletions[deletion.value].status == Failed then Refused(message) else Done);
    }
    db.Rollback();
  }

  // ---- A cycle is a run of the engine's machine ----

  /** No deletion job waits for a due time: none is ever given one. */
  predicate Prompt(t: Tables) {
    forall d :: d in t.deletions ==> t.deletions[d].nextRunAt == None
  }

  lemma HalfPrompt(committed: Tables, pending: Tables, half: Half)
    requires Prompt(committed) && Prompt(pending) && (half.Attempt? ==> half.d in pending.deletions)
    ensures Prompt(AfterHalf(committed, pending, half))
  {
  }

  lemma WorkerPrompt(w: World, st: Step)
    requires Prompt(w.t) && KeysOk(w.t.jobs) && Enabled(w, st)
    requires st.FinishStep? || st.DeletionStep? || st.ClaimStep? || st.HeartbeatStep? || st.CrashStep?
    ensures Prompt(Apply(w, st).t)
  {
    match st
    case FinishStep(x, e, half) =>
      var run := Execute(w.t, w.executors[x], e, w.now);
      ExecuteNeutral(w.t, w.executors[x], e, w.now);
      HalfPrompt(run.committed, run.pending, half);
    case DeletionStep(idle, half) =>
      HalfPrompt(w.t, if idle then w.t.(jobs := Release(w.t.jobs, w.now)) else w.t, half);
    case _ =>
  }

  lemma RetractPrompt(t: Tables, sid: Id, user: Id, ids: seq<Id>, now: Time)
    requires Prompt(t) && |ids| == 3
    ensures Prompt(Settle(t, RetractEndpoint(t, sid, user, ids, now)))
  {
  }

  lemma PromptStep(w: World, st: Step)
    requires Prompt(w.t) && KeysOk(w.t.jobs)
    ensures Prompt(Apply(w, st).t)
  {
    if Enabled(w, st) {
      if st.FinishStep? || st.DeletionStep? || st.ClaimStep? || st.HeartbeatStep? || st.CrashStep? {
        WorkerPrompt(w, st);
      } else if st.ReviewStep? {
        ReviewNeutral(w.t, st.aid, st.approve, st.user, st.comment, st.newId, st.suffix, w.now);
      } else if st.RetractStep? {
        RetractPrompt(w.t, st.sid, st.user, st.ids, w.now);
      } else if !st.UploadStep? {
        RequestNeutral(w, st);
      }
    }
  }

  lemma {:induction false} AlwaysPrompt(steps: seq<Step>)
    ensures Prompt(Run(EMPTY_WORLD, steps).t)
  {
    if steps != [] {
      AlwaysPrompt(steps[..|steps| - 1]);
      Reachable(steps[..|steps| - 1]);
      PromptStep(Run(EMPTY_WORLD, steps[..|steps| - 1]), steps[|steps| - 1]);
    }
  }

  lemma RunFour(w: World, a: Step, b: Step, c: Step, d: Step)
    ensures Run(w, [a, b, c, d]) == Apply(Apply(Apply(Apply(w, a), b), c), d)
  {
    RunConcat(w, [a, b, c], [d]);
    RunConcat(w, [a, b], [c]);
    RunConcat(w, [a], [b]);
    RunOne(w, a);
    RunOne(Apply(w, a), b);
    RunOne(Apply(Apply(w, a), b), c);
    RunOne(Apply(Apply(Apply(w, a), b), c), d);
    assert [a, b, c, d] == [a] + [b] + [c] + [d];
  }

  lemma ClaimThenFinish(w: World, x: Id, j: Id, e: Surroundings, later: Time, half: Half)
    requires Enabled(w, ClaimStep(x, j)) && w.now <= later && e.artifact !in w.drawn
    requires HalfEnabled(FirstHalf(w.t, Some(j), i => e, w.now, later).pending, w.files, later, half)
    ensures var run := FirstHalf(w.t, Some(j), i => e, w.now, later);
            var end := Apply(Apply(Apply(w, ClaimStep(x, j)), Tick(later - w.now)), FinishStep(x, e, half));
            && end.t == AfterHalf(run.committed, run.pending, half)
            && end.files == FilesAfter(w.files, run.pending, half) && end.now == later
  {
    var running := w.(t := Claim(w.t, j, w.now), executors := w.executors[x := j], now := later);
    assert Apply(Apply(w, ClaimStep(x, j)), Tick(later - w.now)) == running;
    assert Execute(running.t, j, e, later) == FirstHalf(w.t, Some(j), i => e, w.now, later);
    assert Enabled(running, FinishStep(x, e, half));
  }

  /** A cycle that claims a job is, in the engine's machine, its claim, the
      handler's time, its finish, and the time until the deletion half. */
  lemma PollIsClaimAndFinish(w: World, x: Id, j: Id, e: Surroundings, later: Time, after: Time, half: Half)
    requires Prompt(w.t) && Enabled(w, ClaimStep(x, j)) && w.now <= later <= after && e.artifact !in w.drawn
    requires HalfEnabled(FirstHalf(w.t, Some(j), i => e, w.now, later).pending, w.files, after, half)
    ensures var run := FirstHalf(w.t, Some(j), i => e, w.now, later);
            var end := Run(w, [ClaimStep(x, j), Tick(later - w.now), FinishStep(x, e, half), Tick(after - later)]);
            && end.t == AfterHalf(run.committed, run.pending, half)
            && end.files == FilesAfter(w.files, run.pending, half) && end.now == after
  {
    ExecuteNeutral(Claim(w.t, j, w.now), j, e, later);
    ClaimThenFinish(w, x, j, e, later, half);
    RunFour(w, ClaimStep(x, j), Tick(later - w.now), FinishStep(x, e, half), Tick(after - later));
  }

  /** A cycle that claims no job is an idle deletion attempt, or nothing. */
  lemma IdlePollIsDeletionStep(w: World, env: Id -> Surroundings, later: Time, after: Time, half: Half)
    requires Prompt(w.t) && w.now <= after
    requires HalfEnabled(FirstHalf(w.t, None, env, w.now, later).pending, w.files, after, half)
    ensures var run := FirstHalf(w.t, None, env, w.now, later);
            var end := Run(w, [DeletionStep(true, half), Tick(after - w.now)]);
            && end.t == AfterHalf(run.committed, run.pending, half)
            && end.files == FilesAfter(w.files, run.pending, half) && end.now == after
  {
    RunOne(w, DeletionStep(true, half));
    RunThen(w, [DeletionStep(true, half)], Tick(after - w.now));
    assert [DeletionStep(true, half), Tick(after - w.now)] == [DeletionStep(true, half)] + [Tick(after - w.now)];
  }

  // ---- Publication ----

  /** The artifact has become published. */
  predicate Newly(t: Tables, after: Tables, a: Id) {
    && a in t.artifacts && t.artifacts[a].status != ArtifactPublished
    && a in after.artifacts && after.artifacts[a].status == ArtifactPublished
  }

  /** The deletion half does not commit the removal of the artifact's rows. */
  predicate Spares(t: Tables, half: Half, a: Id)
    requires a in t.artifacts
  {
    half.Attempt? && half.outcome.Done? && half.d in t.deletions ==>
      t.deletions[half.d].kind != DeleteArtifactRows || t.deletions[half.d].session != t.artifacts[a].session
  }

  /** The deletion half commits and spares the artifact. */
  predicate CommitsSparing(t: Tables, half: Half, a: Id)
    requires a in t.artifacts
  {
    half.Attempt? && !half.outcome.Died? && half.d in t.deletions && Spares(t, half, a)
  }

  predicate Publishable(s: SessionStatus) {
    s == SessionStatus.Publishing || s == SessionStatus.Published
  }

  /** A publish handler raises exactly when its artifact is there and the session
      is neither being published nor published. */
  lemma PublishRaises(t: Tables, j: Id, p: Provider, aid: Id, now: Time, a: Id)
    requires RowsOk(t) && j in t.jobs && t.jobs[j].jobType == Publish && t.jobs[j].input == PublishOf(a)
    ensures Handle(t, j, p, aid, now).Raise? <==>
            a in t.artifacts && !Publishable(t.sessions[t.artifacts[a].session].status)
  {
    assert a in t.artifacts ==> OfActive(t.sessions, t.artifacts[a].session);
  }

  predicate PublishedIn(artifacts: map<Id, Artifact>, a: Id) {
    a in artifacts && artifacts[a].status == ArtifactPublished
  }

  /** What a publish job's execution commits, and what it leaves pending. */
  lemma PublishExecutes(t: Tables, j: Id, e: Surroundings, now: Time, a: Id)
    requires j in t.jobs && t.jobs[j].jobType == Publish && t.jobs[j].input == PublishOf(a)
    requires a in t.artifacts && t.artifacts[a].session in t.sessions
    ensures var x, sid := Execute(t, j, e, now), t.artifacts[a].session;
            && x.pending.deletions == x.committed.deletions == t.deletions && PublishedIn(x.pending.artifacts, a)
            && x.pending.artifacts[a].session == sid && x.pending.sessions == x.committed.sessions
            && if Publishable(t.sessions[sid].status)
               then x.committed == x.pending
                    && x.committed.sessions == t.sessions[sid := WithStatus(t.sessions[sid], SessionStatus.Published)]
               else x.committed.sessions == t.sessions && x.committed.artifacts == t.artifacts
  {
  }

  lemma HalfPublishes(committed: Tables, pending: Tables, half: Half, a: Id)
    requires PublishedIn(pending.artifacts, a) && (half.Attempt? ==> half.d in pending.deletions)
    ensures PublishedIn(AfterHalf(committed, pending, half).artifacts, a) <==>
            CommitsSparing(pending, half, a)
            || ((half.NoDeletion? || half.outcome.Died?) && PublishedIn(committed.artifacts, a))
    ensures committed.sessions == pending.sessions ==>
            AfterHalf(committed, pending, half).sessions == committed.sessions
  {
  }

  /** When publication is atomic: with the session publishable, artifact and
      session are published in one commit, unless the deletion half removes the
      artifact. Otherwise the session does not move, and the artifact becomes
      published all the same exactly when the deletion half of the cycle commits
      and spares it. */
  lemma PublishOutcome(t: Tables, j: Id, e: Surroundings, now: Time, half: Half, a: Id)
    requires j in t.jobs && t.jobs[j].jobType == Publish && t.jobs[j].input == PublishOf(a)
    requires a in t.artifacts && t.artifacts[a].session in t.sessions && t.artifacts[a].status != ArtifactPublished
    requires half.Attempt? ==> half.d in t.deletions
    ensures var x, sid := Execute(t, j, e, now), t.artifacts[a].session;
            var after := AfterHalf(x.committed, x.pending, half);
            if Publishable(t.sessions[sid].status)
            then && (Newly(t, after, a) <==> Spares(t, half, a))
                 && after.sessions == t.sessions[sid := WithStatus(t.sessions[sid], SessionStatus.Published)]
            else && (Newly(t, after, a) <==> CommitsSparing(t, half, a))
                 && after.sessions == t.sessions
  {
    var x := Execute(t, j, e, now);
    PublishExecutes(t, j, e, now, a);
    HalfPublishes(x.committed, x.pending, half, a);
  }

  lemma OnlyPublishHandlersPublish(t: Tables, j: Id, e: Surroundings, now: Time, a: Id)
    requires j in t.jobs && KeyFits(t.jobs[j]) && a in t.artifacts && t.artifacts[a].status != ArtifactPublished
    ensures var x := Execute(t, j, e, now);
            Newly(t, x.committed, a) || Newly(t, x.pending, a) ==>
              t.jobs[j].jobType == Publish && t.jobs[j].input == PublishOf(a)
  {
  }

  lemma ReviewsNeverPublish(t: Tables, aid: Id, approve: bool, user: Id, comment: string, newId: Id, suffix: string,
                            now: Time, a: Id)
    ensures !Newly(t, Settle(t, ReviewEndpoint(t, aid, approve, user, comment, newId, suffix, now)), a)
  {
  }

  lemma RequestsNeverPublish(w: World, st: Step, a: Id)
    requires !st.FinishStep? && !st.ReviewStep?
    ensures !Newly(w.t, Apply(w, st).t, a)
  {
  }

  /** Publication is atomic with the session's unless the worker's shared session
      leaks it: whatever step publishes an artifact is the end of a publish job
      for it, and either the session was publishable and is published in the
      same commit, or it was not, stays as it was, and the deletion half committed. */
  lemma PublicationIsAtomicOrLeaked(w: World, st: Step, a: Id)
    requires Good(w.t) && Newly(w.t, Apply(w, st).t, a)
    ensures st.FinishStep? && Enabled(w, st)
    ensures var j, sid := w.executors[st.w], w.t.artifacts[a].session;
            && w.t.jobs[j].jobType == Publish && w.t.jobs[j].input == PublishOf(a)
            && var before, after := w.t.sessions, Apply(w, st).t.sessions;
               if Publishable(before[sid].status)
               then after == before[sid := WithStatus(before[sid], SessionStatus.Published)]
               else after == before && CommitsSparing(w.t, st.half, a)
  {
    if st.ReviewStep? {
      ReviewsNeverPublish(w.t, st.aid, st.approve, st.user, st.comment, st.newId, st.suffix, w.now, a);
    } else if !st.FinishStep? {
      RequestsNeverPublish(w, st, a);
    } else {
      FinishPublishes(w, st, a);
    }
  }

  lemma FinishPublishes(w: World, st: Step, a: Id)
    requires Good(w.t) && Enabled(w, st) && st.FinishStep? && Newly(w.t, Apply(w, st).t, a)
    ensures var j, sid := w.executors[st.w], w.t.artifacts[a].session;
            && w.t.jobs[j].jobType == Publish && w.t.jobs[j].input == PublishOf(a) && sid in w.t.sessions
            && var before, after := w.t.sessions, Apply(w, st).t.sessions;
               if Publishable(before[sid].status)
               then after == before[sid := WithStatus(before[sid], SessionStatus.Published)]
               else after == before && CommitsSparing(w.t, st.half, a)
  {
    var j := w.executors[st.w];
    assert KeyFits(w.t.jobs[j]) && OfActive(w.t.sessions, w.t.artifacts[a].session);
    OnlyPublishHandlersPublish(w.t, j, st.e, w.now, a);
    ExecuteNeutral(w.t, j, st.e, w.now);
    PublishOutcome(w.t, j, st.e, w.now, st.half, a);
  }
}
