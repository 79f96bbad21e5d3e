/** A publication leaks: runs that end with an artifact published whose session
    is not, the first from any world in which a publication is under way, the
    second from empty tables. */
module Leak {
  import opened Domain
  import opened StateMachine
  import opened Orchestrator
  import opened SessionApi
  import opened ArtifactService
  import opened ReviewOrder
  import opened Agents
  import opened Worker
  import opened System
  import opened SystemInvariant
  import opened SystemRuns
  import opened SystemTheorems
  import opened JobRows
  import opened Walks
  import opened PollCycle
  import opened Witness

  /** A worker runs the publish job of an approved artifact, its session publishing. */
  predicate UnderWay(w: World, x: Id, sid: Id, a: Id) {
    && x in w.executors && w.executors[x] in w.t.jobs
    && w.t.jobs[w.executors[x]].jobType == Publish && w.t.jobs[w.executors[x]].input == PublishOf(a)
    && a in w.t.artifacts && w.t.artifacts[a].status == ArtifactApproved && w.t.artifacts[a].session == sid
    && InStatus(w, sid, SessionStatus.Publishing)
  }

  /** A deletion job of some other session is eligible. */
  predicate OtherWaiting(w: World, d: Id, sid: Id) {
    d in w.t.deletions && EligibleDeletion(w.t.deletions[d], w.now) && w.t.deletions[d].session != sid
  }

  lemma FinishLeaks(w: World, x: Id, sid: Id, a: Id, d: Id, e: Surroundings)
    requires x in w.executors && w.executors[x] in w.t.jobs && e.artifact !in w.drawn
    requires w.t.jobs[w.executors[x]].jobType == Publish && w.t.jobs[w.executors[x]].input == PublishOf(a)
    requires a in w.t.artifacts && w.t.artifacts[a].status == ArtifactApproved && w.t.artifacts[a].session == sid
    requires InStatus(w, sid, PublishFailed) && OtherWaiting(w, d, sid)
    ensures var after := Apply(w, FinishStep(x, e, Attempt(d, Done)));
            && PublishedIn(after.t.artifacts, a) && after.t.artifacts[a].session == sid
            && InStatus(after, sid, PublishFailed)
  {
    PublishExecutes(w.t, w.executors[x], e, w.now, a);
    PublishOutcome(w.t, w.executors[x], e, w.now, Attempt(d, Done), a);
  }

  /** While a publication is under way the owner sets the session to
      publish_failed; the handler raises, and the deletion half of its cycle
      makes the artifact's publication durable. */
  lemma PublicationLeaks(w: World, x: Id, sid: Id, user: Id, a: Id, d: Id, ids: seq<Id>, e: Surroundings)
    requires UnderWay(w, x, sid, a) && OtherWaiting(w, d, sid) && Owned(w.t, sid, user)
    requires FreshIds(w.t.jobs, ids) && e.artifact !in w.drawn
    ensures var end := Run(w, [StatusStep(sid, user, Some(PublishFailed), ids), FinishStep(x, e, Attempt(d, Done))]);
            && PublishedIn(end.t.artifacts, a) && end.t.artifacts[a].session == sid
            && InStatus(end, sid, PublishFailed)
  {
    var st, finish := StatusStep(sid, user, Some(PublishFailed), ids), FinishStep(x, e, Attempt(d, Done));
    OwnerMoves(w, sid, user, PublishFailed, ids);
    RunOne(w, st);
    RunThen(w, [st], finish);
    assert [st] + [finish] == [st, finish];
    FinishLeaks(Apply(w, st), x, sid, a, d, e);
  }

  /** Left alone, the same execution publishes both. */
  lemma PublicationCompletes(w: World, x: Id, sid: Id, a: Id, e: Surroundings)
    requires UnderWay(w, x, sid, a) && e.artifact !in w.drawn
    ensures var end := Run(w, [FinishStep(x, e, NoDeletion)]);
            && PublishedIn(end.t.artifacts, a) && end.t.artifacts[a].session == sid
            && InStatus(end, sid, SessionStatus.Published)
  {
    RunOne(w, FinishStep(x, e, NoDeletion));
    PublishOutcome(w.t, w.executors[x], e, w.now, NoDeletion, a);
  }

  // ---- From processing to a publication under way ----

  predicate NoPublishJob(jobs: map<Id, Job>) {
    forall j :: j in jobs ==> jobs[j].jobType != Publish
  }

  lemma SameTypes(w: World, steps: seq<Step>)
    requires Inv(w) && NoPublishJob(w.t.jobs) && Run(w, steps).t.jobs.Keys == w.t.jobs.Keys
    ensures NoPublishJob(Run(w, steps).t.jobs)
  {
    RunOn(w, steps);
  }

  /** The only artifact of a session in review is approved. */
  lemma ApproveOnly(w: World, sid: Id, a: Id, newId: Id)
    requires a in w.t.artifacts && w.t.artifacts[a].session == sid && Unapproved(w.t, sid) == {a}
    requires InStatus(w, sid, NeedsReview) && newId !in w.t.jobs
    ensures var after := Apply(w, ReviewStep(a, true, 0, "", newId, ""));
            && after == w.(t := after.t) && after.t.jobs == w.t.jobs && after.t.deletions == w.t.deletions
            && a in after.t.artifacts && after.t.artifacts[a] == w.t.artifacts[a].(status := ArtifactApproved,
                 reviewStatus := Some(ArtifactApproved), comment := "")
            && InStatus(after, sid, SessionStatus.Approved) && after.t.sessions[sid].user == w.t.sessions[sid].user
  {
    ApproveLast(w.t, a, 0, "");
  }

  lemma RequestOnly(w: World, sid: Id, a: Id, newId: Id)
    requires a in w.t.artifacts && w.t.artifacts[a].session == sid && w.t.artifacts[a].status == ArtifactApproved
    requires InStatus(w, sid, SessionStatus.Approved) && newId !in w.t.jobs && NoPublishJob(w.t.jobs)
             && KeysOk(w.t.jobs)
    ensures var after := Apply(w, PublishStep(a, newId));
            && after == w.(t := after.t)
            && after.t.jobs == w.t.jobs[newId := NewJob(PublishKey(sid, a), sid, Publish, PublishOf(a), w.now)]
            && after.t.artifacts == w.t.artifacts && after.t.deletions == w.t.deletions
            && InStatus(after, sid, SessionStatus.Publishing) && after.t.sessions[sid].user == w.t.sessions[sid].user
  {
    assert forall j :: j in w.t.jobs ==> KeyFits(w.t.jobs[j]);
    assert !KeyTaken(w.t.jobs, PublishKey(sid, a));
  }

  /** From an extracted artifact in review to its publication under way. */
  lemma ReviewAndRequest(w: World, sid: Id, a: Id) returns (steps: seq<Step>, x: Id)
    requires Inv(w) && Stamped(w.t.jobs) && NoPublishJob(w.t.jobs)
    requires a in w.t.artifacts && w.t.artifacts[a].session == sid && Unapproved(w.t, sid) == {a}
    requires InStatus(w, sid, NeedsReview)
    ensures var end := Run(w, steps);
            && UnderWay(end, x, sid, a) && end.t.deletions == w.t.deletions
            && end.t.sessions[sid].user == w.t.sessions[sid].user
  {
    var newId := FreshId(w.t.jobs.Keys);
    var approve, request := ReviewStep(a, true, 0, "", newId, ""), PublishStep(a, newId);
    ApproveOnly(w, sid, a, newId);
    var approved := Apply(w, approve);
    RequestOnly(approved, sid, a, newId);
    var requested := Apply(approved, request);
    RunOne(w, approve);
    RunThen(w, [approve], request);
    StampedRun(w, [approve] + [request]);
    x := FreshId(requested.executors.Keys);
    var take := TakeJob(requested, x, newId);
    RunConcat(w, [approve] + [request], take);
    steps := [approve] + [request] + take;
  }

  lemma OnlyArtifact(t: Tables, after: Tables, sid: Id, a: Id)
    requires !HasArtifact(t, sid) && InReview(t, after, sid, a)
    ensures Unapproved(after, sid) == {a}
  {
  }

  /** From a session in processing to its artifact in review. */
  lemma ToReview(w: World, sid: Id, j: Id) returns (steps: seq<Step>, a: Id)
    requires Standing(w, sid, Processing) && !HasArtifact(w.t, sid) && NoPublishJob(w.t.jobs)
    requires j in w.t.jobs && Belongs(w.t.jobs[j], sid, ExtractArtifact) && w.t.jobs[j].status != Completed
    ensures var end := Run(w, steps);
            && Inv(end) && Stamped(end.t.jobs) && NoPublishJob(end.t.jobs)
            && a in end.t.artifacts && end.t.artifacts[a].session == sid && Unapproved(end.t, sid) == {a}
            && InStatus(end, sid, NeedsReview) && end.t.deletions == w.t.deletions
            && sid in w.t.sessions && end.t.sessions[sid].user == w.t.sessions[sid].user
  {
    assert Live(w, j) && LiveExtraction(w, sid);
    var b := GetTranscript(w, sid, Processing);
    var w1 := Run(w, b);
    StillWaiting(w, b, j);
    var c, x := TakeExtraction(w1, sid, j, Processing);
    var w2 := Run(w1, c);
    SameTypes(w, b);
    SameTypes(w1, c);
    var st;
    st, a := ExtractionGoesThrough(w2, x, sid, Processing);
    OnlyArtifact(w2.t, Run(w2, [st]).t, sid, a);
    SameTypes(w2, [st]);
    RunConcat(w, b, c);
    RunConcat(w, b + c, [st]);
    steps := b + c + [st];
    RunOn(w, steps);
    StampedRun(w, steps);
  }

  // ---- From empty tables ----

  lemma SagaWaits(w: World, sid: Id, user: Id, ids: seq<Id>)
    requires Owned(w.t, sid, user) && w.t.sessions[sid].status == SessionStatus.Published && w.t.deletions == map[]
    requires |ids| == 3 && ids[0] != ids[1] && ids[0] != ids[2] && ids[1] != ids[2]
    ensures var after := Apply(w, RetractStep(sid, user, ids));
            && after == w.(t := after.t) && after.t.jobs == w.t.jobs && after.t.artifacts == w.t.artifacts
            && after.t.sessions.Keys == w.t.sessions.Keys
            && ids[0] in after.t.deletions
            && after.t.deletions[ids[0]] == NewDeletion(sid, DeleteArtifactRows, None, w.now)
  {
  }

  lemma PublishedPath()
    ensures LegalPath(Processing, TO_RETRACTED[..5]) && TO_RETRACTED[..5][4] == SessionStatus.Published
  {
    TablePath();
    PathPrefix(Processing, TO_RETRACTED, 5);
  }

  /** One session, walked to published and retracted; its deletion jobs wait. */
  lemma FirstSession() returns (steps: seq<Step>)
    ensures var w := After(steps);
            && w.t.sessions.Keys == {0} && w.t.jobs == WithPipeline(map[], 0, [0, 1, 2], 0) && w.t.artifacts == map[]
            && w.uploads.Keys == {0} && w.executors == map[] && w.drawn == map[] && w.now == 0
            && 0 in w.t.deletions && w.t.deletions[0] == NewDeletion(0, DeleteArtifactRows, None, 0)
  {
    EmptyUnused([0, 1, 2]);
    var start := StartSession(EMPTY_WORLD, 0, 7, 0, [0, 1, 2]);
    PublishedPath();
    var walk := PatchWalk(After(start), 0, 7, TO_RETRACTED[..5], [3, 4, 5]);
    RunConcat(EMPTY_WORLD, start, walk);
    SagaWaits(After(start + walk), 0, 7, [0, 1, 2]);
    RunThen(EMPTY_WORLD, start + walk, RetractStep(0, 7, [0, 1, 2]));
    steps := start + walk + [RetractStep(0, 7, [0, 1, 2])];
  }

  lemma SecondUnused(w: World)
    requires w.t.sessions.Keys == {0} && w.t.jobs == WithPipeline(map[], 0, [0, 1, 2], 0) && w.uploads.Keys == {0}
    ensures Unused(w, 1, 1, [3, 4, 5])
  {
  }

  lemma SecondJobs(now: Time)
    ensures var jobs := WithPipeline(WithPipeline(map[], 0, [0, 1, 2], 0), 1, [3, 4, 5], now);
            && jobs.Keys == {0, 1, 2, 3, 4, 5} && NoPublishJob(jobs) && SummaryKnown(jobs, 1)
            && Belongs(jobs[5], 1, ExtractArtifact) && jobs[5].status == Pending
  {
  }

  /** A second session in processing beside the saga of the first. */
  lemma SecondSession() returns (steps: seq<Step>)
    ensures var w := After(steps);
            && Standing(w, 1, Processing) && Owned(w.t, 1, 7) && w.t.artifacts == map[]
            && NoPublishJob(w.t.jobs) && 5 in w.t.jobs
            && Belongs(w.t.jobs[5], 1, ExtractArtifact) && w.t.jobs[5].status == Pending
            && 0 in w.t.deletions && w.t.deletions[0] == NewDeletion(0, DeleteArtifactRows, None, 0)
  {
    var first := FirstSession();
    SecondUnused(After(first));
    var start := StartSession(After(first), 1, 7, 1, [3, 4, 5]);
    RunConcat(EMPTY_WORLD, first, start);
    steps := first + start;
    SecondJobs(0);
    Reachable(steps);
    StampedRun(EMPTY_WORLD, steps);
  }

  /** From empty tables there is a run to a publication under way, beside the
      pending saga of another session. */
  lemma ReachUnderWay() returns (steps: seq<Step>, x: Id, a: Id)
    ensures UnderWay(After(steps), x, 1, a) && OtherWaiting(After(steps), 0, 1) && Owned(After(steps).t, 1, 7)
  {
    var second := SecondSession();
    var review, b := ToReview(After(second), 1, 5);
    var request, y := ReviewAndRequest(Run(After(second), review), 1, b);
    RunConcat(EMPTY_WORLD, second, review);
    RunConcat(EMPTY_WORLD, second + review, request);
    steps, x, a := second + review + request, y, b;
  }

  /** A run that leaks: an artifact ends published and its session publish_failed. */
  lemma LeakIsReachable() returns (steps: seq<Step>, a: Id)
    ensures PublishedIn(After(steps).t.artifacts, a) && After(steps).t.artifacts[a].session == 1
    ensures InStatus(After(steps), 1, PublishFailed)
  {
    var before, x, b := ReachUnderWay();
    var w := After(before);
    var ids := ThreeFresh(w.t.jobs);
    var artifact := FreshId(w.drawn.Keys);
    var e := Surroundings(ProviderError, artifact, "");
    var leak := [StatusStep(1, 7, Some(PublishFailed), ids), FinishStep(x, e, Attempt(0, Done))];
    PublicationLeaks(w, x, 1, 7, b, 0, ids, e);
    RunConcat(EMPTY_WORLD, before, leak);
    steps, a := before + leak, b;
  }

  /** A run that publishes: artifact and session end published. */
  lemma PublicationIsReachable() returns (steps: seq<Step>, a: Id)
    ensures PublishedIn(After(steps).t.artifacts, a) && After(steps).t.artifacts[a].session == 1
    ensures InStatus(After(steps), 1, SessionStatus.Published)
  {
    var before, x, b := ReachUnderWay();
    var artifact := FreshId(After(before).drawn.Keys);
    var finish := [FinishStep(x, Surroundings(ProviderError, artifact, ""), NoDeletion)];
    PublicationCompletes(After(before), x, 1, b, Surroundings(ProviderError, artifact, ""));
    RunConcat(EMPTY_WORLD, before, finish);
    steps, a := before + finish, b;
  }

  lemma ThreeFresh(jobs: map<Id, Job>) returns (ids: seq<Id>)
    ensures FreshIds(jobs, ids)
  {
    var n := Above(jobs.Keys);
    ids := [n, n + 1, n + 2];
  }
}
