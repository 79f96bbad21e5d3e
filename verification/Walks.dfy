/** Building runs of the engine: single requests, walks along the status
    endpoint, and executing a job to its end. */
module Walks {
  import opened Domain
  import opened StateMachine
  import opened Keys
  import opened Orchestrator
  import opened SessionApi
  import opened ArtifactService
  import opened Agents
  import opened Worker
  import opened System
  import opened SystemInvariant
  import opened SystemRuns
  import opened SystemTheorems
  import opened JobRows

  lemma {:induction false} RunConcat(w: World, a: seq<Step>, b: seq<Step>)
    ensures Run(w, a + b) == Run(Run(w, a), b)
  {
    if b == [] {
      assert a + b == a;
    } else {
      var last := |b| - 1;
      RunConcat(w, a, b[..last]);
      assert (a + b)[..|a + b| - 1] == a + b[..last];
    }
  }

  lemma RunOne(w: World, st: Step)
    ensures Run(w, [st]) == Apply(w, st)
  {
    assert [st][..0] == [];
    assert Run(w, []) == w;
  }

  lemma RunThen(w: World, steps: seq<Step>, st: Step)
    ensures Run(w, steps + [st]) == Apply(Run(w, steps), st)
  {
    assert (steps + [st])[..|steps|] == steps;
  }

  lemma {:induction false} StampedRun(w: World, steps: seq<Step>)
    requires Inv(w) && Stamped(w.t.jobs)
    ensures Stamped(Run(w, steps).t.jobs)
  {
    if steps != [] {
      var before := steps[..|steps| - 1];
      StampedRun(w, before);
      RunOn(w, before);
      StampedStep(Run(w, before), steps[|steps| - 1]);
    }
  }

  // ---- Fresh identifiers ----

  /** There always is an identifier not yet in use. */
  lemma FreshId(used: set<Id>) returns (id: Id)
    ensures id !in used
  {
    id := Above(used);
  }

  lemma {:induction false} Above(used: set<Id>) returns (id: Id)
    ensures forall i :: i in used ==> i < id
    decreases |used|
  {
    if used == {} {
      id := 0;
    } else {
      var i :| i in used;
      var n := Above(used - {i});
      assert forall k :: k in used ==> k == i || k in used - {i};
      id := if n <= i then i + 1 else n;
    }
  }

  lemma {:induction false} FreshSuffix(keys: set<JobKey>, sid: Id) returns (suffix: string)
    ensures RetryKey(sid, suffix) !in keys
  {
    suffix := Longer(keys);
  }

  lemma {:induction false} Longer(keys: set<JobKey>) returns (suffix: string)
    ensures forall k :: k in keys && k.RetryKey? ==> |k.suffix| < |suffix|
    decreases |keys|
  {
    if keys == {} {
      suffix := "";
    } else {
      var k :| k in keys;
      var s := Longer(keys - {k});
      suffix := if k.RetryKey? then s + k.suffix + "x" else s;
    }
  }

  // ---- Executing a job ----

  /** Rows that are completed on either side are the same on both. */
  predicate SameCompleted(jobs: map<Id, Job>, after: map<Id, Job>) {
    && after.Keys == jobs.Keys
    && forall i :: i in jobs && (jobs[i].status == Completed || after[i].status == Completed) ==> after[i] == jobs[i]
  }

  /** A moment at which a running job has timed out and a due time has come. */
  function Late(w: World, j: Id): Time
    requires j in w.t.jobs
  {
    var job := w.t.jobs[j];
    w.now + JOB_TIMEOUT + 1 + (if job.startedAt.Some? then job.startedAt.value else 0)
      + (if job.nextRunAt.Some? then job.nextRunAt.value else 0)
  }

  /** The world once the worker has claimed the job after a long wait. */
  function Taken(w: World, x: Id, j: Id, now: Time): World
    requires j in w.t.jobs
  {
    w.(t := Claim(w.t, j, now), executors := w.executors[x := j], now := now)
  }

  lemma TakeDue(w: World, x: Id, j: Id) returns (steps: seq<Step>)
    requires Stamped(w.t.jobs) && x !in w.executors && j in w.t.jobs
    requires w.t.jobs[j].status == Pending || w.t.jobs[j].status == Running
    ensures Run(w, steps) == Taken(w, x, j, Late(w, j))
  {
    var dt := Late(w, j) - w.now;
    steps := [Tick(dt)] + [ClaimStep(x, j)];
    RunOne(w, Tick(dt));
    RunThen(w, [Tick(dt)], ClaimStep(x, j));
    var later := w.(now := w.now + dt);
    assert Apply(w, Tick(dt)) == later;
    assert Claimable(Release(later.t.jobs, later.now)[j], later.now);
    assert Enabled(later, ClaimStep(x, j));
  }

  /** The worker runs the job; nothing else changed but the clock, the log and
      rows that are not completed. */
  predicate Took(w: World, end: World, x: Id, j: Id) {
    && end == w.(t := w.t.(jobs := end.t.jobs, events := end.t.events), now := end.now,
                 executors := w.executors[x := j])
    && SameCompleted(w.t.jobs, end.t.jobs) && SameIdentity(w.t.jobs, end.t.jobs)
    && j in end.t.jobs && end.t.jobs[j].status == Running
  }

  lemma TakenTook(w: World, x: Id, j: Id, now: Time)
    requires j in w.t.jobs && w.t.jobs[j].status != Completed
    ensures Took(w, Taken(w, x, j, now), x, j)
  {
  }

  /** A failed job is retried first. */
  function Retried(w: World, j: Id, newId: Id): World
    requires j in w.t.jobs
  {
    w.(t := RetryJob(w.t, j, newId, w.now))
  }

  lemma RetriedRow(t: Tables, j: Id, newId: Id, now: Time)
    requires j in t.jobs
    ensures RetryJob(t, j, newId, now)
         == t.(jobs := t.jobs[j := t.jobs[j].(status := Pending)],
               events := t.events + [JobMoved(j, t.jobs[j].status, Pending)])
  {
  }

  lemma RetriedTook(w: World, newId: Id, end: World, x: Id, j: Id)
    requires j in w.t.jobs && w.t.jobs[j].status == Failed && Took(Retried(w, j, newId), end, x, j)
    ensures Took(w, end, x, j)
  {
    RetriedRow(w.t, j, newId, w.now);
  }

  /** Every job that is not completed can be claimed: failed jobs after a retry,
      running ones after the timeout. */
  lemma TakeJob(w: World, x: Id, j: Id) returns (steps: seq<Step>)
    requires Stamped(w.t.jobs) && x !in w.executors && j in w.t.jobs && w.t.jobs[j].status != Completed
    ensures Took(w, Run(w, steps), x, j)
  {
    if w.t.jobs[j].status == Failed {
      var newId := FreshId(w.t.jobs.Keys);
      var retried := Retried(w, j, newId);
      RetriedRow(w.t, j, newId, w.now);
      RunOne(w, RetryStep(j, newId));
      assert Apply(w, RetryStep(j, newId)) == retried;
      var rest := TakeDue(retried, x, j);
      TakenTook(retried, x, j, Late(retried, j));
      RetriedTook(w, newId, Run(retried, rest), x, j);
      RunConcat(w, [RetryStep(j, newId)], rest);
      steps := [RetryStep(j, newId)] + rest;
    } else {
      steps := TakeDue(w, x, j);
      TakenTook(w, x, j, Late(w, j));
    }
  }

  // ---- Extractions and what they need ----

  predicate InStatus(w: World, sid: Id, s: SessionStatus) {
    sid in w.t.sessions && w.t.sessions[sid].status == s
  }

  predicate Belongs(job: Job, sid: Id, jobType: JobType) {
    job.session == sid && job.jobType == jobType
  }

  predicate HasArtifact(t: Tables, sid: Id) {
    exists a :: a in t.artifacts && t.artifacts[a].session == sid
  }

  predicate LiveExtraction(w: World, sid: Id) {
    exists j :: j in w.t.jobs && Belongs(w.t.jobs[j], sid, ExtractArtifact) && Live(w, j)
  }

  lemma CompletedUnique(t: Tables, sid: Id, jobType: JobType)
    requires KeysOk(t.jobs) && (jobType == Transcribe || jobType == Summarize)
    ensures |CompletedRows(t, sid, jobType)| <= 1
    ensures forall j :: j in CompletedRows(t, sid, jobType) ==> CompletedRows(t, sid, jobType) == {j}
  {
    var rows := CompletedRows(t, sid, jobType);
    forall i, j | i in rows && j in rows
      ensures i == j
    {
      assert KeyFits(t.jobs[i]) && KeyFits(t.jobs[j]);
    }
    if rows != {} {
      var j :| j in rows;
      assert rows == {j};
    }
  }


  /** The session's summary, if completed, names a known kind. */
  predicate SummaryKnown(jobs: map<Id, Job>, sid: Id) {
    forall j :: j in jobs && Belongs(jobs[j], sid, Summarize) && jobs[j].status == Completed ==>
      KindOf(jobs[j].output) in ARTIFACT_KINDS
  }

  predicate Standing(w: World, sid: Id, s: SessionStatus) {
    Inv(w) && Stamped(w.t.jobs) && InStatus(w, sid, s) && !Early(s) && SummaryKnown(w.t.jobs, sid)
  }

  predicate Source(w: World, sid: Id) {
    HasArtifact(w.t, sid) || LiveExtraction(w, sid)
  }

  lemma StandingAfter(w: World, steps: seq<Step>, sid: Id, s: SessionStatus)
    requires Inv(w) && Stamped(w.t.jobs) && InStatus(Run(w, steps), sid, s) && !Early(s)
    requires SummaryKnown(Run(w, steps).t.jobs, sid)
    ensures Standing(Run(w, steps), sid, s)
  {
    RunOn(w, steps);
    StampedRun(w, steps);
  }

  /** Providers answer, the model with an empty document. */
  const ANSWER: Provider := ProviderAnswer("", None)

  /** The world after an execution whose handler returns, without a deletion half. */
  function Ended(w: World, x: Id, after: Tables, artifact: Id): World
    requires x in w.executors && w.executors[x] in w.t.jobs
  {
    w.(t := after, executors := w.executors - {x}, drawn := w.drawn[artifact := w.t.jobs[w.executors[x]].session])
  }

  lemma FinishAlone(w: World, x: Id, artifact: Id, p: Provider)
    requires x in w.executors && w.executors[x] in w.t.jobs && artifact !in w.drawn
    requires Registered(w.t.jobs[w.executors[x]].jobType) && Handle(w.t, w.executors[x], p, artifact, w.now).Ok?
    ensures Run(w, [FinishStep(x, Surroundings(p, artifact, ""), NoDeletion)])
         == Ended(w, x, Handle(w.t, w.executors[x], p, artifact, w.now).t, artifact)
  {
    RunOne(w, FinishStep(x, Surroundings(p, artifact, ""), NoDeletion));
  }

  lemma TranscriptThere(t: Tables, j: Id)
    requires KeysOk(t.jobs) && PayloadsOk(t.jobs) && j in t.jobs
    requires t.jobs[j].jobType == Transcribe && t.jobs[j].status == Completed
    ensures HasTranscript(t, t.jobs[j].session)
  {
    CompletedUnique(t, t.jobs[j].session, Transcribe);
    assert j in CompletedRows(t, t.jobs[j].session, Transcribe);
    assert CompletedRows(t, t.jobs[j].session, Transcribe) == {j};
  }

  /** Writing one job row that is no extraction keeps the sources of extractions. */
  lemma SourceKept(w: World, after: World, j: Id, x: Id, sid: Id)
    requires Source(w, sid) && after.t.artifacts == w.t.artifacts
    requires j in w.t.jobs && w.t.jobs[j].jobType != ExtractArtifact
    requires j in after.t.jobs && after.t.jobs == w.t.jobs[j := after.t.jobs[j]]
    requires after.executors == w.executors - {x} && (x in w.executors ==> w.executors[x] == j)
    ensures Source(after, sid)
  {
    if HasArtifact(w.t, sid) {
      assert HasArtifact(after.t, sid);
    } else {
      var k :| k in w.t.jobs && Belongs(w.t.jobs[k], sid, ExtractArtifact) && Live(w, k);
      assert after.t.jobs[k] == w.t.jobs[k];
      if w.t.jobs[k].status == Completed {
        var i :| i in w.executors && w.executors[i] == k;
        assert after.executors[i] == k && Held(after, k);
      }
      assert Live(after, k);
    }
  }

  lemma SourceTaken(w: World, after: World, x: Id, j: Id, sid: Id)
    requires Source(w, sid) && x !in w.executors && Took(w, after, x, j)
    ensures Source(after, sid)
  {
    if HasArtifact(w.t, sid) {
      assert HasArtifact(after.t, sid);
    } else {
      var k :| k in w.t.jobs && Belongs(w.t.jobs[k], sid, ExtractArtifact) && Live(w, k);
      if w.t.jobs[k].status == Completed {
        var i :| i in w.executors && w.executors[i] == k;
        assert after.executors[i] == k && Held(after, k);
      }
      assert Live(after, k) && Belongs(after.t.jobs[k], sid, ExtractArtifact);
    }
  }

  // Handlers that return.

  lemma SummarizeReturns(t: Tables, j: Id, p: Provider, aid: Id, now: Time)
    requires j in t.jobs && t.jobs[j].jobType == Summarize && HasTranscript(t, t.jobs[j].session) && p.ProviderAnswer?
    ensures Handle(t, j, p, aid, now) == Ok(Finish(t, j, p.document))
  {
  }

  lemma SummaryReturns(t: Tables, j: Id, aid: Id, now: Time)
    requires Good(t) && j in t.jobs && t.jobs[j].jobType == Summarize && t.jobs[j].status == Completed
    ensures Handle(t, j, ANSWER, aid, now) == Ok(Finish(t, j, None))
  {
    assert Transcribed(t.jobs, t.jobs[j].session);
    var i :| i in t.jobs && t.jobs[i].session == t.jobs[j].session && t.jobs[i].jobType == Transcribe
             && t.jobs[i].status == Completed && t.jobs[i].output.Some?;
    TranscriptThere(t, i);
  }

  lemma TranscriptionReturns(t: Tables, j: Id, aid: Id, now: Time)
    requires RowsOk(t) && j in t.jobs && t.jobs[j].jobType == Transcribe
    ensures Handle(t, j, ANSWER, aid, now) == Ok(Finish(t, j, Some(Transcript(""))))
  {
    assert OfActive(t.sessions, t.jobs[j].session);
  }

  /** One new artifact to review, and its session in review. */
  predicate InReview(t: Tables, after: Tables, sid: Id, a: Id) {
    && sid in t.sessions && a in after.artifacts && after.jobs.Keys == t.jobs.Keys
    && after == t.(jobs := after.jobs, sessions := t.sessions[sid := WithStatus(t.sessions[sid], NeedsReview)],
                   artifacts := t.artifacts[a := after.artifacts[a]])
    && after.artifacts[a].session == sid && after.artifacts[a].status == PendingReview
  }

  lemma ExtractionReturns(t: Tables, j: Id, aid: Id, now: Time)
    requires KeysOk(t.jobs) && j in t.jobs && t.jobs[j].jobType == ExtractArtifact && t.jobs[j].session in t.sessions
    requires HasTranscript(t, t.jobs[j].session) && SummaryKnown(t.jobs, t.jobs[j].session)
    ensures var r := Handle(t, j, ANSWER, aid, now); r.Ok? && InReview(t, r.t, t.jobs[j].session, aid)
  {
    CompletedUnique(t, t.jobs[j].session, Summarize);
    assert KindOf(None) in ARTIFACT_KINDS;
  }

  lemma FinishedSummary(jobs: map<Id, Job>, j: Id, sid: Id)
    requires KeysOk(jobs) && j in jobs && Belongs(jobs[j], sid, Summarize)
    ensures SummaryKnown(jobs[j := jobs[j].(status := Completed, output := None)], sid)
  {
    forall i | i in jobs && Belongs(jobs[i], sid, Summarize)
      ensures i == j
    {
      assert KeyFits(jobs[i]) && KeyFits(jobs[j]);
    }
  }

  /** A completed summary of unknown kind is still being run again: let it end. */
  lemma EndSummary(w: World, sid: Id, x: Id, s: SessionStatus) returns (steps: seq<Step>)
    requires Inv(w) && Stamped(w.t.jobs) && InStatus(w, sid, s) && !Early(s) && Source(w, sid)
    requires x in w.executors && Belongs(w.t.jobs[w.executors[x]], sid, Summarize)
    requires w.t.jobs[w.executors[x]].status == Completed
    ensures Standing(Run(w, steps), sid, s) && Source(Run(w, steps), sid)
  {
    var j := w.executors[x];
    var artifact := FreshId(w.drawn.Keys);
    SummaryReturns(w.t, j, artifact, w.now);
    FinishAlone(w, x, artifact, ANSWER);
    steps := [FinishStep(x, Surroundings(ANSWER, artifact, ""), NoDeletion)];
    SourceKept(w, Run(w, steps), j, x, sid);
    FinishedSummary(w.t.jobs, j, sid);
    StandingAfter(w, steps, sid, s);
  }

  lemma TranscribeJob(t: Tables, sid: Id) returns (j: Id)
    requires RowsOk(t) && KeysOk(t.jobs) && OfActive(t.sessions, sid)
    ensures j in t.jobs && Belongs(t.jobs[j], sid, Transcribe)
  {
    assert PIPELINE[0] == Transcribe;
    assert KeyTaken(t.jobs, PipelineKey(sid, PIPELINE[0]));
    j :| j in t.jobs && t.jobs[j].key == PipelineKey(sid, Transcribe);
    assert KeyFits(t.jobs[j]);
  }

  lemma KnownTaken(w: World, after: World, x: Id, j: Id, sid: Id)
    requires SummaryKnown(w.t.jobs, sid) && Took(w, after, x, j)
    ensures SummaryKnown(after.t.jobs, sid)
    ensures HasTranscript(w.t, sid) ==> HasTranscript(after.t, sid)
  {
    assert CompletedRows(after.t, sid, Transcribe) == CompletedRows(w.t, sid, Transcribe);
  }

  lemma TakeKeepsStanding(w: World, sid: Id, j: Id, s: SessionStatus) returns (steps: seq<Step>, x: Id)
    requires Standing(w, sid, s) && j in w.t.jobs && w.t.jobs[j].status != Completed
    ensures x !in w.executors && Took(w, Run(w, steps), x, j) && Standing(Run(w, steps), sid, s)
  {
    x := FreshId(w.executors.Keys);
    steps := TakeJob(w, x, j);
    KnownTaken(w, Run(w, steps), x, j, sid);
    StandingAfter(w, steps, sid, s);
  }

  lemma KnownWritten(jobs: map<Id, Job>, j: Id, row: Job, sid: Id)
    requires SummaryKnown(jobs, sid) && (row.jobType != Summarize || row.status != Completed)
    ensures SummaryKnown(jobs[j := row], sid)
  {
  }

  lemma TranscriptAdded(t: Tables, after: Tables, j: Id, row: Job, sid: Id)
    requires HasTranscript(t, sid) && j !in t.jobs && row.status == Pending && after.jobs == t.jobs[j := row]
    ensures HasTranscript(after, sid)
  {
    assert CompletedRows(after, sid, Transcribe) == CompletedRows(t, sid, Transcribe);
  }

  /** Only job rows and the event log differ. */
  predicate JobsOnly(t: Tables, after: Tables) {
    after == t.(jobs := after.jobs, events := after.events) && after.jobs.Keys == t.jobs.Keys
  }

  /** No job but transcriptions has become completed. */
  predicate OnlyTranscribed(jobs: map<Id, Job>, after: map<Id, Job>) {
    forall i :: i in jobs && i in after && after[i].status == Completed && jobs[i].jobType != Transcribe ==>
      jobs[i].status == Completed
  }

  /** The end of a transcription. */
  lemma EndTranscription(w: World, sid: Id, x: Id, s: SessionStatus) returns (steps: seq<Step>)
    requires Standing(w, sid, s) && Source(w, sid)
    requires x in w.executors && Belongs(w.t.jobs[w.executors[x]], sid, Transcribe)
    ensures Standing(Run(w, steps), sid, s) && Source(Run(w, steps), sid) && HasTranscript(Run(w, steps).t, sid)
    ensures Run(w, steps).t == Finish(w.t, w.executors[x], Some(Transcript("")))
    ensures Run(w, steps).executors == w.executors - {x}
  {
    var j := w.executors[x];
    var artifact := FreshId(w.drawn.Keys);
    TranscriptionReturns(w.t, j, artifact, w.now);
    FinishAlone(w, x, artifact, ANSWER);
    steps := [FinishStep(x, Surroundings(ANSWER, artifact, ""), NoDeletion)];
    SourceKept(w, Run(w, steps), j, x, sid);
    KnownWritten(w.t.jobs, j, Run(w, steps).t.jobs[j], sid);
    StandingAfter(w, steps, sid, s);
    TranscriptThere(Run(w, steps).t, j);
  }

  lemma TranscribedFrame(w: World, taken: World, after: World, x: Id, j: Id)
    requires x !in w.executors && Took(w, taken, x, j) && j in w.t.jobs && w.t.jobs[j].jobType == Transcribe
    requires after.t == Finish(taken.t, j, Some(Transcript(""))) && after.executors == taken.executors - {x}
    ensures JobsOnly(w.t, after.t) && OnlyTranscribed(w.t.jobs, after.t.jobs) && after.executors == w.executors
  {
  }

  lemma GetTranscript(w: World, sid: Id, s: SessionStatus) returns (steps: seq<Step>)
    requires Standing(w, sid, s) && Source(w, sid)
    ensures Standing(Run(w, steps), sid, s) && Source(Run(w, steps), sid) && HasTranscript(Run(w, steps).t, sid)
    ensures JobsOnly(w.t, Run(w, steps).t) && OnlyTranscribed(w.t.jobs, Run(w, steps).t.jobs)
    ensures Run(w, steps).executors == w.executors
  {
    var j := TranscribeJob(w.t, sid);
    if w.t.jobs[j].status == Completed {
      TranscriptThere(w.t, j);
      steps := [];
      assert Run(w, []) == w;
    } else {
      var take, x := TakeKeepsStanding(w, sid, j, s);
      SourceTaken(w, Run(w, take), x, j, sid);
      var end := EndTranscription(Run(w, take), sid, x, s);
      TranscribedFrame(w, Run(w, take), Run(Run(w, take), end), x, j);
      RunConcat(w, take, end);
      steps := take + end;
    }
  }

  predicate Extracting(w: World, x: Id, sid: Id) {
    x in w.executors && w.executors[x] in w.t.jobs && Belongs(w.t.jobs[w.executors[x]], sid, ExtractArtifact)
  }

  /** Let a worker take an extraction that is not completed. */
  lemma TakeExtraction(w: World, sid: Id, j: Id, s: SessionStatus) returns (steps: seq<Step>, x: Id)
    requires Standing(w, sid, s) && HasTranscript(w.t, sid)
    requires j in w.t.jobs && Belongs(w.t.jobs[j], sid, ExtractArtifact) && w.t.jobs[j].status != Completed
    ensures var after := Run(w, steps);
            && Standing(after, sid, s) && HasTranscript(after.t, sid) && Extracting(after, x, sid)
            && JobsOnly(w.t, after.t)
  {
    steps, x := TakeKeepsStanding(w, sid, j, s);
    KnownTaken(w, Run(w, steps), x, j, sid);
  }

  lemma FreshSuffixFree(jobs: map<Id, Job>, sid: Id) returns (suffix: string)
    ensures !KeyTaken(jobs, RetryKey(sid, suffix))
  {
    var keys := set i | i in jobs :: jobs[i].key;
    suffix := FreshSuffix(keys, sid);
    assert forall i :: i in jobs ==> jobs[i].key in keys;
  }

  lemma RejectApplies(w: World, a: Id, j: Id, suffix: string)
    requires a in w.t.artifacts && j !in w.t.jobs && !KeyTaken(w.t.jobs, RetryKey(w.t.artifacts[a].session, suffix))
    ensures var after, sid := Run(w, [ReviewStep(a, false, 0, "", j, suffix)]).t, w.t.artifacts[a].session;
            && after.jobs == w.t.jobs[j := NewJob(RetryKey(sid, suffix), sid, ExtractArtifact, RetryReason(""), w.now)]
            && after.sessions == w.t.sessions
  {
    RunOne(w, ReviewStep(a, false, 0, "", j, suffix));
  }

  /** Rejecting an artifact, whatever the status of its session, queues an extraction. */
  lemma RejectArtifact(w: World, sid: Id, a: Id, s: SessionStatus) returns (steps: seq<Step>, j: Id)
    requires Standing(w, sid, s) && HasTranscript(w.t, sid) && a in w.t.artifacts && w.t.artifacts[a].session == sid
    ensures var after := Run(w, steps);
            && Standing(after, sid, s) && HasTranscript(after.t, sid)
            && j in after.t.jobs && Belongs(after.t.jobs[j], sid, ExtractArtifact) && after.t.jobs[j].status == Pending
  {
    j := FreshId(w.t.jobs.Keys);
    var suffix := FreshSuffixFree(w.t.jobs, sid);
    RejectApplies(w, a, j, suffix);
    steps := [ReviewStep(a, false, 0, "", j, suffix)];
    var after := Run(w, steps).t;
    KnownWritten(w.t.jobs, j, after.jobs[j], sid);
    TranscriptAdded(w.t, after, j, after.jobs[j], sid);
    StandingAfter(w, steps, sid, s);
  }

  lemma GetExtraction(w: World, sid: Id, s: SessionStatus) returns (steps: seq<Step>, x: Id)
    requires Standing(w, sid, s) && Source(w, sid) && HasTranscript(w.t, sid)
    ensures var after := Run(w, steps);
            Standing(after, sid, s) && HasTranscript(after.t, sid) && Extracting(after, x, sid)
  {
    if LiveExtraction(w, sid) {
      var j :| j in w.t.jobs && Belongs(w.t.jobs[j], sid, ExtractArtifact) && Live(w, j);
      if w.t.jobs[j].status == Completed {
        x :| x in w.executors && w.executors[x] == j;
        steps := [];
        assert Run(w, []) == w;
      } else {
        steps, x := TakeExtraction(w, sid, j, s);
      }
    } else {
      var a :| a in w.t.artifacts && w.t.artifacts[a].session == sid;
      var reject, j := RejectArtifact(w, sid, a, s);
      var rest;
      rest, x := TakeExtraction(Run(w, reject), sid, j, s);
      RunConcat(w, reject, rest);
      steps := reject + rest;
    }
  }

  /** With the transcript there and a harmless summary, an extraction goes through. */
  lemma ExtractionGoesThrough(w: World, x: Id, sid: Id, s: SessionStatus) returns (st: Step, a: Id)
    requires Standing(w, sid, s) && HasTranscript(w.t, sid) && Extracting(w, x, sid)
    ensures a !in w.drawn && InReview(w.t, Run(w, [st]).t, sid, a)
  {
    a := FreshId(w.drawn.Keys);
    ExtractionReturns(w.t, w.executors[x], a, w.now);
    FinishAlone(w, x, a, ANSWER);
    st := FinishStep(x, Surroundings(ANSWER, a, ""), NoDeletion);
  }
}
