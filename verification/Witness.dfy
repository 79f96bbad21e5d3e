/** Runs from empty tables that reach what the theorems speak of: a retracted
    session that is left, one that is not, and a leaked publication. */
module Witness {
  import opened Domain
  import opened StateMachine
  import opened Orchestrator
  import opened SessionApi
  import opened ArtifactService
  import opened Agents
  import opened Worker
  import opened System
  import opened SystemInvariant
  import opened SystemRuns
  import opened SystemTheorems
  import opened JobRows
  import opened Walks
  import opened Finality
  import opened PollCycle

  // ---- From nothing to processing ----

  /** What the identifiers of a new session must be. */
  predicate Unused(w: World, sid: Id, key: FileKey, ids: seq<Id>) {
    && sid !in w.t.sessions && key !in w.uploads && FreshIds(w.t.jobs, ids)
    && forall stage | stage in PIPELINE :: !KeyTaken(w.t.jobs, PipelineKey(sid, stage))
  }

  /** The session has gone through consent, capture and upload into processing. */
  function Started(w: World, sid: Id, user: Id, key: FileKey, ids: seq<Id>): World
    requires |ids| == 3
  {
    w.(t := w.t.(sessions := w.t.sessions[sid := Session(user, Processing, true, Some(key), None, None,
                                                         [Idle, Capturing, Processing])],
                 jobs := WithPipeline(w.t.jobs, sid, ids, w.now),
                 events := w.t.events + [JobCreated(ids[0]), JobCreated(ids[1]), JobCreated(ids[2])],
                 audit := w.t.audit + [AuditEntry(ConsentGranted, sid, user, w.now)]),
       files := w.files + {key}, uploads := w.uploads[key := sid])
  }

  function Captured(w: World, sid: Id, user: Id, key: FileKey): World {
    w.(t := w.t.(sessions := w.t.sessions[sid := Session(user, Capturing, true, Some(key), None, None,
                                                         [Idle, Capturing])],
                 audit := w.t.audit + [AuditEntry(ConsentGranted, sid, user, w.now)]),
       files := w.files + {key}, uploads := w.uploads[key := sid])
  }

  lemma Overwrite<K, V>(m: map<K, V>, k: K, a: V, b: V)
    ensures m[k := a][k := b] == m[k := b]
  {
  }

  lemma Granting(w: World, sid: Id, user: Id) returns (granted: World)
    requires sid !in w.t.sessions
    ensures var row := Session(user, Idle, true, None, None, None, [Idle]);
            granted == w.(t := w.t.(sessions := w.t.sessions[sid := row],
                                    audit := w.t.audit + [AuditEntry(ConsentGranted, sid, user, w.now)]))
    ensures Run(w, [CreateStep(sid, user, true), ConsentStep(sid, user, true)]) == granted
  {
    var idle := Session(user, Idle, false, None, None, None, [Idle]);
    var created := w.(t := w.t.(sessions := w.t.sessions[sid := idle]));
    Overwrite(w.t.sessions, sid, idle, idle.(consent := true));
    RunOne(w, CreateStep(sid, user, true));
    assert Apply(w, CreateStep(sid, user, true)) == created;
    RunThen(w, [CreateStep(sid, user, true)], ConsentStep(sid, user, true));
    granted := Apply(created, ConsentStep(sid, user, true));
    assert [CreateStep(sid, user, true)] + [ConsentStep(sid, user, true)]
        == [CreateStep(sid, user, true), ConsentStep(sid, user, true)];
  }

  lemma Uploading(w: World, t: Tables, sid: Id, user: Id, key: FileKey, ids: seq<Id>)
    requires key !in w.uploads && FreshIds(t.jobs, ids) && sid in t.sessions
    requires t.sessions[sid] == Session(user, Idle, true, None, None, None, [Idle])
    ensures Run(w.(t := t), [StatusStep(sid, user, Some(Capturing), ids), UploadStep(sid, user, key)])
         == w.(t := t.(sessions := t.sessions[sid := Session(user, Capturing, true, Some(key), None, None,
                                                             [Idle, Capturing])]),
               files := w.files + {key}, uploads := w.uploads[key := sid])
  {
    var capturing := WithStatus(t.sessions[sid], Capturing);
    assert capturing.trace == [Idle, Capturing];
    Overwrite(t.sessions, sid, capturing, capturing.(audioKey := Some(key)));
    var mid := w.(t := t.(sessions := t.sessions[sid := capturing]));
    assert Apply(w.(t := t), StatusStep(sid, user, Some(Capturing), ids)) == mid;
    RunOne(w.(t := t), StatusStep(sid, user, Some(Capturing), ids));
    RunThen(w.(t := t), [StatusStep(sid, user, Some(Capturing), ids)], UploadStep(sid, user, key));
    assert [StatusStep(sid, user, Some(Capturing), ids)] + [UploadStep(sid, user, key)]
        == [StatusStep(sid, user, Some(Capturing), ids), UploadStep(sid, user, key)];
  }

  lemma Capture(w: World, sid: Id, user: Id, key: FileKey, ids: seq<Id>) returns (steps: seq<Step>)
    requires Unused(w, sid, key, ids)
    ensures Run(w, steps) == Captured(w, sid, user, key)
  {
    var granted := Granting(w, sid, user);
    var idle, captured := granted.t.sessions[sid], Captured(w, sid, user, key).t.sessions[sid];
    Uploading(w, granted.t, sid, user, key, ids);
    Overwrite(w.t.sessions, sid, idle, captured);
    var grant, upload := [CreateStep(sid, user, true), ConsentStep(sid, user, true)],
                         [StatusStep(sid, user, Some(Capturing), ids), UploadStep(sid, user, key)];
    RunConcat(w, grant, upload);
    steps := grant + upload;
  }

  lemma Processed(w: World, sid: Id, user: Id, ids: seq<Id>)
    requires FreshIds(w.t.jobs, ids) && Owned(w.t, sid, user) && w.t.sessions[sid].status == Capturing
    requires w.t.sessions[sid].audioKey.Some?
    requires forall stage | stage in PIPELINE :: !KeyTaken(w.t.jobs, PipelineKey(sid, stage))
    ensures Apply(w, StatusStep(sid, user, Some(Processing), ids))
         == w.(t := w.t.(sessions := w.t.sessions[sid := WithStatus(w.t.sessions[sid], Processing)],
                         jobs := WithPipeline(w.t.jobs, sid, ids, w.now),
                         events := w.t.events + [JobCreated(ids[0]), JobCreated(ids[1]), JobCreated(ids[2])]))
  {
    PipelineFree(w.t, sid, ids, w.now);
  }

  lemma StartSession(w: World, sid: Id, user: Id, key: FileKey, ids: seq<Id>) returns (steps: seq<Step>)
    requires Unused(w, sid, key, ids)
    ensures Run(w, steps) == Started(w, sid, user, key, ids)
  {
    var capture := Capture(w, sid, user, key, ids);
    var captured := Captured(w, sid, user, key);
    var row := captured.t.sessions[sid];
    Processed(captured, sid, user, ids);
    assert WithStatus(row, Processing).trace == [Idle, Capturing, Processing];
    Overwrite(w.t.sessions, sid, row, WithStatus(row, Processing));
    RunThen(w, capture, StatusStep(sid, user, Some(Processing), ids));
    steps := capture + [StatusStep(sid, user, Some(Processing), ids)];
  }

  // ---- Along the status endpoint ----

  predicate Edge(from: SessionStatus, path: seq<SessionStatus>, i: nat)
    requires i < |path|
  {
    CanTransition(if i == 0 then from else path[i - 1], path[i], false) && path[i] != Processing
  }

  /** Every status is reached from the one before by an edge of the table. */
  predicate LegalPath(from: SessionStatus, path: seq<SessionStatus>) {
    forall i :: 0 <= i < |path| ==> Edge(from, path, i)
  }

  lemma PathPrefix(from: SessionStatus, path: seq<SessionStatus>, n: nat)
    requires n <= |path| && LegalPath(from, path)
    ensures LegalPath(from, path[..n])
  {
    forall i | 0 <= i < n
      ensures Edge(from, path[..n], i)
    {
      assert Edge(from, path, i);
    }
  }

  function Walked(s: Session, path: seq<SessionStatus>): Session {
    if path == [] then s else WithStatus(Walked(s, path[..|path| - 1]), path[|path| - 1])
  }

  lemma OwnerMoves(w: World, sid: Id, user: Id, target: SessionStatus, ids: seq<Id>)
    requires Owned(w.t, sid, user) && FreshIds(w.t.jobs, ids)
    requires CanTransition(w.t.sessions[sid].status, target, false) && target != Processing
    ensures Apply(w, StatusStep(sid, user, Some(target), ids)) == w.(t := SetStatus(w.t, sid, target))
  {
  }

  lemma {:induction false} PatchWalk(w: World, sid: Id, user: Id, path: seq<SessionStatus>, ids: seq<Id>)
    returns (steps: seq<Step>)
    requires Owned(w.t, sid, user) && FreshIds(w.t.jobs, ids) && LegalPath(w.t.sessions[sid].status, path)
    ensures Run(w, steps) == w.(t := w.t.(sessions := w.t.sessions[sid := Walked(w.t.sessions[sid], path)]))
    ensures Walked(w.t.sessions[sid], path).status == if path == [] then w.t.sessions[sid].status else path[|path| - 1]
    ensures Walked(w.t.sessions[sid], path).user == user
    decreases |path|
  {
    if path == [] {
      steps := [];
      assert Run(w, []) == w;
    } else {
      var last := |path| - 1;
      PathPrefix(w.t.sessions[sid].status, path, last);
      assert Edge(w.t.sessions[sid].status, path, last);
      var before := PatchWalk(w, sid, user, path[..last], ids);
      var mid := w.(t := w.t.(sessions := w.t.sessions[sid := Walked(w.t.sessions[sid], path[..last])]));
      OwnerMoves(mid, sid, user, path[last], ids);
      Overwrite(w.t.sessions, sid, Walked(w.t.sessions[sid], path[..last]), Walked(w.t.sessions[sid], path));
      RunThen(w, before, StatusStep(sid, user, Some(path[last]), ids));
      steps := before + [StatusStep(sid, user, Some(path[last]), ids)];
    }
  }

  const TO_RETRACTED: seq<SessionStatus> :=
    [NeedsReview, Reviewing, SessionStatus.Approved, SessionStatus.Publishing, SessionStatus.Published,
     Retracting, Retracted]

  lemma TablePath()
    ensures LegalPath(Processing, TO_RETRACTED)
  {
    forall i | 0 <= i < |TO_RETRACTED|
      ensures Edge(Processing, TO_RETRACTED, i)
    {
      assert i == 0 || i == 1 || i == 2 || i == 3 || i == 4 || i == 5 || i == 6;
    }
  }

  lemma EmptyUnused(ids: seq<Id>)
    requires |ids| == 3 && ids[0] != ids[1] && ids[0] != ids[2] && ids[1] != ids[2]
    ensures Unused(EMPTY_WORLD, 0, 0, ids)
  {
  }

  /** A session that walked to retracted while its jobs wait. */
  lemma WalkToRetracted() returns (steps: seq<Step>)
    ensures var w := After(steps);
            && InStatus(w, 0, Retracted) && w.executors == map[]
            && w.t.jobs == WithPipeline(map[], 0, [0, 1, 2], w.now)
  {
    EmptyUnused([0, 1, 2]);
    var start := StartSession(EMPTY_WORLD, 0, 7, 0, [0, 1, 2]);
    TablePath();
    var walk := PatchWalk(After(start), 0, 7, TO_RETRACTED, [3, 4, 5]);
    RunConcat(EMPTY_WORLD, start, walk);
    steps := start + walk;
  }

  /** Three jobs nobody has touched: an extraction is still to come. */
  lemma WaitingCanBeLeft(w: World, sid: Id, ids: seq<Id>, now: Time)
    requires FreshIds(map[], ids) && w.t.jobs == WithPipeline(map[], sid, ids, now)
    ensures CanBeLeft(w, sid)
  {
    assert Belongs(w.t.jobs[ids[2]], sid, ExtractArtifact) && Live(w, ids[2]);
    assert forall j :: j in w.t.jobs ==> w.t.jobs[j].status == Pending;
  }

  /** Retracted is not absorbing: a session is retracted and then left. */
  lemma RetractedIsLeft() returns (steps: seq<Step>, more: seq<Step>)
    ensures InStatus(After(steps), 0, Retracted) && InStatus(Run(After(steps), more), 0, NeedsReview)
  {
    steps := WalkToRetracted();
    WaitingCanBeLeft(After(steps), 0, [0, 1, 2], After(steps).now);
    Reachable(steps);
    StampedRun(EMPTY_WORLD, steps);
    more := Leave(After(steps), 0);
  }

  // ---- A retracted session that stays ----

  const MEMO: Provider := ProviderAnswer("", Some(Summary(Some("memo"), None)))

  lemma MemoUnknown()
    ensures KindOf(MEMO.document) !in ARTIFACT_KINDS
  {
    assert |"memo"| == 4;
  }

  lemma MemoSticks(taken: World, x: Id, j: Id, sid: Id, artifact: Id)
    requires taken.executors == map[x := j] && j in taken.t.jobs && Belongs(taken.t.jobs[j], sid, Summarize)
    ensures SummaryStuck(Ended(taken, x, Finish(taken.t, j, MEMO.document), artifact), sid)
  {
    var after := Ended(taken, x, Finish(taken.t, j, MEMO.document), artifact);
    assert !Held(after, j) && Belongs(after.t.jobs[j], sid, Summarize);
    MemoUnknown();
  }

  lemma EndMemo(taken: World, x: Id, j: Id, sid: Id) returns (steps: seq<Step>)
    requires taken.executors == map[x := j] && j in taken.t.jobs && Belongs(taken.t.jobs[j], sid, Summarize)
    requires HasTranscript(taken.t, sid)
    ensures SummaryStuck(Run(taken, steps), sid) && Run(taken, steps).t == Finish(taken.t, j, MEMO.document)
  {
    var artifact := FreshId(taken.drawn.Keys);
    SummarizeReturns(taken.t, j, MEMO, artifact, taken.now);
    FinishAlone(taken, x, artifact, MEMO);
    MemoSticks(taken, x, j, sid, artifact);
    steps := [FinishStep(x, Surroundings(MEMO, artifact, ""), NoDeletion)];
  }

  lemma TakenAlone(w: World, taken: World, x: Id, j: Id)
    requires Took(w, taken, x, j) && w.executors == map[]
    ensures taken.executors == map[x := j] && JobsOnly(w.t, Finish(taken.t, j, MEMO.document))
    ensures j in w.t.jobs ==> Belongs(taken.t.jobs[j], w.t.jobs[j].session, w.t.jobs[j].jobType)
  {
  }

  /** A summary naming an unknown kind, completed and run by nobody. */
  lemma SpoilSummary(w: World, sid: Id, j: Id) returns (steps: seq<Step>)
    requires Standing(w, sid, Processing) && HasTranscript(w.t, sid) && w.executors == map[]
    requires j in w.t.jobs && Belongs(w.t.jobs[j], sid, Summarize) && w.t.jobs[j].status != Completed
    ensures SummaryStuck(Run(w, steps), sid) && JobsOnly(w.t, Run(w, steps).t)
  {
    var x := FreshId(w.executors.Keys);
    var take := TakeJob(w, x, j);
    KnownTaken(w, Run(w, take), x, j, sid);
    TakenAlone(w, Run(w, take), x, j);
    var end := EndMemo(Run(w, take), x, j, sid);
    RunConcat(w, take, end);
    steps := take + end;
  }

  lemma WaitingKnown(ids: seq<Id>, sid: Id, now: Time)
    requires FreshIds(map[], ids)
    ensures SummaryKnown(WithPipeline(map[], sid, ids, now), sid)
  {
  }

  /** A session just started from empty tables, its three jobs waiting. */
  lemma FirstStart() returns (steps: seq<Step>)
    ensures After(steps).t.jobs == WithPipeline(map[], 0, [0, 1, 2], 0) && After(steps).executors == map[]
    ensures Owned(After(steps).t, 0, 7)
    ensures Standing(After(steps), 0, Processing) && Source(After(steps), 0)
  {
    EmptyUnused([0, 1, 2]);
    steps := StartSession(EMPTY_WORLD, 0, 7, 0, [0, 1, 2]);
    Reachable(steps);
    StampedRun(EMPTY_WORLD, steps);
    WaitingCanBeLeft(After(steps), 0, [0, 1, 2], 0);
    WaitingKnown([0, 1, 2], 0, 0);
  }

  /** A job other than the transcription has not been completed by it. */
  lemma StillWaiting(w: World, steps: seq<Step>, i: Id)
    requires Inv(w) && i in w.t.jobs && w.t.jobs[i].status != Completed && w.t.jobs[i].jobType != Transcribe
    requires OnlyTranscribed(w.t.jobs, Run(w, steps).t.jobs)
    ensures var after := Run(w, steps).t.jobs;
            && i in after && after[i].status != Completed
            && Belongs(after[i], w.t.jobs[i].session, w.t.jobs[i].jobType)
  {
    RunOn(w, steps);
  }

  lemma Spoil(w: World, sid: Id, j: Id) returns (steps: seq<Step>)
    requires Standing(w, sid, Processing) && Source(w, sid) && w.executors == map[]
    requires j in w.t.jobs && Belongs(w.t.jobs[j], sid, Summarize) && w.t.jobs[j].status != Completed
    ensures SummaryStuck(Run(w, steps), sid) && JobsOnly(w.t, Run(w, steps).t)
  {
    var transcribe := GetTranscript(w, sid, Processing);
    StillWaiting(w, transcribe, j);
    var spoil := SpoilSummary(Run(w, transcribe), sid, j);
    RunConcat(w, transcribe, spoil);
    steps := transcribe + spoil;
  }

  lemma FirstJobs()
    ensures var jobs := WithPipeline(map[], 0, [0, 1, 2], 0);
            && jobs.Keys == {0, 1, 2} && jobs[1].status == Pending && Belongs(jobs[1], 0, Summarize)
  {
  }

  lemma Spoiled() returns (steps: seq<Step>)
    ensures SummaryStuck(After(steps), 0) && InStatus(After(steps), 0, Processing)
    ensures Owned(After(steps).t, 0, 7) && After(steps).t.jobs.Keys == {0, 1, 2}
  {
    var start := FirstStart();
    FirstJobs();
    var spoil := Spoil(After(start), 0, 1);
    RunConcat(EMPTY_WORLD, start, spoil);
    steps := start + spoil;
  }

  lemma StuckWalks(w: World, sid: Id, row: Session)
    requires SummaryStuck(w, sid)
    ensures SummaryStuck(w.(t := w.t.(sessions := w.t.sessions[sid := row])), sid)
  {
    var after := w.(t := w.t.(sessions := w.t.sessions[sid := row]));
    var j :| j in w.t.jobs && Belongs(w.t.jobs[j], sid, Summarize) && !Live(w, j)
             && KindOf(w.t.jobs[j].output) !in ARTIFACT_KINDS;
    assert after.t.jobs[j] == w.t.jobs[j] && !Live(after, j);
  }

  /** Nor is it always left: a session is retracted and stays so over every run. */
  lemma RetractedStays() returns (steps: seq<Step>)
    ensures InStatus(After(steps), 0, Retracted)
    ensures forall more :: InStatus(Run(After(steps), more), 0, Retracted)
  {
    var spoil := Spoiled();
    TablePath();
    var walk := PatchWalk(After(spoil), 0, 7, TO_RETRACTED, [3, 4, 5]);
    StuckWalks(After(spoil), 0, Walked(After(spoil).t.sessions[0], TO_RETRACTED));
    RunConcat(EMPTY_WORLD, spoil, walk);
    steps := spoil + walk;
    RetractedFinal(steps, 0);
  }
}
