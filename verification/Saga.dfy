/** The retract saga: what its deletion jobs reach despite crashes and
    re-executions, whatever else happens meanwhile. */
module Saga {
  import opened Domain
  import opened SessionApi
  import opened ArtifactService
  import opened Agents
  import opened Worker
  import opened System
  import opened SystemInvariant
  import opened SystemRuns
  import opened SystemTheorems
  import opened Walks

  // ---- What a deletion half removes ----

  function HalfOf(st: Step): Half {
    if st.FinishStep? || st.DeletionStep? then st.half else NoDeletion
  }

  /** The step commits a removal of the session's artifact rows. */
  predicate RemovesRowsOf(w: World, st: Step, sid: Id) {
    var half := HalfOf(st);
    && Enabled(w, st) && half.Attempt? && half.outcome.Done? && half.d in w.t.deletions
    && w.t.deletions[half.d].kind == DeleteArtifactRows && w.t.deletions[half.d].session == sid
  }

  /** The step removes the file for a deletion job, committed or not. */
  predicate RemovesFileFor(w: World, st: Step, key: FileKey, sid: Id) {
    var half := HalfOf(st);
    && Enabled(w, st) && half.Attempt? && (half.outcome.Done? || half.outcome == Died(true)) && half.d in w.t.deletions
    && w.t.deletions[half.d].kind == DeleteLocalAudio && w.t.deletions[half.d].target == Some(key)
    && w.t.deletions[half.d].session == sid
  }

  /** The world before a step of a run. */
  function At(w: World, steps: seq<Step>, i: nat): World
    requires i <= |steps|
  {
    Run(w, steps[..i])
  }

  lemma AtInit(w: World, steps: seq<Step>)
    requires steps != []
    ensures var before := steps[..|steps| - 1];
            forall i :: 0 <= i < |steps| ==> At(w, steps, i) == At(w, before, i)
  {
    var before := steps[..|steps| - 1];
    forall i | 0 <= i < |steps|
      ensures At(w, steps, i) == At(w, before, i)
    {
      assert before[..i] == steps[..i];
    }
  }

  lemma HalfArtifacts(committed: Tables, pending: Tables, half: Half, a: Id)
    requires half.Attempt? ==> half.d in pending.deletions
    requires a in committed.artifacts <==> a in pending.artifacts
    requires a in pending.artifacts ==> committed.artifacts[a].session == pending.artifacts[a].session
    ensures var after := AfterHalf(committed, pending, half).artifacts;
            && (a in after <==> (a in pending.artifacts
                && !(half.Attempt? && half.outcome.Done? && pending.deletions[half.d].kind == DeleteArtifactRows
                     && pending.deletions[half.d].session == pending.artifacts[a].session)))
            && (a in after ==> after[a].session == pending.artifacts[a].session)
  {
  }

  /** An artifact row after a step: there unless removed with its session's. */
  predicate KeptUnlessRemoved(w: World, st: Step, a: Id)
    requires a in w.t.artifacts
  {
    var after, sid := Apply(w, st).t.artifacts, w.t.artifacts[a].session;
    (a in after <==> !RemovesRowsOf(w, st, sid)) && (a in after ==> after[a].session == sid)
  }

  lemma FinishKeepsArtifact(w: World, st: Step, a: Id)
    requires KeysOk(w.t.jobs) && DrawnOk(w) && a in w.t.artifacts && Enabled(w, st) && st.FinishStep?
    ensures KeptUnlessRemoved(w, st, a)
  {
    var run := Execute(w.t, w.executors[st.w], st.e, w.now);
    assert KeyFits(w.t.jobs[w.executors[st.w]]) && a != st.e.artifact;
    ExecuteKeepsArtifact(w.t, w.executors[st.w], st.e, w.now, a);
    ExecuteNeutral(w.t, w.executors[st.w], st.e, w.now);
    HalfArtifacts(run.committed, run.pending, st.half, a);
  }

  lemma ExecuteKeepsArtifact(t: Tables, j: Id, e: Surroundings, now: Time, a: Id)
    requires j in t.jobs && KeyFits(t.jobs[j]) && a in t.artifacts && a != e.artifact
    ensures var x := Execute(t, j, e, now);
            && a in x.committed.artifacts && x.committed.artifacts[a].session == t.artifacts[a].session
            && a in x.pending.artifacts && x.pending.artifacts[a].session == t.artifacts[a].session
  {
  }

  lemma DeletionKeepsArtifact(w: World, st: Step, a: Id)
    requires a in w.t.artifacts && Enabled(w, st) && st.DeletionStep?
    ensures KeptUnlessRemoved(w, st, a)
  {
    var pending := if st.idle then w.t.(jobs := Release(w.t.jobs, w.now)) else w.t;
    HalfArtifacts(w.t, pending, st.half, a);
  }

  lemma ReviewKeepsArtifact(t: Tables, aid: Id, approve: bool, user: Id, comment: string, newId: Id, suffix: string,
                            now: Time, a: Id)
    requires a in t.artifacts
    ensures var after := Settle(t, ReviewEndpoint(t, aid, approve, user, comment, newId, suffix, now)).artifacts;
            a in after && after[a].session == t.artifacts[a].session
  {
  }

  lemma RequestKeepsArtifact(w: World, st: Step, a: Id)
    requires a in w.t.artifacts && !st.FinishStep? && !st.DeletionStep? && !st.ReviewStep?
    ensures Apply(w, st).t.artifacts == w.t.artifacts
  {
  }

  lemma ArtifactStep(w: World, st: Step, a: Id)
    requires KeysOk(w.t.jobs) && DrawnOk(w) && a in w.t.artifacts
    ensures KeptUnlessRemoved(w, st, a)
  {
    if Enabled(w, st) {
      if st.FinishStep? {
        FinishKeepsArtifact(w, st, a);
      } else if st.DeletionStep? {
        DeletionKeepsArtifact(w, st, a);
      } else if st.ReviewStep? {
        ReviewKeepsArtifact(w.t, st.aid, st.approve, st.user, st.comment, st.newId, st.suffix, w.now, a);
      } else {
        RequestKeepsArtifact(w, st, a);
      }
    }
  }

  /** An artifact id always belongs to the session it was drawn for. */
  lemma ArtifactSession(w: World, steps: seq<Step>, a: Id)
    requires Inv(w) && a in w.t.artifacts && a in Run(w, steps).t.artifacts
    ensures Run(w, steps).t.artifacts[a].session == w.t.artifacts[a].session
    ensures KeysOk(Run(w, steps).t.jobs) && DrawnOk(Run(w, steps))
  {
    RunOn(w, steps);
    DrawnGrows(w, steps, a);
  }

  /** Over any run, an artifact disappears only by a deletion job of its session. */
  lemma {:induction false} ArtifactsGoneByOwnJob(w: World, steps: seq<Step>, a: Id) returns (i: nat)
    requires Inv(w) && a in w.t.artifacts && a !in Run(w, steps).t.artifacts
    ensures i < |steps| && RemovesRowsOf(At(w, steps, i), steps[i], w.t.artifacts[a].session)
  {
    var last := |steps| - 1;
    var before := Run(w, steps[..last]);
    AtInit(w, steps);
    if a in before.t.artifacts {
      ArtifactSession(w, steps[..last], a);
      ArtifactStep(before, steps[last], a);
      i := last;
    } else {
      i := ArtifactsGoneByOwnJob(w, steps[..last], a);
    }
  }

  lemma FileStep(w: World, st: Step, key: FileKey)
    requires FilesOk(w) && key in w.files && key !in Apply(w, st).files
    ensures RemovesFileFor(w, st, key, w.uploads[key])
  {
    if st.FinishStep? {
      ExecuteNeutral(w.t, w.executors[st.w], st.e, w.now);
    }
  }

  lemma {:induction false} UploadsGrow(w: World, steps: seq<Step>, key: FileKey)
    requires key in w.uploads
    ensures key in Run(w, steps).uploads && Run(w, steps).uploads[key] == w.uploads[key]
  {
    if steps != [] {
      UploadsGrow(w, steps[..|steps| - 1], key);
    }
  }

  /** Over any run, a file disappears only through a deletion job of the session
      it was uploaded for. */
  lemma {:induction false} FilesGoneByOwnJob(w: World, steps: seq<Step>, key: FileKey) returns (i: nat)
    requires Inv(w) && key in w.files && key !in Run(w, steps).files
    ensures i < |steps| && RemovesFileFor(At(w, steps, i), steps[i], key, w.uploads[key])
  {
    var last := |steps| - 1;
    var before := Run(w, steps[..last]);
    AtInit(w, steps);
    if key in before.files {
      RunOn(w, steps[..last]);
      UploadsGrow(w, steps[..last], key);
      FileStep(before, steps[last], key);
      i := last;
    } else {
      i := FilesGoneByOwnJob(w, steps[..last], key);
    }
  }

  // ---- When artifacts remain ----

  lemma ExtractedThere(w: World, st: Step, sid: Id)
    requires KeysOk(w.t.jobs) && Extracts(w, st, sid) && !RemovesRowsOf(w, st, sid)
    ensures HasArtifact(Apply(w, st).t, sid)
  {
    var j := w.executors[st.w];
    var run := Execute(w.t, j, st.e, w.now);
    assert KeyFits(w.t.jobs[j]);
    ExecuteArtifacts(w.t, j, st.e, w.now);
    ExecuteNeutral(w.t, j, st.e, w.now);
    HalfArtifacts(run.committed, run.pending, st.half, st.e.artifact);
    assert st.e.artifact in Apply(w, st).t.artifacts;
  }

  lemma NoneAfterHalf(committed: Tables, pending: Tables, half: Half, a: Id)
    requires half.Attempt? && half.outcome.Done? && half.d in pending.deletions
    requires pending.deletions[half.d].kind == DeleteArtifactRows && a in AfterHalf(committed, pending, half).artifacts
    ensures AfterHalf(committed, pending, half).artifacts[a].session != pending.deletions[half.d].session
  {
  }

  lemma NoneAfterRemoval(w: World, st: Step, sid: Id, a: Id)
    requires a in Apply(w, st).t.artifacts && Apply(w, st).t.artifacts[a].session == sid
    ensures !RemovesRowsOf(w, st, sid)
  {
    if RemovesRowsOf(w, st, sid) {
      if st.FinishStep? {
        var run := Execute(w.t, w.executors[st.w], st.e, w.now);
        ExecuteNeutral(w.t, w.executors[st.w], st.e, w.now);
        NoneAfterHalf(run.committed, run.pending, st.half, a);
      } else {
        NoneAfterHalf(w.t, if st.idle then w.t.(jobs := Release(w.t.jobs, w.now)) else w.t, st.half, a);
      }
    }
  }

  /** After a step a session has artifacts exactly if the step did not remove
      them and it had some before or extracted one. */
  lemma RemainStep(w: World, st: Step, sid: Id)
    requires Inv(w)
    ensures HasArtifact(Apply(w, st).t, sid) <==>
            !RemovesRowsOf(w, st, sid) && (HasArtifact(w.t, sid) || Extracts(w, st, sid))
  {
    if HasArtifact(Apply(w, st).t, sid) {
      var a :| a in Apply(w, st).t.artifacts && Apply(w, st).t.artifacts[a].session == sid;
      ArtifactsFromExtraction(w, st, a);
      NoneAfterRemoval(w, st, sid, a);
    } else if !RemovesRowsOf(w, st, sid) {
      if HasArtifact(w.t, sid) {
        var a :| a in w.t.artifacts && w.t.artifacts[a].session == sid;
        ArtifactStep(w, st, a);
      } else if Extracts(w, st, sid) {
        ExtractedThere(w, st, sid);
      }
    }
  }

  predicate ExtractsAt(w: World, steps: seq<Step>, i: nat, sid: Id)
    requires i < |steps|
  {
    Extracts(At(w, steps, i), steps[i], sid)
  }

  predicate RemovesAt(w: World, steps: seq<Step>, i: nat, sid: Id)
    requires i < |steps|
  {
    RemovesRowsOf(At(w, steps, i), steps[i], sid)
  }

  predicate NotRemovedFrom(w: World, steps: seq<Step>, sid: Id, i: nat) {
    forall k :: i <= k < |steps| ==> !RemovesAt(w, steps, k, sid)
  }

  /** Some step extracts for the session, and none from it on removes its rows. */
  predicate Refilled(w: World, steps: seq<Step>, sid: Id) {
    exists i :: 0 <= i < |steps| && ExtractsAt(w, steps, i, sid) && NotRemovedFrom(w, steps, sid, i)
  }

  lemma InitAgrees(w: World, steps: seq<Step>, sid: Id)
    requires steps != []
    ensures var before := steps[..|steps| - 1];
            forall i :: 0 <= i < |before| ==>
              && ExtractsAt(w, steps, i, sid) == ExtractsAt(w, before, i, sid)
              && RemovesAt(w, steps, i, sid) == RemovesAt(w, before, i, sid)
  {
    var before := steps[..|steps| - 1];
    AtInit(w, steps);
    forall i | 0 <= i < |before|
      ensures ExtractsAt(w, steps, i, sid) == ExtractsAt(w, before, i, sid)
      ensures RemovesAt(w, steps, i, sid) == RemovesAt(w, before, i, sid)
    {
      assert before[i] == steps[i] && At(w, before, i) == At(w, steps, i);
    }
  }

  lemma NotRemovedInit(w: World, steps: seq<Step>, sid: Id, i: nat)
    requires steps != [] && i < |steps|
    ensures var last := |steps| - 1;
            NotRemovedFrom(w, steps, sid, i) <==>
            NotRemovedFrom(w, steps[..last], sid, i) && !RemovesAt(w, steps, last, sid)
  {
    InitAgrees(w, steps, sid);
    var before := steps[..|steps| - 1];
    if NotRemovedFrom(w, steps, sid, i) {
      forall k | i <= k < |before|
        ensures !RemovesAt(w, before, k, sid)
      {
        assert !RemovesAt(w, steps, k, sid);
      }
    }
  }

  lemma RefilledSplits(w: World, steps: seq<Step>, sid: Id)
    requires steps != [] && Refilled(w, steps, sid)
    ensures var last := |steps| - 1;
            !RemovesAt(w, steps, last, sid) && (Refilled(w, steps[..last], sid) || ExtractsAt(w, steps, last, sid))
  {
    var i :| 0 <= i < |steps| && ExtractsAt(w, steps, i, sid) && NotRemovedFrom(w, steps, sid, i);
    InitAgrees(w, steps, sid);
    NotRemovedInit(w, steps, sid, i);
    if i < |steps| - 1 {
      assert ExtractsAt(w, steps[..|steps| - 1], i, sid);
    }
  }

  lemma RefilledGrows(w: World, steps: seq<Step>, sid: Id)
    requires steps != [] && Refilled(w, steps[..|steps| - 1], sid) && !RemovesAt(w, steps, |steps| - 1, sid)
    ensures Refilled(w, steps, sid)
  {
    var before := steps[..|steps| - 1];
    var i :| 0 <= i < |before| && ExtractsAt(w, before, i, sid) && NotRemovedFrom(w, before, sid, i);
    InitAgrees(w, steps, sid);
    NotRemovedInit(w, steps, sid, i);
    assert ExtractsAt(w, steps, i, sid);
  }

  lemma RefilledInit(w: World, steps: seq<Step>, sid: Id)
    requires steps != []
    ensures var last := |steps| - 1;
            Refilled(w, steps, sid) <==>
            !RemovesAt(w, steps, last, sid) && (Refilled(w, steps[..last], sid) || ExtractsAt(w, steps, last, sid))
  {
    var last := |steps| - 1;
    if Refilled(w, steps, sid) {
      RefilledSplits(w, steps, sid);
    }
    if !RemovesAt(w, steps, last, sid) {
      if Refilled(w, steps[..last], sid) {
        RefilledGrows(w, steps, sid);
      } else if ExtractsAt(w, steps, last, sid) {
        assert NotRemovedFrom(w, steps, sid, last);
      }
    }
  }

  /** Artifacts of a session remain at the end of a run exactly if an extraction
      committed after the last removal of its rows, or if there was no removal
      and it had some at the start. */
  lemma {:induction false} ArtifactsRemain(w: World, steps: seq<Step>, sid: Id)
    requires Inv(w)
    ensures HasArtifact(Run(w, steps).t, sid) <==>
            Refilled(w, steps, sid) || (HasArtifact(w.t, sid) && NotRemovedFrom(w, steps, sid, 0))
  {
    if steps != [] {
      var last := |steps| - 1;
      ArtifactsRemain(w, steps[..last], sid);
      RunOn(w, steps[..last]);
      RemainStep(Run(w, steps[..last]), steps[last], sid);
      RefilledInit(w, steps, sid);
      NotRemovedInit(w, steps, sid, 0);
    }
  }

  // ---- Recovery, with everything else running ----

  lemma CompletedByHalf(w: World, st: Step, d: Id)
    requires KeysOk(w.t.jobs) && d in w.t.deletions && d in Apply(w, st).t.deletions
    requires Apply(w, st).t.deletions[d].status == Completed && w.t.deletions[d].status != Completed
    ensures Enabled(w, st) && HalfOf(st) == Attempt(d, Done)
  {
    if Enabled(w, st) {
      if st.FinishStep? {
        ExecuteNeutral(w.t, w.executors[st.w], st.e, w.now);
      } else if st.RetractStep? {
        RetractWritesPending(w, st, d);
      } else if !st.DeletionStep? {
        RequestKeepsDeletions(w, st);
      }
    }
  }

  lemma RetractWritesPending(w: World, st: Step, d: Id)
    requires st.RetractStep? && d in w.t.deletions
    ensures d in Apply(w, st).t.deletions && Apply(w, st).t.deletions[d] == w.t.deletions[d]
  {
  }

  lemma RequestKeepsDeletions(w: World, st: Step)
    requires Enabled(w, st) && !st.FinishStep? && !st.DeletionStep? && !st.RetractStep?
    ensures Apply(w, st).t.deletions == w.t.deletions
  {
    if st.ReviewStep? {
      ReviewNeutral(w.t, st.aid, st.approve, st.user, st.comment, st.newId, st.suffix, w.now);
    } else if !st.UploadStep? && !st.ClaimStep? && !st.HeartbeatStep? && !st.CrashStep? {
      RequestNeutral(w, st);
    }
  }

  /** A row job completed during a run removed the rows in it. */
  lemma {:induction false} CompletedMeansRemoved(w: World, steps: seq<Step>, d: Id)
    requires Inv(w) && d in w.t.deletions && w.t.deletions[d].kind == DeleteArtifactRows
    requires w.t.deletions[d].status != Completed
    ensures var end := Run(w, steps).t.deletions;
            d in end && (end[d].status == Completed ==> !NotRemovedFrom(w, steps, w.t.deletions[d].session, 0))
  {
    if steps != [] {
      var last, sid := |steps| - 1, w.t.deletions[d].session;
      var mid := Run(w, steps[..last]);
      CompletedMeansRemoved(w, steps[..last], d);
      RunOn(w, steps[..last]);
      RunOn(w, steps);
      assert DeletionEvolves(w.t.deletions[d], mid.t.deletions[d]);
      NotRemovedInit(w, steps, sid, 0);
      if Run(w, steps).t.deletions[d].status == Completed && mid.t.deletions[d].status != Completed {
        CompletedByHalf(mid, steps[last], d);
        assert RemovesAt(w, steps, last, sid);
      }
    }
  }

  /** What an accepted retraction writes. */
  lemma RetractionStarts(t: Tables, sid: Id, user: Id, ids: seq<Id>, now: Time)
    requires |ids| == 3 && ids[0] != ids[1] && ids[0] != ids[2] && ids[1] != ids[2]
    requires RetractEndpoint(t, sid, user, ids, now).Ok?
    ensures var t1 := RetractEndpoint(t, sid, user, ids, now).t;
            && t1.deletions == t.deletions + map[ids[0] := NewDeletion(sid, DeleteArtifactRows, None, now),
                                                 ids[1] := NewDeletion(sid, DeleteLocalAudio,
                                                                       t.sessions[sid].audioKey, now),
                                                 ids[2] := NewDeletion(sid, DeleteFeishuDocs, None, now)]
            && t1.sessions[sid].deletedAt == Some(now)
  {
  }

  lemma EndOfSaga(w: World, ids: seq<Id>, more: seq<Step>, sid: Id, key: FileKey)
    requires Inv(w) && |ids| == 3 && ids[0] in w.t.deletions && ids[1] in w.t.deletions
    requires w.t.deletions[ids[0]].kind == DeleteArtifactRows && w.t.deletions[ids[0]].session == sid
    requires w.t.deletions[ids[0]].status == Pending
    requires w.t.deletions[ids[1]].kind == DeleteLocalAudio && w.t.deletions[ids[1]].target == Some(key)
    ensures var end := Run(w, more);
            && ids[0] in end.t.deletions && ids[1] in end.t.deletions
            && (end.t.deletions[ids[0]].status == Completed ==> (HasArtifact(end.t, sid) <==> Refilled(w, more, sid)))
            && (end.t.deletions[ids[1]].status == Completed ==> key !in end.files)
  {
    CompletedMeansRemoved(w, more, ids[0]);
    ArtifactsRemain(w, more, sid);
    RunOn(w, more);
    var end := Run(w, more);
    assert DeletionEvolves(w.t.deletions[ids[1]], end.t.deletions[ids[1]]);
  }

  lemma TombstoneStands(w: World, more: seq<Step>, sid: Id)
    requires Inv(w) && sid in w.t.sessions && w.t.sessions[sid].deletedAt.Some?
    ensures sid in Run(w, more).t.sessions && Run(w, more).t.sessions[sid].deletedAt.Some?
  {
    RunOn(w, more);
    assert SessionEvolves(w.t.sessions[sid], Run(w, more).t.sessions[sid]);
  }

  lemma RetractApplied(w: World, sid: Id, user: Id, ids: seq<Id>) returns (w1: World)
    requires Enabled(w, RetractStep(sid, user, ids)) && RetractEndpoint(w.t, sid, user, ids, w.now).Ok?
    ensures w1 == Apply(w, RetractStep(sid, user, ids))
    ensures sid in w1.t.sessions && w1.t.sessions[sid].deletedAt.Some?
    ensures ids[0] in w1.t.deletions && w1.t.deletions[ids[0]] == NewDeletion(sid, DeleteArtifactRows, None, w.now)
    ensures ids[1] in w1.t.deletions
         && w1.t.deletions[ids[1]] == NewDeletion(sid, DeleteLocalAudio, w.t.sessions[sid].audioKey, w.now)
  {
    RetractionStarts(w.t, sid, user, ids, w.now);
    w1 := Apply(w, RetractStep(sid, user, ids));
  }

  lemma SagaStarts(steps: seq<Step>, sid: Id, user: Id, ids: seq<Id>) returns (w: World)
    requires Enabled(After(steps), RetractStep(sid, user, ids))
    requires RetractEndpoint(After(steps).t, sid, user, ids, After(steps).now).Ok?
    ensures w == Apply(After(steps), RetractStep(sid, user, ids)) && Inv(w)
    ensures After(steps).t.sessions[sid].audioKey.Some?
    ensures sid in w.t.sessions && w.t.sessions[sid].deletedAt.Some?
    ensures ids[0] in w.t.deletions
         && w.t.deletions[ids[0]] == NewDeletion(sid, DeleteArtifactRows, None, After(steps).now)
    ensures ids[1] in w.t.deletions
         && w.t.deletions[ids[1]] == NewDeletion(sid, DeleteLocalAudio, After(steps).t.sessions[sid].audioKey,
                                                 After(steps).now)
  {
    Reachable(steps);
    StepKeeps(After(steps), RetractStep(sid, user, ids));
    w := RetractApplied(After(steps), sid, user, ids);
  }

  /** Saga recovery: after an accepted retraction, however deletion attempts
      fail, crash and repeat among any other steps, once the row job is completed
      the session has artifacts exactly if an extraction for it committed after
      the last removal; once the audio job is completed the file it had when
      retracted is gone; the tombstone stands. */
  lemma SagaRecovers(steps: seq<Step>, sid: Id, user: Id, ids: seq<Id>, more: seq<Step>)
    requires Enabled(After(steps), RetractStep(sid, user, ids))
    requires RetractEndpoint(After(steps).t, sid, user, ids, After(steps).now).Ok?
    ensures var start := Apply(After(steps), RetractStep(sid, user, ids));
            var end, key := Run(start, more), After(steps).t.sessions[sid].audioKey;
            && ids[0] in end.t.deletions && ids[1] in end.t.deletions && sid in end.t.sessions
            && (end.t.deletions[ids[0]].status == Completed ==>
                (HasArtifact(end.t, sid) <==> Refilled(start, more, sid)))
            && (end.t.deletions[ids[1]].status == Completed ==> key.Some? && key.value !in end.files)
            && end.t.sessions[sid].deletedAt.Some?
  {
    var w1 := SagaStarts(steps, sid, user, ids);
    EndOfSaga(w1, ids, more, sid, After(steps).t.sessions[sid].audioKey.value);
    TombstoneStands(w1, more, sid);
  }

  // ---- The result does not depend on the schedule ----

  /** Tables and audio directory. */
  datatype Disk = Disk(t: Tables, files: set<FileKey>)

  datatype Try = Try(d: Id, outcome: Outcome)

  /** One attempt; a deletion job that is no longer pending is not claimed. */
  function Attempted(x: Disk, try: Try): Disk {
    if try.d in x.t.deletions && x.t.deletions[try.d].status == Pending
    then Disk(AfterHalf(x.t, x.t, Attempt(try.d, try.outcome)), FilesAfter(x.files, x.t, Attempt(try.d, try.outcome)))
    else x
  }

  function AttemptAll(x: Disk, tries: seq<Try>): Disk {
    if tries == [] then x else Attempted(AttemptAll(x, tries[..|tries| - 1]), tries[|tries| - 1])
  }

  /** Deletion jobs of a set that remove a session's rows. */
  predicate RemovesRows(t: Tables, jobs: set<Id>, sid: Id) {
    exists d :: d in jobs && d in t.deletions && t.deletions[d].kind == DeleteArtifactRows
      && t.deletions[d].session == sid
  }

  predicate RemovesFile(t: Tables, jobs: set<Id>, key: FileKey) {
    exists d :: d in jobs && d in t.deletions && t.deletions[d].kind == DeleteLocalAudio
      && t.deletions[d].target == Some(key)
  }

  /** The outcome of a set of deletion jobs, stated without a schedule. */
  function Cleaned(x: Disk, jobs: set<Id>): Disk {
    Disk(x.t.(artifacts := map a | a in x.t.artifacts && !RemovesRows(x.t, jobs, x.t.artifacts[a].session) ::
                             x.t.artifacts[a],
              deletions := map d | d in x.t.deletions ::
                if d in jobs then x.t.deletions[d].(status := Completed) else x.t.deletions[d]),
         set k | k in x.files && !RemovesFile(x.t, jobs, k))
  }

  function CompletedOf(t: Tables, jobs: set<Id>): set<Id> {
    set d | d in jobs && d in t.deletions && t.deletions[d].status == Completed
  }

  /** Between the start and the end: rows are gone for completed jobs only,
      files at least for completed jobs and at most for all of them. */
  ghost predicate Partway(x: Disk, y: Disk, jobs: set<Id>) {
    && y.t == x.t.(artifacts := y.t.artifacts, deletions := y.t.deletions)
    && y.t.deletions.Keys == x.t.deletions.Keys
    && (forall d :: d in x.t.deletions && d !in jobs ==> y.t.deletions[d] == x.t.deletions[d])
    && (forall d :: d in x.t.deletions && d in jobs ==>
          && (y.t.deletions[d].status == Completed || y.t.deletions[d].status == Pending
              || y.t.deletions[d].status == Failed)
          && (y.t.deletions[d].status == Completed ==> y.t.deletions[d] == x.t.deletions[d].(status := Completed))
          && (y.t.deletions[d].status == Pending ==> y.t.deletions[d] == x.t.deletions[d]))
    && (forall a :: a in y.t.artifacts <==>
          a in x.t.artifacts && !RemovesRows(x.t, CompletedOf(y.t, jobs), x.t.artifacts[a].session))
    && (forall a :: a in y.t.artifacts ==> y.t.artifacts[a] == x.t.artifacts[a])
    && y.files <= x.files
    && (forall k :: k in x.files && k !in y.files ==> RemovesFile(x.t, jobs, k))
    && (forall k :: k in y.files ==> !RemovesFile(x.t, CompletedOf(y.t, jobs), k))
  }

  lemma CompletingGrows(t: Tables, done: set<Id>, d: Id, sid: Id, key: FileKey)
    requires d in t.deletions
    ensures RemovesRows(t, done + {d}, sid) <==>
            RemovesRows(t, done, sid) || (t.deletions[d].kind == DeleteArtifactRows && t.deletions[d].session == sid)
    ensures RemovesFile(t, done + {d}, key) <==>
            RemovesFile(t, done, key) || (t.deletions[d].kind == DeleteLocalAudio && t.deletions[d].target == Some(key))
  {
    if RemovesRows(t, done, sid) {
      var e :| e in done && e in t.deletions && t.deletions[e].kind == DeleteArtifactRows
        && t.deletions[e].session == sid;
      assert e in done + {d};
    }
    if RemovesFile(t, done, key) {
      var e :| e in done && e in t.deletions && t.deletions[e].kind == DeleteLocalAudio
        && t.deletions[e].target == Some(key);
      assert e in done + {d};
    }
  }

  /** An attempt that commits. */
  lemma DoneStep(x: Disk, y: Disk, jobs: set<Id>, d: Id)
    requires Partway(x, y, jobs) && d in jobs && d in x.t.deletions && y.t.deletions[d].status == Pending
    ensures Partway(x, Attempted(y, Try(d, Done)), jobs)
    ensures CompletedOf(Attempted(y, Try(d, Done)).t, jobs) == CompletedOf(y.t, jobs) + {d}
  {
    var z := Attempted(y, Try(d, Done));
    var done := CompletedOf(y.t, jobs);
    assert CompletedOf(z.t, jobs) == done + {d};
    forall a
      ensures a in z.t.artifacts <==>
              a in x.t.artifacts && !RemovesRows(x.t, done + {d}, x.t.artifacts[a].session)
    {
      if a in x.t.artifacts {
        CompletingGrows(x.t, done, d, x.t.artifacts[a].session, 0);
      }
    }
    forall k | k in z.files
      ensures !RemovesFile(x.t, done + {d}, k)
    {
      CompletingGrows(x.t, done, d, 0, k);
    }
    forall k | k in x.files && k !in z.files
      ensures RemovesFile(x.t, jobs, k)
    {
    }
  }

  /** An attempt that commits nothing but perhaps its own failure. */
  lemma UndoneStep(x: Disk, y: Disk, jobs: set<Id>, d: Id, outcome: Outcome)
    requires Partway(x, y, jobs) && d in jobs && d in x.t.deletions && y.t.deletions[d].status == Pending
    requires !outcome.Done?
    ensures Partway(x, Attempted(y, Try(d, outcome)), jobs)
  {
    var z := Attempted(y, Try(d, outcome));
    assert CompletedOf(z.t, jobs) == CompletedOf(y.t, jobs);
    assert z.t.artifacts == y.t.artifacts;
  }

  predicate TriesOf(tries: seq<Try>, jobs: set<Id>) {
    forall i :: 0 <= i < |tries| ==> tries[i].d in jobs
  }

  lemma {:induction false} AlwaysPartway(x: Disk, jobs: set<Id>, tries: seq<Try>)
    requires jobs <= x.t.deletions.Keys && (forall d :: d in jobs ==> x.t.deletions[d].status == Pending)
    requires TriesOf(tries, jobs)
    ensures Partway(x, AttemptAll(x, tries), jobs)
  {
    if tries == [] {
      assert CompletedOf(x.t, jobs) == {};
    } else {
      var y, try := AttemptAll(x, tries[..|tries| - 1]), tries[|tries| - 1];
      AlwaysPartway(x, jobs, tries[..|tries| - 1]);
      if y.t.deletions[try.d].status == Pending {
        if try.outcome.Done? {
          DoneStep(x, y, jobs, try.d);
        } else {
          UndoneStep(x, y, jobs, try.d, try.outcome);
        }
      }
    }
  }

  lemma PartwayDone(x: Disk, y: Disk, jobs: set<Id>)
    requires Partway(x, y, jobs) && CompletedOf(y.t, jobs) == jobs
    ensures y == Cleaned(x, jobs)
  {
    var z := Cleaned(x, jobs);
    forall d | d in x.t.deletions
      ensures y.t.deletions[d] == z.t.deletions[d]
    {
      assert d in jobs ==> d in CompletedOf(y.t, jobs);
    }
    assert y.t.deletions == z.t.deletions;
    assert y.t.artifacts == z.t.artifacts;
    assert y.files == z.files;
  }

  /** One clean run: each job once, in some order, without a failure. */
  function CleanRun(order: seq<Id>): seq<Try> {
    seq(|order|, i requires 0 <= i < |order| => Try(order[i], Done))
  }

  lemma {:induction false} CleanRunCompletes(x: Disk, jobs: set<Id>, order: seq<Id>)
    requires jobs <= x.t.deletions.Keys && (forall d :: d in jobs ==> x.t.deletions[d].status == Pending)
    requires forall d :: d in order ==> d in jobs
    ensures CompletedOf(AttemptAll(x, CleanRun(order)).t, jobs) == set d | d in order
    ensures forall d :: d in jobs ==>
              var after := AttemptAll(x, CleanRun(order)).t.deletions; d in after && after[d].status != Failed
  {
    if order == [] {
      assert CompletedOf(x.t, jobs) == {};
    } else {
      var n := |order| - 1;
      assert CleanRun(order)[..n] == CleanRun(order[..n]);
      CleanRunCompletes(x, jobs, order[..n]);
      AlwaysPartway(x, jobs, CleanRun(order[..n]));
      var y := AttemptAll(x, CleanRun(order[..n]));
      if y.t.deletions[order[n]].status == Pending {
        DoneStep(x, y, jobs, order[n]);
      }
      assert order == order[..n] + [order[n]];
      assert y.t.deletions[order[n]].status != Failed;
    }
  }

  /** Whatever the order, the crashes before or after the file's removal and the
      repetitions: once every job is completed, the tables and files are those
      of one clean run, in any order, and those of the schedule-free outcome. */
  lemma ScheduleIrrelevant(x: Disk, jobs: set<Id>, tries: seq<Try>, order: seq<Id>)
    requires jobs <= x.t.deletions.Keys && (forall d :: d in jobs ==> x.t.deletions[d].status == Pending)
    requires TriesOf(tries, jobs) && CompletedOf(AttemptAll(x, tries).t, jobs) == jobs
    requires (set d | d in order) == jobs
    ensures AttemptAll(x, tries) == Cleaned(x, jobs)
    ensures AttemptAll(x, tries) == AttemptAll(x, CleanRun(order))
  {
    AlwaysPartway(x, jobs, tries);
    PartwayDone(x, AttemptAll(x, tries), jobs);
    assert forall d :: d in order ==> d in (set e | e in order);
    CleanRunCompletes(x, jobs, order);
    AlwaysPartway(x, jobs, CleanRun(order));
    PartwayDone(x, AttemptAll(x, CleanRun(order)), jobs);
  }
}
