/** When a retracted session is retracted for good. */
module Finality {
  import opened Domain
  import opened StateMachine
  import opened Keys
  import opened Orchestrator
  import opened SessionApi
  import opened ArtifactService
  import opened Agents
  import opened Worker
  import opened System
  import opened SystemInvariant
  import opened SystemRuns
  import opened SystemTheorems
  import opened JobRows
  import opened Walks

  /** A completed summary that nobody is running again names an unknown kind. */
  predicate SummaryStuck(w: World, sid: Id) {
    exists j :: j in w.t.jobs && Belongs(w.t.jobs[j], sid, Summarize) && !Live(w, j)
                && KindOf(w.t.jobs[j].output) !in ARTIFACT_KINDS
  }

  /** There is an extraction to finish, or an artifact whose rejection queues one,
      and no summary that makes every extraction fail. */
  predicate CanBeLeft(w: World, sid: Id) {
    (HasArtifact(w.t, sid) || LiveExtraction(w, sid)) && !SummaryStuck(w, sid)
  }

  // ---- Once stuck, always stuck ----

  lemma StuckSummaryBlocks(w: World, sid: Id, j: Id, p: Provider, aid: Id)
    requires KeysOk(w.t.jobs) && SummaryStuck(w, sid) && j in w.t.jobs && w.t.jobs[j].session == sid
    ensures HandleExtract(w.t, j, p, aid).Raise?
  {
    var i :| i in w.t.jobs && Belongs(w.t.jobs[i], sid, Summarize) && !Live(w, i)
             && KindOf(w.t.jobs[i].output) !in ARTIFACT_KINDS;
    CompletedUnique(w.t, sid, Summarize);
    assert i in CompletedRows(w.t, sid, Summarize);
    assert TheRow(CompletedRows(w.t, sid, Summarize)) == i;
  }

  lemma NoExtractionStep(w: World, st: Step, sid: Id)
    requires KeysOk(w.t.jobs) && !CanBeLeft(w, sid)
    ensures !Extracts(w, st, sid)
  {
    if Extracts(w, st, sid) {
      var j := w.executors[st.w];
      assert Held(w, j) && Live(w, j);
      assert Belongs(w.t.jobs[j], sid, ExtractArtifact);
      assert LiveExtraction(w, sid);
      StuckSummaryBlocks(w, sid, j, st.e.provider, st.e.artifact);
    }
  }

  lemma SummaryStaysStuck(w: World, st: Step, sid: Id)
    requires KeysOk(w.t.jobs) && SummaryStuck(w, sid)
    ensures SummaryStuck(Apply(w, st), sid)
  {
    var j :| j in w.t.jobs && Belongs(w.t.jobs[j], sid, Summarize) && !Live(w, j)
             && KindOf(w.t.jobs[j].output) !in ARTIFACT_KINDS;
    Frozen(w, st, j);
    assert Belongs(Apply(w, st).t.jobs[j], sid, Summarize);
  }

  lemma NoSourceStep(w: World, st: Step, sid: Id)
    requires KeysOk(w.t.jobs) && InStatus(w, sid, Retracted) && !HasArtifact(w.t, sid) && !LiveExtraction(w, sid)
    ensures !HasArtifact(Apply(w, st).t, sid) && !LiveExtraction(Apply(w, st), sid)
  {
    var after := Apply(w, st);
    NoExtractionStep(w, st, sid);
    assert !Starts(w, st, sid) && !Rejects(w, st, sid);
    forall a | a in after.t.artifacts
      ensures after.t.artifacts[a].session != sid
    {
      ArtifactsFromExtraction(w, st, a);
    }
    forall j | j in after.t.jobs && Belongs(after.t.jobs[j], sid, ExtractArtifact)
      ensures !Live(after, j)
    {
      if j in w.t.jobs {
        StepEvolves(w, st);
        assert Belongs(w.t.jobs[j], sid, ExtractArtifact);
        Frozen(w, st, j);
      } else {
        NewRow(w, st, j);
      }
    }
  }

  lemma StuckStep(w: World, st: Step, sid: Id)
    requires KeysOk(w.t.jobs) && InStatus(w, sid, Retracted) && !CanBeLeft(w, sid)
    ensures InStatus(Apply(w, st), sid, Retracted) && !CanBeLeft(Apply(w, st), sid)
  {
    NoExtractionStep(w, st, sid);
    TerminalLeftByExtraction(w, st, sid);
    if SummaryStuck(w, sid) {
      SummaryStaysStuck(w, st, sid);
    } else {
      NoSourceStep(w, st, sid);
    }
  }

  lemma {:induction false} StuckForGood(w: World, steps: seq<Step>, sid: Id)
    requires Inv(w) && InStatus(w, sid, Retracted) && !CanBeLeft(w, sid)
    ensures InStatus(Run(w, steps), sid, Retracted) && !CanBeLeft(Run(w, steps), sid)
  {
    if steps != [] {
      var before := steps[..|steps| - 1];
      StuckForGood(w, before, sid);
      RunOn(w, before);
      StuckStep(Run(w, before), steps[|steps| - 1], sid);
    }
  }

  // ---- Otherwise some run leaves it ----

  lemma FixSummary(w: World, sid: Id) returns (steps: seq<Step>)
    requires Inv(w) && Stamped(w.t.jobs) && InStatus(w, sid, Retracted) && CanBeLeft(w, sid)
    ensures Standing(Run(w, steps), sid, Retracted) && Source(Run(w, steps), sid)
  {
    if SummaryKnown(w.t.jobs, sid) {
      steps := [];
      assert Run(w, []) == w;
    } else {
      var j :| j in w.t.jobs && Belongs(w.t.jobs[j], sid, Summarize) && w.t.jobs[j].status == Completed
               && KindOf(w.t.jobs[j].output) !in ARTIFACT_KINDS;
      assert Live(w, j);
      var x :| x in w.executors && w.executors[x] == j;
      steps := EndSummary(w, sid, x, Retracted);
    }
  }

  lemma Leave(w: World, sid: Id) returns (steps: seq<Step>)
    requires Inv(w) && Stamped(w.t.jobs) && InStatus(w, sid, Retracted) && CanBeLeft(w, sid)
    ensures sid in Run(w, steps).t.sessions && Run(w, steps).t.sessions[sid].status == NeedsReview
  {
    var a := FixSummary(w, sid);
    var w1 := Run(w, a);
    var b := GetTranscript(w1, sid, Retracted);
    var w2 := Run(w1, b);
    var c, x := GetExtraction(w2, sid, Retracted);
    var st, _ := ExtractionGoesThrough(Run(w2, c), x, sid, Retracted);
    RunConcat(w, a, b);
    RunConcat(w, a + b, c);
    RunConcat(w, a + b + c, [st]);
    steps := a + b + c + [st];
  }

  /** A retracted session stays retracted over every run if and only if it can
      not be left now: every extraction of it is completed and none still
      executes, and no artifact is left to reject; or its summary makes every
      extraction fail. */
  lemma RetractedFinal(steps: seq<Step>, sid: Id)
    requires InStatus(After(steps), sid, Retracted)
    ensures (forall more :: InStatus(Run(After(steps), more), sid, Retracted)) <==> !CanBeLeft(After(steps), sid)
  {
    var w := After(steps);
    Reachable(steps);
    StampedRun(EMPTY_WORLD, steps);
    if CanBeLeft(w, sid) {
      var more := Leave(w, sid);
      assert !InStatus(Run(w, more), sid, Retracted);
    } else {
      forall more
        ensures InStatus(Run(w, more), sid, Retracted)
      {
        StuckForGood(w, more, sid);
      }
    }
  }
}
