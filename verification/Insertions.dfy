/** Artifacts inserted, as rows: what the lease machine's ends of executions are
    in the tables, and that without shared executions an extraction job inserts
    at most one artifact over any run of the engine. */
module Insertions {
  import opened Domain
  import opened Orchestrator
  import opened Agents
  import opened Worker
  import opened System
  import opened SystemInvariant
  import opened SystemRuns
  import opened SystemTheorems
  import opened JobRows
  import ArtifactService
  import L = Lease

  // ---- The lease machine's ends of executions ----

  predicate Returning(t: Tables, j: Id, e: Surroundings, now: Time)
    requires j in t.jobs
  {
    Registered(t.jobs[j].jobType) && Handle(t, j, e.provider, e.artifact, now).Ok?
  }

  /** The step of the lease machine an execution amounts to. */
  function EndStep(t: Tables, w: Id, j: Id, e: Surroundings, now: Time): L.Step
    requires j in t.jobs
  {
    if Returning(t, j, e, now) then L.FinishJob(w, Execute(t, j, e, now).committed.jobs[j].output)
    else L.FailJob(w, e.message)
  }

  /** An execution writes its own job row, and inserts one artifact row, with
      the job's id, if it is an extraction that returns, and none otherwise. */
  lemma ExecutionRows(t: Tables, j: Id, e: Surroundings, now: Time)
    requires j in t.jobs && e.artifact !in t.artifacts
    ensures var x := Execute(t, j, e, now).committed;
            && x.jobs == t.jobs[j := if Returning(t, j, e, now)
                                     then t.jobs[j].(status := Completed, output := x.jobs[j].output)
                                     else L.FailRow(t.jobs[j], e.message, now)]
            && t.artifacts.Keys <= x.artifacts.Keys
            && (forall a :: a in t.artifacts ==> x.artifacts[a].job == t.artifacts[a].job)
            && (forall a :: a in x.artifacts && a !in t.artifacts ==> a == e.artifact && x.artifacts[a].job == j)
            && (e.artifact in x.artifacts <==> Returning(t, j, e, now) && t.jobs[j].jobType == ExtractArtifact)
  {
    if Registered(t.jobs[j].jobType) {
      HandlerEffect(t, j, e.provider, e.artifact, now);
      RaisingHandlerFlushes(t, j, e.provider, e.artifact, now);
      if Returning(t, j, e, now) {
        ReturnedRow(t, j, e, now);
      }
    }
  }

  lemma EndApplied(t: Tables, s: L.State, tm: L.Timing, w: Id, e: Surroundings)
    requires s.jobs == t.jobs && w in s.executors
    requires s.executors[w].job in s.jobs && s.executors[w].job !in s.locks
    ensures var j := s.executors[w].job;
            L.Apply(tm, s, EndStep(t, w, j, e, s.now)) ==
              if Returning(t, j, e, s.now)
              then L.AfterEnd(s, w, t.jobs[j].(status := Completed,
                                               output := Execute(t, j, e, s.now).committed.jobs[j].output),
                              t.jobs[j].jobType == ExtractArtifact)
              else L.AfterEnd(s, w, L.FailRow(t.jobs[j], e.message, s.now), false)
  {
  }

  /** An execution commits the job row of its end step, and as many artifact
      rows as that step counts. */
  lemma ExecutionIsEndStep(t: Tables, s: L.State, tm: L.Timing, w: Id, e: Surroundings)
    requires s.jobs == t.jobs && w in s.executors && e.artifact !in t.artifacts
    requires s.executors[w].job in s.jobs && s.executors[w].job !in s.locks
    ensures var j := s.executors[w].job;
            var x, end := Execute(t, j, e, s.now).committed, L.Apply(tm, s, EndStep(t, w, j, e, s.now));
            && end.jobs == x.jobs && end.executors == s.executors - {w}
            && (forall a :: a in x.artifacts && a !in t.artifacts ==> a == e.artifact && x.artifacts[a].job == j)
            && end.inserted == s.inserted + (if e.artifact in x.artifacts then multiset{j} else multiset{})
  {
    ExecutionRows(t, s.executors[w].job, e, s.now);
    EndApplied(t, s, tm, w, e);
  }

  lemma ReturnedRow(t: Tables, j: Id, e: Surroundings, now: Time)
    requires j in t.jobs && Returning(t, j, e, now)
    ensures var x := Execute(t, j, e, now).committed.jobs;
            x == t.jobs[j := t.jobs[j].(status := Completed, output := x[j].output)]
  {
  }

  // ---- Over runs of the engine ----

  /** No claim takes a job some worker is executing: what the lease guarantees. */
  predicate Exclusive(steps: seq<Step>) {
    steps == [] ||
    var before, last := steps[..|steps| - 1], steps[|steps| - 1];
    Exclusive(before) && (last.ClaimStep? ==> !Held(After(before), last.j))
  }

  /** The step commits an artifact insertion by the job. */
  predicate Inserts(w: World, st: Step, j: Id) {
    && EndsJob(w, st, j) && w.t.jobs[j].jobType == ExtractArtifact
    && HandleExtract(w.t, j, st.e.provider, st.e.artifact).Ok?
  }

  /** How many insertions by the job a run has committed. */
  function Inserted(steps: seq<Step>, j: Id): nat {
    if steps == [] then 0
    else
      var before, last := steps[..|steps| - 1], steps[|steps| - 1];
      Inserted(before, j) + if Inserts(After(before), last, j) then 1 else 0
  }

  /** No two workers execute one job, and no executed job is settled. */
  predicate Alone(w: World) {
    && (forall x, y :: x in w.executors && y in w.executors && w.executors[x] == w.executors[y] ==> x == y)
    && (forall x :: x in w.executors ==> Unsettled(w, w.executors[x]))
  }

  predicate Unsettled(w: World, j: Id) {
    j in w.t.jobs && (w.t.jobs[j].status == Running || w.t.jobs[j].status == Pending)
  }

  lemma ExecutorsAfter(w: World, st: Step, x: Id)
    requires x in Apply(w, st).executors
    ensures var after := Apply(w, st).executors;
            || (x in w.executors && after[x] == w.executors[x] && !(Enabled(w, st) && st.FinishStep? && st.w == x))
            || (Enabled(w, st) && st == ClaimStep(x, after[x]))
  {
  }

  lemma StaysUnsettled(w: World, st: Step, x: Id)
    requires KeysOk(w.t.jobs) && Alone(w) && (st.ClaimStep? ==> !Held(w, st.j))
    requires x in w.executors && !(Enabled(w, st) && st.FinishStep? && st.w == x)
    ensures Unsettled(Apply(w, st), w.executors[x])
  {
    assert Unsettled(w, w.executors[x]) && Held(w, w.executors[x]);
    RowStep(w, st, w.executors[x]);
  }

  lemma AloneStep(w: World, st: Step)
    requires KeysOk(w.t.jobs) && Alone(w) && (st.ClaimStep? ==> !Held(w, st.j))
    ensures Alone(Apply(w, st))
  {
    var after := Apply(w, st);
    forall x | x in after.executors
      ensures Unsettled(after, after.executors[x])
    {
      ExecutorsAfter(w, st, x);
      if Enabled(w, st) && st == ClaimStep(x, after.executors[x]) {
        RowStep(w, st, st.j);
      } else {
        StaysUnsettled(w, st, x);
      }
    }
    forall x, y | x in after.executors && y in after.executors && after.executors[x] == after.executors[y]
      ensures x == y
    {
      ExecutorsAfter(w, st, x);
      ExecutorsAfter(w, st, y);
    }
  }

  /** How a step changes whether a job is completed. */
  lemma CompletionStep(w: World, st: Step, j: Id)
    requires KeysOk(w.t.jobs) && Alone(w) && j in w.t.jobs && w.t.jobs[j].jobType == ExtractArtifact
    ensures var after := Apply(w, st).t.jobs;
            && j in after && after[j].jobType == ExtractArtifact
            && (after[j].status == Completed <==> w.t.jobs[j].status == Completed || Inserts(w, st, j))
            && !(w.t.jobs[j].status == Completed && Inserts(w, st, j))
  {
    RowStep(w, st, j);
    if EndsJob(w, st, j) {
      assert Unsettled(w, w.executors[st.w]);
    }
  }

  predicate CompletedExtraction(t: Tables, j: Id) {
    j in t.jobs && t.jobs[j].jobType == ExtractArtifact && t.jobs[j].status == Completed
  }

  lemma OtherCompletion(w: World, st: Step, j: Id)
    requires KeysOk(w.t.jobs) && !(j in w.t.jobs && w.t.jobs[j].jobType == ExtractArtifact)
    requires forall x :: x in w.executors ==> w.executors[x] in w.t.jobs
    ensures !CompletedExtraction(Apply(w, st).t, j) && !Inserts(w, st, j)
  {
    if j in w.t.jobs {
      RowStep(w, st, j);
    } else if j in Apply(w, st).t.jobs {
      NewRow(w, st, j);
    }
  }

  /** Exactly once: over any run without shared executions, an extraction job has
      inserted one artifact if it is completed, and none before. */
  lemma {:induction false} InsertedOnce(steps: seq<Step>, j: Id)
    requires Exclusive(steps)
    ensures Alone(After(steps))
    ensures Inserted(steps, j) == if CompletedExtraction(After(steps).t, j) then 1 else 0
  {
    if steps != [] {
      var before, last := steps[..|steps| - 1], steps[|steps| - 1];
      var w := After(before);
      InsertedOnce(before, j);
      Reachable(before);
      AloneStep(w, last);
      if j in w.t.jobs && w.t.jobs[j].jobType == ExtractArtifact {
        CompletionStep(w, last, j);
      } else {
        OtherCompletion(w, last, j);
      }
    }
  }

  function RowsOf(t: Tables, j: Id): set<Id> {
    set a | a in t.artifacts && t.artifacts[a].job == j
  }

  lemma ExecuteJobs(t: Tables, j: Id, e: Surroundings, now: Time, a: Id)
    requires j in t.jobs && KeyFits(t.jobs[j])
    ensures var x := Execute(t, j, e, now);
            var inserts := t.jobs[j].jobType == ExtractArtifact && HandleExtract(t, j, e.provider, e.artifact).Ok?;
            && (a in x.committed.artifacts ==>
                  || (inserts && a == e.artifact && x.committed.artifacts[a].job == j)
                  || (a in t.artifacts && x.committed.artifacts[a].job == t.artifacts[a].job))
            && (a in x.pending.artifacts ==>
                  || (inserts && a == e.artifact && x.pending.artifacts[a].job == j)
                  || (a in t.artifacts && x.pending.artifacts[a].job == t.artifacts[a].job))
  {
  }

  lemma ReviewJobs(t: Tables, aid: Id, approve: bool, user: Id, comment: string, newId: Id, suffix: string, now: Time,
                   a: Id)
    ensures var r := ArtifactService.ReviewEndpoint(t, aid, approve, user, comment, newId, suffix, now);
            var after := Settle(t, r).artifacts;
            a in after ==> a in t.artifacts && after[a].job == t.artifacts[a].job
  {
  }

  lemma RequestJobs(w: World, st: Step, a: Id)
    requires !st.FinishStep? && !st.ReviewStep? && a in Apply(w, st).t.artifacts
    ensures a in w.t.artifacts && Apply(w, st).t.artifacts[a] == w.t.artifacts[a]
  {
  }

  lemma ArtifactJobs(w: World, st: Step, a: Id)
    requires KeysOk(w.t.jobs) && a in Apply(w, st).t.artifacts
    ensures var j := Apply(w, st).t.artifacts[a].job;
            (a in w.t.artifacts && w.t.artifacts[a].job == j) || (Inserts(w, st, j) && a == st.e.artifact)
  {
    if Enabled(w, st) {
      if st.FinishStep? {
        assert KeyFits(w.t.jobs[w.executors[st.w]]);
        ExecuteJobs(w.t, w.executors[st.w], st.e, w.now, a);
      } else if st.ReviewStep? {
        ReviewJobs(w.t, st.aid, st.approve, st.user, st.comment, st.newId, st.suffix, w.now, a);
      } else {
        RequestJobs(w, st, a);
      }
    }
  }

  lemma Smaller(a: set<Id>, b: set<Id>)
    requires a <= b
    ensures |a| <= |b|
  {
    assert |b - a| == |b| - |a|;
  }

  /** No more artifact rows carry a job's id than it has inserted. */
  lemma {:induction false} RowsWereInserted(steps: seq<Step>, j: Id)
    ensures |RowsOf(After(steps).t, j)| <= Inserted(steps, j)
  {
    if steps == [] {
      assert RowsOf(After(steps).t, j) == {};
    } else {
      var before, last := steps[..|steps| - 1], steps[|steps| - 1];
      var w := After(before);
      RowsWereInserted(before, j);
      Reachable(before);
      forall a | a in RowsOf(Apply(w, last).t, j)
        ensures a in RowsOf(w.t, j) || (Inserts(w, last, j) && a == last.e.artifact)
      {
        ArtifactJobs(w, last, a);
      }
      if Inserts(w, last, j) {
        Smaller(RowsOf(Apply(w, last).t, j), RowsOf(w.t, j) + {last.e.artifact});
      } else {
        Smaller(RowsOf(Apply(w, last).t, j), RowsOf(w.t, j));
      }
    }
  }

  /** Over any run without shared executions, at most one artifact row ever
      carries a job's id at a time, and only a completed extraction's. */
  lemma AtMostOneArtifact(steps: seq<Step>, j: Id)
    requires Exclusive(steps)
    ensures |RowsOf(After(steps).t, j)| <= 1
    ensures RowsOf(After(steps).t, j) != {} ==> CompletedExtraction(After(steps).t, j) && Inserted(steps, j) == 1
  {
    InsertedOnce(steps, j);
    RowsWereInserted(steps, j);
  }
}
