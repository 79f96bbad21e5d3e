/** The three jobs of a session are created together, with equal priority and
    creation time, so the claim may take them in any order. This is what each
    order leads to. */
module PipelineOrder {
  import opened Domain
  import opened Orchestrator
  import opened Agents
  import opened Worker
  import opened ReviewOrder
  import opened SessionApi
  import opened System
  import opened SystemInvariant
  import opened SystemTheorems

  /** What one poll that claims the job commits: release, claim, execution. */
  function RunJob(t: Tables, j: Id, e: Surroundings, now: Time): Tables
    requires j in t.jobs
  {
    var released := t.(jobs := Release(t.jobs, now));
    Execute(WithJob(released, j, Start(released.jobs[j], now)), j, e, now).committed
  }

  function RunOrder(t: Tables, order: seq<Id>, env: Id -> Surroundings, clock: Id -> Time): Tables
    decreases |order|
  {
    if order == [] then t
    else if order[0] in t.jobs then
      RunOrder(RunJob(t, order[0], env(order[0]), clock(order[0])), order[1..], env, clock)
    else RunOrder(t, order[1..], env, clock)
  }

  /** The rows of other sessions, which the claim of one session's jobs skips. */
  function Others(t: Tables, sid: Id): set<Id> {
    set j | j in t.jobs && t.jobs[j].session != sid
  }

  /** Each job of the order is, at its turn, a row the claim may return among
      those of the session. */
  predicate ClaimsInOrder(t: Tables, sid: Id, order: seq<Id>, env: Id -> Surroundings, clock: Id -> Time)
    decreases |order|
  {
    order == [] ||
    (&& order[0] in t.jobs
     && IsClaim(Release(t.jobs, clock(order[0])), clock(order[0]), Others(t, sid), order[0])
     && ClaimsInOrder(RunJob(t, order[0], env(order[0]), clock(order[0])), sid, order[1..], env, clock))
  }

  /** Ranked equally by the claim, and due whenever pending. */
  predicate Peers(x: Job, y: Job) {
    x.priority == y.priority && x.createdAt == y.createdAt && (x.status == Pending ==> x.nextRunAt == None)
  }

  /** A session with its audio and exactly its three stage jobs, created
      together, in given statuses. */
  predicate Trio(t: Tables, sid: Id, a: Id, b: Id, c: Id, sa: JobStatus, sb: JobStatus, sc: JobStatus) {
    && a != b && a != c && b != c && a in t.jobs && b in t.jobs && c in t.jobs
    && sid in t.sessions && t.sessions[sid].audioKey.Some?
    && (forall j :: j in t.jobs ==> (t.jobs[j].session == sid <==> j == a || j == b || j == c))
    && Peers(t.jobs[a], t.jobs[b]) && Peers(t.jobs[b], t.jobs[c]) && Peers(t.jobs[c], t.jobs[a])
    && t.jobs[a].jobType == Transcribe && t.jobs[b].jobType == Summarize && t.jobs[c].jobType == ExtractArtifact
    && t.jobs[a].status == sa && t.jobs[b].status == sb && t.jobs[c].status == sc
    && (sa == Completed ==> t.jobs[a].output.Some?)
    && (sb == Completed ==> KindOf(t.jobs[b].output) in ARTIFACT_KINDS)
  }

  /** Creation makes such a trio. */
  lemma CreatedTogether(t: Tables, sid: Id, ids: seq<Id>, now: Time)
    requires |ids| == 3 && ids[0] != ids[1] && ids[0] != ids[2] && ids[1] != ids[2]
    requires sid in t.sessions && t.sessions[sid].audioKey.Some? && CreateJobs(t, sid, ids, now).Ok?
    requires forall j :: j in t.jobs ==> t.jobs[j].session != sid && j !in ids
    ensures Trio(CreateJobs(t, sid, ids, now).t, sid, ids[0], ids[1], ids[2], Pending, Pending, Pending)
  {
  }

  /** Every provider answers, the model naming a known artifact kind. */
  ghost predicate ProvidersAnswer(env: Id -> Surroundings) {
    forall j :: env(j).provider.ProviderAnswer? && KindOf(env(j).provider.document) in ARTIFACT_KINDS
  }

  lemma Lookups(t: Tables, sid: Id, a: Id, b: Id, c: Id, sa: JobStatus, sb: JobStatus, sc: JobStatus)
    requires Trio(t, sid, a, b, c, sa, sb, sc)
    ensures CompletedRows(t, sid, Transcribe) == if sa == Completed then {a} else {}
    ensures CompletedRows(t, sid, Summarize) == if sb == Completed then {b} else {}
    ensures HasTranscript(t, sid) <==> sa == Completed
    ensures SummaryDocument(t, sid) == if sb == Completed then t.jobs[b].output else None
  {
    assert CompletedRows(t, sid, Transcribe) == if sa == Completed then {a} else {};
    assert CompletedRows(t, sid, Summarize) == if sb == Completed then {b} else {};
  }

  /** A release leaves a trio alone of which nothing is running. */
  lemma ReleaseSpares(t: Tables, sid: Id, a: Id, b: Id, c: Id, sa: JobStatus, sb: JobStatus, sc: JobStatus, now: Time)
    requires Trio(t, sid, a, b, c, sa, sb, sc) && sa != Running && sb != Running && sc != Running
    ensures var released := t.(jobs := Release(t.jobs, now));
            && Trio(released, sid, a, b, c, sa, sb, sc)
            && released.jobs[a] == t.jobs[a] && released.jobs[b] == t.jobs[b] && released.jobs[c] == t.jobs[c]
  {
  }

  /** Whichever of the three is pending may be claimed next. */
  lemma AnyMayBeClaimed(t: Tables, sid: Id, a: Id, b: Id, c: Id, sa: JobStatus, sb: JobStatus, sc: JobStatus,
                        now: Time, x: Id)
    requires Trio(t, sid, a, b, c, sa, sb, sc) && sa != Running && sb != Running && sc != Running
    requires (x == a && sa == Pending) || (x == b && sb == Pending) || (x == c && sc == Pending)
    ensures IsClaim(Release(t.jobs, now), now, Others(t, sid), x)
  {
    ReleaseSpares(t, sid, a, b, c, sa, sb, sc, now);
    var released := Release(t.jobs, now);
    forall k | k in released && k !in Others(t, sid) && Claimable(released[k], now)
      ensures Before(released[x], released[k])
    {
      assert k == a || k == b || k == c;
    }
  }

  lemma EndA(t: Tables, sid: Id, a: Id, b: Id, c: Id, sb: JobStatus, sc: JobStatus, e: Surroundings, now: Time)
    requires Trio(t, sid, a, b, c, Running, sb, sc) && e.provider.ProviderAnswer?
    ensures Trio(Execute(t, a, e, now).committed, sid, a, b, c, Completed, sb, sc)
    ensures Execute(t, a, e, now).committed.sessions == t.sessions
  {
  }

  lemma EndB(t: Tables, sid: Id, a: Id, b: Id, c: Id, sa: JobStatus, sc: JobStatus, e: Surroundings, now: Time)
    requires Trio(t, sid, a, b, c, sa, Running, sc) && e.provider.ProviderAnswer?
    requires KindOf(e.provider.document) in ARTIFACT_KINDS
    ensures Trio(Execute(t, b, e, now).committed, sid, a, b, c, sa, if sa == Completed then Completed else Failed, sc)
    ensures Execute(t, b, e, now).committed.sessions == t.sessions
  {
    Lookups(t, sid, a, b, c, sa, Running, sc);
  }

  lemma EndC(t: Tables, sid: Id, a: Id, b: Id, c: Id, sa: JobStatus, sb: JobStatus, e: Surroundings, now: Time)
    requires Trio(t, sid, a, b, c, sa, sb, Running) && e.provider.ProviderAnswer?
    ensures var after := Execute(t, c, e, now).committed;
            && Trio(after, sid, a, b, c, sa, sb, if sa == Completed then Completed else Failed)
            && after.sessions[sid].status == if sa == Completed then NeedsReview else t.sessions[sid].status
  {
    Lookups(t, sid, a, b, c, sa, sb, Running);
    KnownOrDefault(t, sid, a, b, c, sa, sb);
  }

  lemma KnownOrDefault(t: Tables, sid: Id, a: Id, b: Id, c: Id, sa: JobStatus, sb: JobStatus)
    requires Trio(t, sid, a, b, c, sa, sb, Running)
    ensures KindOf(SummaryDocument(t, sid)) in ARTIFACT_KINDS && |CompletedRows(t, sid, Summarize)| <= 1
  {
    Lookups(t, sid, a, b, c, sa, sb, Running);
  }

  lemma Started(t: Tables, sid: Id, a: Id, b: Id, c: Id, sa: JobStatus, sb: JobStatus, sc: JobStatus, x: Id, now: Time)
    requires Trio(t, sid, a, b, c, sa, sb, sc) && (x == a || x == b || x == c)
    ensures Trio(WithJob(t, x, Start(t.jobs[x], now)), sid, a, b, c,
                 if x == a then Running else sa, if x == b then Running else sb, if x == c then Running else sc)
  {
  }

  /** One turn of a job of the trio. */
  lemma Turn(t: Tables, sid: Id, a: Id, b: Id, c: Id, sa: JobStatus, sb: JobStatus, sc: JobStatus, x: Id,
             env: Id -> Surroundings, now: Time)
    requires Trio(t, sid, a, b, c, sa, sb, sc) && sa != Running && sb != Running && sc != Running
             && ProvidersAnswer(env)
    requires (x == a && sa == Pending) || (x == b && sb == Pending) || (x == c && sc == Pending)
    ensures IsClaim(Release(t.jobs, now), now, Others(t, sid), x)
    ensures var after, done := RunJob(t, x, env(x), now), if sa == Completed then Completed else Failed;
            && Trio(after, sid, a, b, c, if x == a then Completed else sa, if x == b then done else sb,
                    if x == c then done else sc)
            && after.sessions[sid].status
               == if x == c && sa == Completed then NeedsReview else t.sessions[sid].status
  {
    AnyMayBeClaimed(t, sid, a, b, c, sa, sb, sc, now, x);
    ReleaseSpares(t, sid, a, b, c, sa, sb, sc, now);
    var released := t.(jobs := Release(t.jobs, now));
    Started(released, sid, a, b, c, sa, sb, sc, x, now);
    var started := WithJob(released, x, Start(released.jobs[x], now));
    assert env(x).provider.ProviderAnswer?;
    if x == a {
      EndA(started, sid, a, b, c, sb, sc, env(a), now);
    } else if x == b {
      EndB(started, sid, a, b, c, sa, sc, env(b), now);
    } else {
      EndC(started, sid, a, b, c, sa, sb, env(c), now);
    }
  }

  // ---- Orders of three ----

  predicate Precedes(order: seq<Id>, x: Id, y: Id) {
    exists i, k :: 0 <= i < k < |order| && order[i] == x && order[k] == y
  }

  lemma {:induction false} DistinctSize(order: seq<Id>)
    requires forall i, k :: 0 <= i < k < |order| ==> order[i] != order[k]
    ensures |Elements(order)| == |order|
  {
    if order == [] {
      assert Elements(order) == {};
    } else {
      var last := |order| - 1;
      DistinctSize(order[..last]);
      assert order == order[..last] + [order[last]];
      assert Elements(order) == Elements(order[..last]) + {order[last]};
    }
  }

  lemma ThreeInOrder(order: seq<Id>, a: Id, b: Id, c: Id)
    requires a != b && a != c && b != c && Enumerates(order, {a, b, c})
    ensures |order| == 3 && order == [order[0], order[1], order[2]]
    ensures order[0] != order[1] && order[0] != order[2] && order[1] != order[2]
    ensures forall i :: 0 <= i < 3 ==> order[i] == a || order[i] == b || order[i] == c
  {
    DistinctSize(order);
    assert Elements(order) == {a, b, c};
  }

  lemma RunThree(t: Tables, sid: Id, x: Id, y: Id, z: Id, env: Id -> Surroundings, clock: Id -> Time)
    requires x in t.jobs && IsClaim(Release(t.jobs, clock(x)), clock(x), Others(t, sid), x)
    requires var t1 := RunJob(t, x, env(x), clock(x));
             && y in t1.jobs && IsClaim(Release(t1.jobs, clock(y)), clock(y), Others(t1, sid), y)
             && var t2 := RunJob(t1, y, env(y), clock(y));
                z in t2.jobs && IsClaim(Release(t2.jobs, clock(z)), clock(z), Others(t2, sid), z)
    ensures ClaimsInOrder(t, sid, [x, y, z], env, clock)
    ensures RunOrder(t, [x, y, z], env, clock)
         == RunJob(RunJob(RunJob(t, x, env(x), clock(x)), y, env(y), clock(y)), z, env(z), clock(z))
  {
    var t1 := RunJob(t, x, env(x), clock(x));
    var t2 := RunJob(t1, y, env(y), clock(y));
    assert [x, y, z][1..] == [y, z] && [y, z][1..] == [z] && [z][1..] == [];
    assert RunOrder(t2, [z], env, clock) == RunJob(t2, z, env(z), clock(z));
    assert RunOrder(t1, [y, z], env, clock) == RunOrder(t2, [z], env, clock);
    assert ClaimsInOrder(t2, sid, [z], env, clock);
    assert ClaimsInOrder(t1, sid, [y, z], env, clock);
  }

  /** With every provider answering, every order of the three jobs is one the
      claim may take, and it leaves the session with an extracted artifact to
      review exactly when the transcription ran before the extraction; otherwise
      the extraction has failed and the session still is processing. */
  lemma ExtractionNeedsTranscriptFirst(t: Tables, sid: Id, a: Id, b: Id, c: Id, order: seq<Id>,
                                       env: Id -> Surroundings, clock: Id -> Time)
    requires Trio(t, sid, a, b, c, Pending, Pending, Pending) && t.sessions[sid].status == Processing
    requires ProvidersAnswer(env) && Enumerates(order, {a, b, c})
    ensures ClaimsInOrder(t, sid, order, env, clock)
    ensures var end := RunOrder(t, order, env, clock);
            && c in end.jobs && sid in end.sessions
            && (end.jobs[c].status == Completed <==> Precedes(order, a, c))
            && (end.jobs[c].status == Failed <==> !Precedes(order, a, c))
            && end.sessions[sid].status == if Precedes(order, a, c) then NeedsReview else Processing
  {
    ThreeInOrder(order, a, b, c);
    var x, y, z := order[0], order[1], order[2];
    var sa := StatusAfter(x, a, a, Pending, Pending);
    var sb, sc := StatusAfter(x, b, a, Pending, Pending), StatusAfter(x, c, a, Pending, Pending);
    Turn(t, sid, a, b, c, Pending, Pending, Pending, x, env, clock(x));
    var t1 := RunJob(t, x, env(x), clock(x));
    Turn(t1, sid, a, b, c, sa, sb, sc, y, env, clock(y));
    var ra, rb, rc := StatusAfter(y, a, a, sa, sa), StatusAfter(y, b, a, sa, sb), StatusAfter(y, c, a, sa, sc);
    var t2 := RunJob(t1, y, env(y), clock(y));
    Turn(t2, sid, a, b, c, ra, rb, rc, z, env, clock(z));
    RunThree(t, sid, x, y, z, env, clock);
    PositionsOfThree(order, a, c);
  }

  /** The status of job `j` after the turn of `x`, given the transcription's status and its own. */
  function StatusAfter(x: Id, j: Id, a: Id, sa: JobStatus, own: JobStatus): JobStatus {
    if x != j then own else if j == a || sa == Completed then Completed else Failed
  }

  lemma PositionsOfThree(order: seq<Id>, a: Id, c: Id)
    requires |order| == 3 && order[0] != order[1] && order[0] != order[2] && order[1] != order[2]
    requires a in order && c in order && a != c
    ensures Precedes(order, a, c) <==> order[0] == a || (order[1] == a && order[2] == c)
  {
    if order[0] == a {
      var k :| 0 <= k < 3 && order[k] == c;
      assert 0 < k && order[0] == a && order[k] == c;
    } else if order[1] == a && order[2] == c {
      assert order[1] == a && order[2] == c;
    }
  }

  /** In every reachable state, from an accepted entry into processing on: no
      order of the three stages is excluded, and the order decides the outcome. */
  lemma AcceptedJobsRunInAnyOrder(steps: seq<Step>, sid: Id, user: Id, ids: seq<Id>, order: seq<Id>,
                                  env: Id -> Surroundings, clock: Id -> Time)
    requires FreshIds(After(steps).t.jobs, ids)
    requires UpdateStatus(After(steps).t, sid, user, Some(Processing), ids, After(steps).now).Ok?
    requires ProvidersAnswer(env) && Enumerates(order, {ids[0], ids[1], ids[2]})
    ensures var created := UpdateStatus(After(steps).t, sid, user, Some(Processing), ids, After(steps).now).t;
            var end := RunOrder(created, order, env, clock);
            && ClaimsInOrder(created, sid, order, env, clock) && sid in end.sessions
            && end.sessions[sid].status == if Precedes(order, ids[0], ids[2]) then NeedsReview else Processing
  {
    var t, now := After(steps).t, After(steps).now;
    ProcessingAccepted(steps, sid, user, ids, now);
    SessionsArePartitioned(steps, sid);
    CreatedTogether(SetStatus(t, sid, Processing), sid, ids, now);
    ExtractionNeedsTranscriptFirst(UpdateStatus(t, sid, user, Some(Processing), ids, now).t,
                                   sid, ids[0], ids[1], ids[2], order, env, clock);
  }
}
