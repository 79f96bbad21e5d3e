/** What the lease protocol guarantees over whole runs, and that the timing
    condition it needs is exact. */
module LeaseTheorems {
  import opened Domain
  import opened Worker
  import opened Lease

  /** In every run no job ever has two live executors. */
  ghost predicate AlwaysSingle(tm: Timing) {
    forall s, steps :: Initial(s) && Legal(tm, s, steps) ==> SingleExecutor(Run(tm, s, steps))
  }

  /** In every run an extraction job has inserted exactly one artifact once it
      is completed, and none before. */
  ghost predicate AlwaysOnce(tm: Timing) {
    forall s, steps :: Initial(s) && Legal(tm, s, steps) ==> ExactlyOnce(Run(tm, s, steps))
  }

  lemma {:induction false} RunConcat(tm: Timing, s: State, a: seq<Step>, b: seq<Step>)
    requires Legal(tm, s, a) && Legal(tm, Run(tm, s, a), b)
    ensures Legal(tm, s, a + b) && Run(tm, s, a + b) == Run(tm, Run(tm, s, a), b)
    decreases |a|
  {
    if a == [] {
      assert a + b == b;
    } else {
      RunConcat(tm, Apply(tm, s, a[0]), a[1..], b);
      assert (a + b)[1..] == a[1..] + b;
    }
  }

  lemma RunTwo(tm: Timing, s: State, st1: Step, st2: Step)
    requires Enabled(tm, s, st1) && Enabled(tm, Apply(tm, s, st1), st2)
    ensures Legal(tm, s, [st1, st2]) && Run(tm, s, [st1, st2]) == Apply(tm, Apply(tm, s, st1), st2)
  {
    assert [st1, st2][1..] == [st2];
    assert Run(tm, Apply(tm, s, st1), [st2]) == Apply(tm, Apply(tm, s, st1), st2);
  }

  // ---- A run that breaks the lease when the condition fails ----

  const THE_JOB: Job := NewJob(PipelineKey(0, ExtractArtifact), 0, ExtractArtifact, NoInput, 0)

  const START: State := State(0, map[0 := THE_JOB], map[], map[], map[], multiset{}, Tally(1, 0, 0, 0, 0))

  /** Worker 1 claimed the job at time zero; its heartbeat came round last at
      `last`, failing each time. */
  function Held(now: Time, last: Time, missed: nat, beating: bool): State {
    State(now, map[0 := Worker.Start(THE_JOB, 0)], map[], map[], map[1 := Executor(0, last, missed, beating)],
          multiset{}, Tally(1, 0, 0, 0, 1))
  }

  lemma StartIsInitial()
    ensures Initial(START)
  {
    assert PendingRows(START.jobs) == {0};
  }

  const OPENED: State := START.(polls := map[1 := Poll({}, 0)], locks := map[0 := 1])

  lemma FirstOpened(tm: Timing)
    ensures Enabled(tm, START, OpenPoll(1, 0)) && Apply(tm, START, OpenPoll(1, 0)) == OPENED
  {
    assert Release(START.jobs, 0) == START.jobs;
    assert DueForRelease(START) == {};
    assert TakeLocks(map[], Poll({}, 0), 1) == map[0 := 1];
  }

  lemma FirstCommitted(tm: Timing)
    ensures Enabled(tm, OPENED, CommitPoll(1)) && Apply(tm, OPENED, CommitPoll(1)) == Held(0, 0, 0, true)
  {
    var claimed := Apply(tm, OPENED, CommitPoll(1));
    assert claimed.locks == map[] && claimed.polls == map[];
    assert claimed.jobs == map[0 := Worker.Start(THE_JOB, 0)];
  }

  lemma FirstClaim(tm: Timing) returns (steps: seq<Step>)
    ensures Legal(tm, START, steps) && Run(tm, START, steps) == Held(0, 0, 0, true)
  {
    FirstOpened(tm);
    FirstCommitted(tm);
    RunTwo(tm, START, OpenPoll(1, 0), CommitPoll(1));
    steps := [OpenPoll(1, 0), CommitPoll(1)];
  }

  /** Every heartbeat of the allowed number fails. */
  lemma {:induction false} MissAll(tm: Timing, n: nat) returns (steps: seq<Step>)
    requires n <= tm.misses
    ensures Legal(tm, START, steps) && Run(tm, START, steps) == Held(Slack(tm, n), Slack(tm, n), n, true)
  {
    if n == 0 {
      steps := FirstClaim(tm);
    } else {
      var before := MissAll(tm, n - 1);
      var s := Held(Slack(tm, n - 1), Slack(tm, n - 1), n - 1, true);
      var later := Held(Slack(tm, n), Slack(tm, n - 1), n - 1, true);
      assert Enabled(tm, s, Tick(Cycle(tm))) && Apply(tm, s, Tick(Cycle(tm))) == later;
      assert Enabled(tm, later, MissedHeartbeat(1));
      assert Apply(tm, later, MissedHeartbeat(1)).executors == map[1 := Executor(0, Slack(tm, n), n, true)];
      RunTwo(tm, s, Tick(Cycle(tm)), MissedHeartbeat(1));
      RunConcat(tm, START, before, [Tick(Cycle(tm)), MissedHeartbeat(1)]);
      steps := before + [Tick(Cycle(tm)), MissedHeartbeat(1)];
    }
  }

  /** Unless the condition holds, the job's lease runs out under its executor. */
  lemma Outlast(tm: Timing) returns (steps: seq<Step>, now: Time, last: Time, missed: nat, beating: bool)
    requires !Safe(tm)
    ensures JOB_TIMEOUT < now
    ensures Legal(tm, START, steps) && Run(tm, START, steps) == Held(now, last, missed, beating)
  {
    if tm.shutdown {
      var claim := FirstClaim(tm);
      var s := Held(0, 0, 0, true);
      now, last, missed, beating := JOB_TIMEOUT + 1, 0, 0, false;
      assert Enabled(tm, s, Shutdown(1));
      assert Apply(tm, s, Shutdown(1)).executors == map[1 := Executor(0, 0, 0, false)];
      assert Apply(tm, s, Shutdown(1)) == Held(0, 0, 0, false);
      assert Enabled(tm, Held(0, 0, 0, false), Tick(now));
      assert Apply(tm, Held(0, 0, 0, false), Tick(now)) == Held(now, 0, 0, false);
      RunTwo(tm, s, Shutdown(1), Tick(now));
      RunConcat(tm, START, claim, [Shutdown(1), Tick(now)]);
      steps := claim + [Shutdown(1), Tick(now)];
    } else {
      var n := tm.misses;
      var before := MissAll(tm, n);
      SlackIsProduct(tm, n + 1);
      var s := Held(Slack(tm, n), Slack(tm, n), n, true);
      now, last, missed, beating := Slack(tm, n + 1), Slack(tm, n), n, true;
      assert now == Slack(tm, n) + Cycle(tm);
      assert Enabled(tm, s, Tick(Cycle(tm))) && Apply(tm, s, Tick(Cycle(tm))) == Held(now, last, n, true);
      var tick := [Tick(Cycle(tm))];
      assert tick[1..] == [] && Run(tm, s, tick) == Held(now, last, n, true);
      RunConcat(tm, START, before, tick);
      steps := before + tick;
    }
  }

  /** Two workers holding the same job. */
  predicate Shared(s: State) {
    && s.executors.Keys == {1, 2} && s.executors[1].job == 0 && s.executors[2].job == 0
    && s.locks == map[] && 0 in s.jobs && s.jobs[0].jobType == ExtractArtifact && s.jobs[0].status == Running
    && s.inserted == multiset{} && Conserved(s)
  }

  /** The second worker's claim has released and taken the first one's job. */
  function Retaken(s: State): State {
    s.(polls := s.polls[2 := Poll({0}, 0)], locks := map[0 := 2])
  }

  lemma SecondOpened(tm: Timing, s: State, now: Time, last: Time, missed: nat, beating: bool)
    requires JOB_TIMEOUT < now && s == Held(now, last, missed, beating)
    ensures Enabled(tm, s, OpenPoll(2, 0)) && Apply(tm, s, OpenPoll(2, 0)) == Retaken(s)
  {
    assert DueForRelease(s) == {0};
    assert TakeLocks(map[], Poll({0}, 0), 2) == map[0 := 2];
  }

  lemma SecondCommitted(tm: Timing, s: State, now: Time, last: Time, missed: nat, beating: bool)
    requires s == Held(now, last, missed, beating)
    ensures Enabled(tm, Retaken(s), CommitPoll(2)) && Shared(Apply(tm, Retaken(s), CommitPoll(2)))
  {
    var claimed := Apply(tm, Retaken(s), CommitPoll(2));
    assert claimed.locks == map[];
    assert PendingRows(claimed.jobs) == {};
  }

  lemma SecondClaim(tm: Timing, s: State, now: Time, last: Time, missed: nat, beating: bool) returns (steps: seq<Step>)
    requires JOB_TIMEOUT < now && s == Held(now, last, missed, beating)
    ensures Legal(tm, s, steps) && Shared(Run(tm, s, steps))
  {
    SecondOpened(tm, s, now, last, missed, beating);
    SecondCommitted(tm, s, now, last, missed, beating);
    RunTwo(tm, s, OpenPoll(2, 0), CommitPoll(2));
    steps := [OpenPoll(2, 0), CommitPoll(2)];
  }

  lemma BrokenRun(tm: Timing) returns (steps: seq<Step>)
    requires !Safe(tm)
    ensures Legal(tm, START, steps) && Shared(Run(tm, START, steps))
  {
    var before, now, last, missed, beating := Outlast(tm);
    var after := SecondClaim(tm, Held(now, last, missed, beating), now, last, missed, beating);
    RunConcat(tm, START, before, after);
    steps := before + after;
  }

  // ---- The theorems ----

  /** Lease safety, and that it needs exactly the timing condition: over all
      runs of any number of workers and jobs with crashes, releases and retries,
      no job has two live executors if and only if (misses + 1) cycles fit in
      the timeout and no shutdown is set while a job runs. */
  lemma LeaseSafety(tm: Timing)
    ensures AlwaysSingle(tm) <==> Safe(tm)
    ensures AlwaysSingle(tm) <==> !tm.shutdown && (tm.misses + 1) * (30_000_000 + tm.jitter) <= 120_000_000
  {
    if Safe(tm) {
      forall s, steps | Initial(s) && Legal(tm, s, steps)
        ensures SingleExecutor(Run(tm, s, steps))
      {
        InitialInv(tm, s);
        RunKeeps(tm, s, steps);
      }
    } else {
      StartIsInitial();
      var steps := BrokenRun(tm);
      assert !SingleExecutor(Run(tm, START, steps));
    }
  }

  /** The exactly-once effect holds over all runs under the same condition and
      no weaker one. */
  lemma ExactlyOnceEffect(tm: Timing)
    ensures AlwaysOnce(tm) <==> Safe(tm)
  {
    if Safe(tm) {
      forall s, steps | Initial(s) && Legal(tm, s, steps)
        ensures ExactlyOnce(Run(tm, s, steps))
      {
        InitialInv(tm, s);
        RunKeeps(tm, s, steps);
      }
    } else {
      StartIsInitial();
      var shared := BrokenRun(tm);
      var s := Run(tm, START, shared);
      var once := Apply(tm, s, FinishJob(1, None));
      assert once.inserted == multiset{0};
      var twice := Apply(tm, once, FinishJob(2, None));
      assert twice.inserted[0] == 2;
      RunTwo(tm, s, FinishJob(1, None), FinishJob(2, None));
      RunConcat(tm, START, shared, [FinishJob(1, None), FinishJob(2, None)]);
      assert !ExactlyOnce(Run(tm, START, shared + [FinishJob(1, None), FinishJob(2, None)]));
    }
  }

  /** A freed row is due at once, so the claim that follows finds a row. */
  lemma ReleaseFindsClaim(s: State)
    requires AllDue(s) && DueForRelease(s) != {} && DueForRelease(s) !! s.locks.Keys
    ensures exists pick :: IsClaim(Release(s.jobs, s.now), s.now, s.locks.Keys, pick)
  {
    var released := Release(s.jobs, s.now);
    var candidates := set j | j in released && j !in s.locks && Claimable(released[j], s.now);
    var freed :| freed in DueForRelease(s);
    assert freed in candidates;
    var best := BestExists(released, candidates);
    assert forall k :: k in released && k !in s.locks.Keys && Claimable(released[k], s.now) ==> k in candidates;
    assert IsClaim(released, s.now, s.locks.Keys, best);
  }

  lemma {:induction false} StartUnchanged(tm: Timing, s: State, steps: seq<Step>)
    requires Legal(tm, s, steps)
    ensures Run(tm, s, steps).tally.start == s.tally.start
    decreases |steps|
  {
    if steps != [] {
      StartUnchanged(tm, Apply(tm, s, steps[0]), steps[1..]);
    }
  }

  lemma DueStep(tm: Timing, s: State, st: Step)
    requires AllDue(s)
    ensures AllDue(Apply(tm, s, st))
  {
  }

  lemma {:induction false} AlwaysDue(tm: Timing, s: State, steps: seq<Step>)
    requires AllDue(s) && Legal(tm, s, steps)
    ensures AllDue(Run(tm, s, steps))
    decreases |steps|
  {
    if steps != [] {
      DueStep(tm, s, steps[0]);
      AlwaysDue(tm, Apply(tm, s, steps[0]), steps[1..]);
    }
  }

  /** No release is lost, at any timing: when the release frees a job, the claim
      in the same transaction finds one, so the commit that marks it running
      persists the release. */
  lemma NoLostRelease(tm: Timing, s: State, steps: seq<Step>)
    requires Initial(s) && Legal(tm, s, steps)
    ensures var end := Run(tm, s, steps);
            DueForRelease(end) != {} && DueForRelease(end) !! end.locks.Keys ==>
              exists pick :: IsClaim(Release(end.jobs, end.now), end.now, end.locks.Keys, pick)
  {
    AlwaysDue(tm, s, steps);
    var end := Run(tm, s, steps);
    if DueForRelease(end) != {} && DueForRelease(end) !! end.locks.Keys {
      ReleaseFindsClaim(end);
    }
  }

  // ---- Work ----

  /** No more claims than rows that ever became pending. */
  predicate Bounded(s: State) {
    s.tally.claimed + |PendingRows(s.jobs)| <= s.tally.start + s.tally.created + s.tally.released + s.tally.retried
  }

  lemma CommitBounds(s: State, w: Id)
    requires w in s.polls && PollRows(s, s.polls[w]) && Bounded(s)
    ensures Bounded(AfterCommit(s, w))
  {
    var s', p := AfterCommit(s, w), s.polls[w];
    assert PendingRows(s'.jobs) == PendingRows(s.jobs) + p.released - {p.pick};
    assert PendingRows(s.jobs) !! p.released;
    assert |PendingRows(s.jobs) + p.released| == |PendingRows(s.jobs)| + |p.released|;
  }

  /** An execution's end makes no row pending, and may take one that was. */
  lemma EndBounds(s: State, w: Id, row: Job, inserts: bool)
    requires PollsOk(s) && Bounded(s) && w in s.executors && s.executors[w].job in s.jobs
             && s.executors[w].job !in s.locks
    requires row.status == Pending ==> s.jobs[s.executors[w].job].status == Pending
    ensures PollsOk(AfterEnd(s, w, row, inserts)) && Bounded(AfterEnd(s, w, row, inserts))
  {
    PollsKept(s, AfterEnd(s, w, row, inserts));
    PendingAfter(s.jobs, s.executors[w].job, row);
  }

  lemma RowBounds(tm: Timing, s: State, st: Step)
    requires PollsOk(s) && Bounded(s) && Enabled(tm, s, st)
    requires st.Create? || st.Retry? || st.Heartbeat? || st.StrayHeartbeat?
    ensures PollsOk(Apply(tm, s, st)) && Bounded(Apply(tm, s, st))
  {
    var s' := Apply(tm, s, st);
    var j := if st.Heartbeat? then s.executors[st.w].job else st.j;
    PendingAfter(s.jobs, j, s'.jobs[j]);
    PollsKept(s, s');
  }

  lemma PollBounds(tm: Timing, s: State, st: Step)
    requires PollsOk(s) && Bounded(s) && Enabled(tm, s, st)
    requires st.OpenPoll? || st.CommitPoll? || st.AbortPoll?
    ensures PollsOk(Apply(tm, s, st)) && Bounded(Apply(tm, s, st))
  {
    match st
    case OpenPoll(w, pick) => OpenKeepsPolls(s, w, Poll(DueForRelease(s), pick));
    case CommitPoll(w) =>
      assert PollRows(s, s.polls[w]);
      CommitKeepsPolls(s, w);
      CommitBounds(s, w);
    case AbortPoll(w) => AbortKeepsPolls(s, w);
  }

  lemma StepBounds(tm: Timing, s: State, st: Step)
    requires PollsOk(s) && Bounded(s)
    ensures PollsOk(Apply(tm, s, st)) && Bounded(Apply(tm, s, st))
  {
    if Enabled(tm, s, st) {
      match st
      case FinishJob(w, output) =>
        var job := s.jobs[s.executors[w].job];
        EndBounds(s, w, job.(status := Completed, output := output), job.jobType == ExtractArtifact);
      case FailJob(w, message) =>
        EndBounds(s, w, FailRow(s.jobs[s.executors[w].job], message, s.now), false);
      case Create(_, _, _, _, _) => RowBounds(tm, s, st);
      case Retry(_) => RowBounds(tm, s, st);
      case Heartbeat(_) => RowBounds(tm, s, st);
      case StrayHeartbeat(_) => RowBounds(tm, s, st);
      case OpenPoll(_, _) => PollBounds(tm, s, st);
      case CommitPoll(_) => PollBounds(tm, s, st);
      case AbortPoll(_) => PollBounds(tm, s, st);
      case _ => PollsKept(s, Apply(tm, s, st));
    }
  }

  lemma {:induction false} AlwaysBounded(tm: Timing, s: State, steps: seq<Step>)
    requires PollsOk(s) && Bounded(s) && Legal(tm, s, steps)
    ensures Bounded(Run(tm, s, steps))
    decreases |steps|
  {
    if steps != [] {
      StepBounds(tm, s, steps[0]);
      AlwaysBounded(tm, Apply(tm, s, steps[0]), steps[1..]);
    }
  }

  /** Executions are bounded by the work made, at any timing: the claims made and
      the rows still pending are at most the rows pending at first and those
      created, released and retried since. */
  lemma WorkIsBounded(tm: Timing, s: State, steps: seq<Step>)
    requires Initial(s) && Legal(tm, s, steps)
    ensures var tally := Run(tm, s, steps).tally;
            && tally.start == |PendingRows(s.jobs)|
            && tally.claimed + |PendingRows(Run(tm, s, steps).jobs)|
               <= tally.start + tally.created + tally.released + tally.retried
  {
    AlwaysBounded(tm, s, steps);
    StartUnchanged(tm, s, steps);
  }

  /** In every run the claims and the rows still pending account for all work. */
  ghost predicate AlwaysConserved(tm: Timing) {
    forall s, steps :: Initial(s) && Legal(tm, s, steps) ==> Conserved(Run(tm, s, steps))
  }

  /** Two workers share a job; the job fails, is retried, and the other worker's
      late finish completes the pending row: a retry nobody claimed. */
  lemma LoseWork(tm: Timing, s: State) returns (steps: seq<Step>)
    requires Shared(s)
    ensures Legal(tm, s, steps) && !Conserved(Run(tm, s, steps))
  {
    var failed := Apply(tm, s, FailJob(2, ""));
    assert failed.jobs[0].status == Failed && Enabled(tm, failed, Retry(0));
    var retried := Apply(tm, failed, Retry(0));
    assert retried.jobs[0].status == Pending && retried.executors[1].job == 0;
    assert Enabled(tm, retried, FinishJob(1, None));
    var lost := Apply(tm, retried, FinishJob(1, None));
    assert PendingRows(lost.jobs) == PendingRows(s.jobs);
    RunTwo(tm, s, FailJob(2, ""), Retry(0));
    assert [FinishJob(1, None)][1..] == [] && Legal(tm, retried, [FinishJob(1, None)]);
    RunConcat(tm, s, [FailJob(2, ""), Retry(0)], [FinishJob(1, None)]);
    steps := [FailJob(2, ""), Retry(0)] + [FinishJob(1, None)];
  }

  /** Conservation of work needs the lease, and exactly the lease: every claim
      and every pending row is accounted for over all runs if and only if the
      timing condition holds. Without it a late finish may swallow a retry. */
  lemma WorkIsConserved(tm: Timing)
    ensures AlwaysConserved(tm) <==> Safe(tm)
  {
    if Safe(tm) {
      forall s, steps | Initial(s) && Legal(tm, s, steps)
        ensures Conserved(Run(tm, s, steps))
      {
        InitialInv(tm, s);
        RunKeeps(tm, s, steps);
      }
    } else {
      StartIsInitial();
      var before := BrokenRun(tm);
      var after := LoseWork(tm, Run(tm, START, before));
      RunConcat(tm, START, before, after);
      assert !Conserved(Run(tm, START, before + after));
    }
  }
}
