/** The lease protocol of concurrent workers, as timed steps over any number of
    workers and jobs. A job row names no owner: exclusion rests on row locks
    while a claim is open and on the heartbeat outrunning the timeout after it. */
module Lease {
  import opened Domain
  import opened Orchestrator
  import opened Worker

  /** The assumption about heartbeats: a cycle takes at most `jitter` more than
      the interval, at most `misses` in a row fail silently, and `shutdown`
      says whether the shutdown flag, which stops heartbeats, may be set while
      a job runs. */
  datatype Timing = Timing(jitter: Time, misses: nat, shutdown: bool)

  function Cycle(tm: Timing): Time {
    HEARTBEAT_INTERVAL + tm.jitter
  }

  predicate Safe(tm: Timing) {
    !tm.shutdown && (tm.misses + 1) * Cycle(tm) <= JOB_TIMEOUT
  }

  /** A running handler: its job, when its heartbeat thread last came round,
      how many heartbeats in a row have failed since one went through. */
  datatype Executor = Executor(job: Id, lastCycle: Time, missed: nat, beating: bool)

  /** An open claiming transaction: the rows it has released and the row it has
      claimed, all locked until it ends. */
  datatype Poll = Poll(released: set<Id>, pick: Id)

  /** Counters of everything that makes or takes pending work. */
  datatype Tally = Tally(start: nat, created: nat, released: nat, retried: nat, claimed: nat)

  /** Workers are numbered; `locks` is the lock table, from rows to the workers
      whose open claims hold them; `inserted` is a history variable counting, per job,
      the artifacts inserted with that job's id. */
  datatype State = State(now: Time, jobs: map<Id, Job>, polls: map<Id, Poll>, locks: map<Id, Id>,
                         executors: map<Id, Executor>, inserted: multiset<Id>, tally: Tally)

  function TakeLocks(locks: map<Id, Id>, p: Poll, w: Id): map<Id, Id> {
    map j | j in locks.Keys + p.released + {p.pick} :: if j in p.released || j == p.pick then w else locks[j]
  }

  function DropLocks(locks: map<Id, Id>, w: Id): map<Id, Id> {
    map j | j in locks && locks[j] != w :: locks[j]
  }

  function DueForRelease(s: State): set<Id> {
    set j | j in s.jobs && TimedOut(s.jobs[j], s.now)
  }

  function PendingRows(jobs: map<Id, Job>): set<Id> {
    set j | j in jobs && jobs[j].status == Pending
  }

  datatype Step =
    | Tick(dt: Time)
    | Create(j: Id, key: JobKey, session: Id, jobType: JobType, input: JobInput)
    | Retry(j: Id)
    | OpenPoll(w: Id, pick: Id)
    | CommitPoll(w: Id)
    | AbortPoll(w: Id)
    | Heartbeat(w: Id)
    | MissedHeartbeat(w: Id)
    | StrayHeartbeat(j: Id)      // from the thread of an execution that has ended
    | Shutdown(w: Id)
    | FinishJob(w: Id, output: Option<Payload>)
    | FailJob(w: Id, message: string)
    | Crash(w: Id)

  /** Time may pass up to the next heartbeat cycle of every beating executor. */
  predicate MayPass(tm: Timing, s: State, now: Time) {
    forall w :: w in s.executors && s.executors[w].beating ==> now <= s.executors[w].lastCycle + Cycle(tm)
  }

  predicate Enabled(tm: Timing, s: State, st: Step) {
    match st
    case Tick(dt) => MayPass(tm, s, s.now + dt)
    case Create(j, _, _, _, _) => j !in s.jobs
    case Retry(j) => j in s.jobs && s.jobs[j].status == Failed && j !in s.locks
    case OpenPoll(w, pick) =>
      && w !in s.polls && w !in s.executors && DueForRelease(s) !! s.locks.Keys
      && IsClaim(Release(s.jobs, s.now), s.now, s.locks.Keys, pick)
    case CommitPoll(w) => w in s.polls && s.polls[w].released <= s.jobs.Keys && s.polls[w].pick in s.jobs
    case AbortPoll(w) => w in s.polls
    case Heartbeat(w) =>
      && w in s.executors && s.executors[w].lastCycle + HEARTBEAT_INTERVAL <= s.now
      && s.executors[w].job in s.jobs && s.executors[w].job !in s.locks
    case MissedHeartbeat(w) =>
      && w in s.executors && s.executors[w].lastCycle + HEARTBEAT_INTERVAL <= s.now
      && s.executors[w].missed < tm.misses
    case StrayHeartbeat(j) => j in s.jobs && j !in s.locks
    case Shutdown(w) => tm.shutdown && w in s.executors
    case FinishJob(w, _) => w in s.executors && s.executors[w].job in s.jobs && s.executors[w].job !in s.locks
    case FailJob(w, _) => w in s.executors && s.executors[w].job in s.jobs && s.executors[w].job !in s.locks
    case Crash(w) => w in s.executors
  }

  function Claimed(jobs: map<Id, Job>, p: Poll, now: Time): map<Id, Job>
    requires p.pick in jobs
  {
    var released := map j | j in jobs :: if j in p.released then Freed(jobs[j]) else jobs[j];
    released[p.pick := Worker.Start(released[p.pick], now)]
  }

  function FailRow(job: Job, message: string, now: Time): Job {
    if Agents.Registered(job.jobType) then FailByWorker(job, message, now) else FailUnknown(job, message, now)
  }

  function AfterOpen(s: State, w: Id, p: Poll): State {
    s.(polls := s.polls[w := p], locks := TakeLocks(s.locks, p, w))
  }

  function AfterCommit(s: State, w: Id): State
    requires w in s.polls && s.polls[w].pick in s.jobs
  {
    var p := s.polls[w];
    s.(jobs := Claimed(s.jobs, p, s.now), polls := s.polls - {w}, locks := DropLocks(s.locks, w),
       executors := s.executors[w := Executor(p.pick, s.now, 0, true)],
       tally := s.tally.(released := s.tally.released + |p.released|, claimed := s.tally.claimed + 1))
  }

  /** The end of a handler run: its job row as written, and whether an artifact
      came with it. */
  function AfterEnd(s: State, w: Id, row: Job, inserts: bool): State
    requires w in s.executors
  {
    var j := s.executors[w].job;
    s.(jobs := s.jobs[j := row], executors := s.executors - {w},
       inserted := if inserts then s.inserted + multiset{j} else s.inserted)
  }

  /** The state after a step; a step that is not enabled does nothing. */
  function Apply(tm: Timing, s: State, st: Step): State {
    if !Enabled(tm, s, st) then s else
    match st
    case Tick(dt) => s.(now := s.now + dt)
    case Create(j, key, session, jobType, input) =>
      s.(jobs := s.jobs[j := NewJob(key, session, jobType, input, s.now)],
         tally := s.tally.(created := s.tally.created + 1))
    case Retry(j) =>
      s.(jobs := s.jobs[j := MoveJob(s.jobs[j], Pending, None, None, s.now)],
         tally := s.tally.(retried := s.tally.retried + 1))
    case OpenPoll(w, pick) => AfterOpen(s, w, Poll(DueForRelease(s), pick))
    case CommitPoll(w) => AfterCommit(s, w)
    case AbortPoll(w) => s.(polls := s.polls - {w}, locks := DropLocks(s.locks, w))
    case Heartbeat(w) =>
      var e := s.executors[w];
      s.(jobs := s.jobs[e.job := Beat(s.jobs[e.job], s.now)],
         executors := s.executors[w := e.(lastCycle := s.now, missed := 0)])
    case MissedHeartbeat(w) =>
      var e := s.executors[w];
      s.(executors := s.executors[w := e.(lastCycle := s.now, missed := e.missed + 1)])
    case StrayHeartbeat(j) => s.(jobs := s.jobs[j := Beat(s.jobs[j], s.now)])
    case Shutdown(w) => s.(executors := s.executors[w := s.executors[w].(beating := false)])
    case FinishJob(w, output) =>
      var job := s.jobs[s.executors[w].job];
      AfterEnd(s, w, job.(status := Completed, output := output), job.jobType == ExtractArtifact)
    case FailJob(w, message) => AfterEnd(s, w, FailRow(s.jobs[s.executors[w].job], message, s.now), false)
    case Crash(w) => s.(executors := s.executors - {w})
  }

  // ---- The invariant ----

  /** No job has two live executors. */
  predicate SingleExecutor(s: State) {
    forall v, w :: v in s.executors && w in s.executors && s.executors[v].job == s.executors[w].job ==> v == w
  }

  /** Every live executor holds a running, unlocked job whose last sign of life
      is at most the missed cycles plus one ago. */
  predicate Alive(tm: Timing, s: State) {
    forall w :: w in s.executors ==>
      var e := s.executors[w];
      && e.job in s.jobs && e.job !in s.locks
      && s.jobs[e.job].status == Running && s.jobs[e.job].startedAt.Some?
      && e.beating && e.missed <= tm.misses
      && e.lastCycle <= s.jobs[e.job].startedAt.value + Slack(tm, e.missed)
      && e.lastCycle <= s.now <= e.lastCycle + Cycle(tm)
  }

  /** The rows of an open claim exist: each released row is running, and the
      claimed row pending or just released. */
  predicate PollRows(s: State, p: Poll) {
    && (forall j :: j in p.released ==> j in s.jobs && s.jobs[j].status == Running)
    && p.pick in s.jobs && (p.pick !in p.released ==> s.jobs[p.pick].status == Pending)
  }

  /** The claim holds the locks of all its rows. */
  predicate Locked(s: State, w: Id, p: Poll) {
    && (forall j :: j in p.released ==> j in s.locks && s.locks[j] == w)
    && p.pick in s.locks && s.locks[p.pick] == w
  }

  /** Every row an open claim has claimed or released is locked by that claim
      alone; a worker with an open claim runs nothing. */
  predicate PollsOk(s: State) {
    && (forall w :: w in s.polls ==> w !in s.executors && PollRows(s, s.polls[w]) && Locked(s, w, s.polls[w]))
    && s.locks.Keys <= s.jobs.Keys
  }

  /** No job waits for a time still to come. */
  predicate AllDue(s: State) {
    forall j :: j in s.jobs && s.jobs[j].nextRunAt.Some? ==> s.jobs[j].nextRunAt.value <= s.now
  }

  /** An extraction job has inserted one artifact if completed, none otherwise. */
  predicate ExactlyOnce(s: State) {
    && (forall j :: j in s.jobs ==>
          s.inserted[j] == if s.jobs[j].jobType == ExtractArtifact && s.jobs[j].status == Completed then 1 else 0)
    && (forall j :: j in s.inserted ==> j in s.jobs)
  }

  /** Claims made and rows pending account for all the work that ever was pending. */
  predicate Conserved(s: State) {
    s.tally.claimed + |PendingRows(s.jobs)| == s.tally.start + s.tally.created + s.tally.released + s.tally.retried
  }

  predicate Inv(tm: Timing, s: State) {
    SingleExecutor(s) && Alive(tm, s) && PollsOk(s) && AllDue(s) && ExactlyOnce(s) && Conserved(s)
  }

  predicate Initial(s: State) {
    && s.polls == map[] && s.locks == map[] && s.executors == map[] && AllDue(s) && ExactlyOnce(s)
    && s.tally == Tally(|PendingRows(s.jobs)|, 0, 0, 0, 0)
  }

  /** The time that may pass while `n` heartbeats in a row are missed. */
  function Slack(tm: Timing, n: nat): Time {
    if n == 0 then 0 else Slack(tm, n - 1) + Cycle(tm)
  }

  lemma {:induction false} SlackIsProduct(tm: Timing, n: nat)
    ensures Slack(tm, n) == n * Cycle(tm)
  {
    if n > 0 {
      SlackIsProduct(tm, n - 1);
    }
  }

  lemma {:induction false} SlackMonotone(tm: Timing, a: nat, b: nat)
    requires a <= b
    ensures Slack(tm, a) <= Slack(tm, b)
    decreases b
  {
    if a < b {
      SlackMonotone(tm, a, b - 1);
    }
  }

  /** The arithmetic of the lease: a live executor's job is never timed out. */
  lemma AliveNotTimedOut(tm: Timing, s: State, w: Id)
    requires Safe(tm) && Alive(tm, s) && w in s.executors
    ensures !TimedOut(s.jobs[s.executors[w].job], s.now)
  {
    var e := s.executors[w];
    SlackMonotone(tm, e.missed + 1, tm.misses + 1);
    SlackIsProduct(tm, tm.misses + 1);
    assert Slack(tm, e.missed + 1) == Slack(tm, e.missed) + Cycle(tm);
  }

  /** A released row, or a claimed one, is never a live executor's. */
  lemma OpenKeepsAlive(tm: Timing, s: State, w: Id, p: Poll)
    requires Safe(tm) && Alive(tm, s)
    requires p.released == DueForRelease(s)
    requires p.pick in s.jobs && (p.pick in p.released || s.jobs[p.pick].status == Pending)
    ensures Alive(tm, AfterOpen(s, w, p))
  {
    forall v | v in s.executors
      ensures s.executors[v].job !in p.released && s.executors[v].job != p.pick
    {
      AliveNotTimedOut(tm, s, v);
    }
  }

  lemma OpenKeepsPolls(s: State, w: Id, p: Poll)
    requires PollsOk(s) && w !in s.polls && w !in s.executors && PollRows(s, p)
    requires p.released !! s.locks.Keys && p.pick !in s.locks
    ensures PollsOk(AfterOpen(s, w, p))
  {
    var s' := AfterOpen(s, w, p);
    forall v | v in s'.polls
      ensures v !in s'.executors && PollRows(s', s'.polls[v]) && Locked(s', v, s'.polls[v])
    {
      if v != w {
        assert PollRows(s, s.polls[v]) && Locked(s, v, s.polls[v]);
      }
    }
  }

  lemma CommitKeepsAlive(tm: Timing, s: State, w: Id)
    requires Alive(tm, s) && SingleExecutor(s) && PollsOk(s) && w in s.polls
    ensures Alive(tm, AfterCommit(s, w)) && SingleExecutor(AfterCommit(s, w))
  {
    var s', p := AfterCommit(s, w), s.polls[w];
    assert Locked(s, w, p) && PollRows(s, p);
    assert p.pick !in s'.locks;
    assert s'.executors[w] == Executor(p.pick, s.now, 0, true);
    assert Slack(tm, 0) == 0;
    forall v | v in s.executors && v != w
      ensures s'.executors[v] == s.executors[v] && s'.jobs[s.executors[v].job] == s.jobs[s.executors[v].job]
    {
    }
  }

  lemma CommitKeepsPolls(s: State, w: Id)
    requires PollsOk(s) && w in s.polls
    ensures PollsOk(AfterCommit(s, w))
  {
    var s', p := AfterCommit(s, w), s.polls[w];
    assert Locked(s, w, p);
    forall v | v in s'.polls
      ensures v !in s'.executors && PollRows(s', s'.polls[v]) && Locked(s', v, s'.polls[v])
    {
      assert v != w && PollRows(s, s.polls[v]) && Locked(s, v, s.polls[v]);
    }
  }

  lemma CommitKeepsOnce(s: State, w: Id)
    requires w in s.polls && PollRows(s, s.polls[w]) && AllDue(s) && ExactlyOnce(s)
    ensures AllDue(AfterCommit(s, w)) && ExactlyOnce(AfterCommit(s, w))
  {
  }

  lemma CommitKeepsWork(s: State, w: Id)
    requires w in s.polls && PollRows(s, s.polls[w]) && Conserved(s)
    ensures Conserved(AfterCommit(s, w))
  {
    var s', p := AfterCommit(s, w), s.polls[w];
    assert PendingRows(s'.jobs) == PendingRows(s.jobs) + p.released - {p.pick};
    assert PendingRows(s.jobs) !! p.released;
    assert |PendingRows(s.jobs) + p.released| == |PendingRows(s.jobs)| + |p.released|;
  }

  /** A step that keeps every locked row leaves every open claim alone. */
  lemma PollsKept(s: State, s': State)
    requires PollsOk(s) && s'.polls == s.polls && s'.locks == s.locks && s'.executors.Keys <= s.executors.Keys
    requires s.jobs.Keys <= s'.jobs.Keys
    requires forall i :: i in s.locks ==> s'.jobs[i] == s.jobs[i]
    ensures PollsOk(s')
  {
    forall w | w in s'.polls
      ensures w !in s'.executors && PollRows(s', s'.polls[w]) && Locked(s', w, s'.polls[w])
    {
      assert PollRows(s, s.polls[w]) && Locked(s, w, s.polls[w]);
    }
  }

  /** A step that writes no row keeps the accounts. */
  lemma AccountsKept(s: State, s': State)
    requires AllDue(s) && ExactlyOnce(s) && Conserved(s)
    requires s'.jobs == s.jobs && s'.inserted == s.inserted && s'.tally == s.tally && s.now <= s'.now
    ensures AllDue(s') && ExactlyOnce(s') && Conserved(s')
  {
  }

  /** Rows pending after one row has been written. */
  lemma PendingAfter(jobs: map<Id, Job>, j: Id, row: Job)
    ensures |PendingRows(jobs[j := row])| + (if j in jobs && jobs[j].status == Pending then 1 else 0)
         == |PendingRows(jobs)| + (if row.status == Pending then 1 else 0)
  {
    var others := PendingRows(jobs) - {j};
    assert PendingRows(jobs) == if j in jobs && jobs[j].status == Pending then others + {j} else others;
    assert PendingRows(jobs[j := row]) == if row.status == Pending then others + {j} else others;
  }

  /** A sign of life on a running row, whoever sends it. */
  lemma BeatKeeps(tm: Timing, s: State, j: Id)
    requires Inv(tm, s) && j in s.jobs && j !in s.locks
    ensures Inv(tm, s.(jobs := s.jobs[j := Beat(s.jobs[j], s.now)]))
  {
    var s' := s.(jobs := s.jobs[j := Beat(s.jobs[j], s.now)]);
    PollsKept(s, s');
    PendingAfter(s.jobs, j, s'.jobs[j]);
    assert Alive(tm, s');
  }

  /** A heartbeat cycle that went through starts counting anew; one that failed
      spends one cycle of the slack. */
  lemma CycleKeepsAlive(tm: Timing, s: State, w: Id, missed: nat)
    requires Alive(tm, s) && w in s.executors && missed <= tm.misses
    requires s.now <= s.jobs[s.executors[w].job].startedAt.value || missed == s.executors[w].missed + 1
    ensures Alive(tm, s.(executors := s.executors[w := s.executors[w].(lastCycle := s.now, missed := missed)]))
  {
    assert Slack(tm, s.executors[w].missed + 1) == Slack(tm, s.executors[w].missed) + Cycle(tm);
  }

  lemma CycleKeeps(tm: Timing, s: State, w: Id, missed: nat)
    requires Inv(tm, s) && w in s.executors && missed <= tm.misses
    requires s.now <= s.jobs[s.executors[w].job].startedAt.value || missed == s.executors[w].missed + 1
    ensures Inv(tm, s.(executors := s.executors[w := s.executors[w].(lastCycle := s.now, missed := missed)]))
  {
    CycleKeepsAlive(tm, s, w, missed);
    PollsKept(s, s.(executors := s.executors[w := s.executors[w].(lastCycle := s.now, missed := missed)]));
    AccountsKept(s, s.(executors := s.executors[w := s.executors[w].(lastCycle := s.now, missed := missed)]));
  }

  lemma HeartbeatKeeps(tm: Timing, s: State, w: Id)
    requires Inv(tm, s) && Enabled(tm, s, Heartbeat(w))
    ensures Inv(tm, Apply(tm, s, Heartbeat(w)))
  {
    BeatKeeps(tm, s, s.executors[w].job);
    CycleKeeps(tm, s.(jobs := s.jobs[s.executors[w].job := Beat(s.jobs[s.executors[w].job], s.now)]), w, 0);
  }

  /** A handler's end, whatever row it writes, so long as the row is not
      pending and an artifact comes exactly with an extraction's completion. */
  lemma EndKeeps(tm: Timing, s: State, w: Id, row: Job, inserts: bool)
    requires Inv(tm, s) && w in s.executors
    requires var was := s.jobs[s.executors[w].job];
             && row.jobType == was.jobType && row.status != Pending
             && (row.nextRunAt == was.nextRunAt || row.nextRunAt == Some(s.now))
             && (inserts <==> row.jobType == ExtractArtifact && row.status == Completed)
    ensures Inv(tm, AfterEnd(s, w, row, inserts))
  {
    var s', j := AfterEnd(s, w, row, inserts), s.executors[w].job;
    PollsKept(s, s');
    PendingAfter(s.jobs, j, row);
    forall v | v in s'.executors
      ensures s'.executors[v].job != j
    {
      assert v in s.executors && v != w;
    }
  }

  lemma CreateKeeps(tm: Timing, s: State, st: Step)
    requires Inv(tm, s) && Enabled(tm, s, st) && st.Create?
    ensures Inv(tm, Apply(tm, s, st))
  {
    var s' := Apply(tm, s, st);
    PollsKept(s, s');
    PendingAfter(s.jobs, st.j, s'.jobs[st.j]);
  }

  lemma RetryKeeps(tm: Timing, s: State, j: Id)
    requires Inv(tm, s) && Enabled(tm, s, Retry(j))
    ensures Inv(tm, Apply(tm, s, Retry(j)))
  {
    var s' := Apply(tm, s, Retry(j));
    PollsKept(s, s');
    PendingAfter(s.jobs, j, s'.jobs[j]);
  }

  lemma CrashKeeps(tm: Timing, s: State, w: Id)
    requires Inv(tm, s) && Enabled(tm, s, Crash(w))
    ensures Inv(tm, Apply(tm, s, Crash(w)))
  {
    var s' := s.(executors := s.executors - {w});
    PollsKept(s, s');
    AccountsKept(s, s');
  }

  lemma AbortKeepsPolls(s: State, w: Id)
    requires PollsOk(s) && w in s.polls
    ensures PollsOk(s.(polls := s.polls - {w}, locks := DropLocks(s.locks, w)))
  {
    var s' := s.(polls := s.polls - {w}, locks := DropLocks(s.locks, w));
    forall v | v in s'.polls
      ensures v !in s'.executors && PollRows(s', s'.polls[v]) && Locked(s', v, s'.polls[v])
    {
      assert PollRows(s, s.polls[v]) && Locked(s, v, s.polls[v]);
    }
  }

  lemma AbortKeeps(tm: Timing, s: State, w: Id)
    requires Inv(tm, s) && Enabled(tm, s, AbortPoll(w))
    ensures Inv(tm, Apply(tm, s, AbortPoll(w)))
  {
    AbortKeepsPolls(s, w);
  }

  lemma OpenKeeps(tm: Timing, s: State, w: Id, pick: Id)
    requires Safe(tm) && Inv(tm, s) && Enabled(tm, s, OpenPoll(w, pick))
    ensures Inv(tm, Apply(tm, s, OpenPoll(w, pick)))
  {
    OpenKeepsAlive(tm, s, w, Poll(DueForRelease(s), pick));
    OpenKeepsPolls(s, w, Poll(DueForRelease(s), pick));
  }

  lemma CommitKeeps(tm: Timing, s: State, w: Id)
    requires Inv(tm, s) && Enabled(tm, s, CommitPoll(w))
    ensures Inv(tm, Apply(tm, s, CommitPoll(w)))
  {
    CommitKeepsAlive(tm, s, w);
    CommitKeepsPolls(s, w);
    CommitKeepsOnce(s, w);
    CommitKeepsWork(s, w);
  }

  lemma FinishKeeps(tm: Timing, s: State, w: Id, output: Option<Payload>)
    requires Inv(tm, s) && Enabled(tm, s, FinishJob(w, output))
    ensures Inv(tm, Apply(tm, s, FinishJob(w, output)))
  {
    var job := s.jobs[s.executors[w].job];
    EndKeeps(tm, s, w, job.(status := Completed, output := output), job.jobType == ExtractArtifact);
  }

  lemma FailKeeps(tm: Timing, s: State, w: Id, message: string)
    requires Inv(tm, s) && Enabled(tm, s, FailJob(w, message))
    ensures Inv(tm, Apply(tm, s, FailJob(w, message)))
  {
    EndKeeps(tm, s, w, FailRow(s.jobs[s.executors[w].job], message, s.now), false);
  }

  lemma TickKeepsAlive(tm: Timing, s: State, now: Time)
    requires Alive(tm, s) && s.now <= now && MayPass(tm, s, now)
    ensures Alive(tm, s.(now := now))
  {
  }

  lemma TickKeeps(tm: Timing, s: State, s': State)
    requires Inv(tm, s) && s' == s.(now := s'.now) && s.now <= s'.now && MayPass(tm, s, s'.now)
    ensures Inv(tm, s')
  {
    TickKeepsAlive(tm, s, s'.now);
    PollsKept(s, s');
    AccountsKept(s, s');
  }

  lemma TickApplied(tm: Timing, s: State, dt: Time)
    requires Enabled(tm, s, Tick(dt))
    ensures Apply(tm, s, Tick(dt)) == s.(now := s.now + dt) && MayPass(tm, s, s.now + dt)
  {
  }

  lemma MissKeeps(tm: Timing, s: State, w: Id)
    requires Inv(tm, s) && Enabled(tm, s, MissedHeartbeat(w))
    ensures Inv(tm, Apply(tm, s, MissedHeartbeat(w)))
  {
    CycleKeeps(tm, s, w, s.executors[w].missed + 1);
  }

  lemma StrayKeeps(tm: Timing, s: State, j: Id)
    requires Inv(tm, s) && Enabled(tm, s, StrayHeartbeat(j))
    ensures Inv(tm, Apply(tm, s, StrayHeartbeat(j)))
  {
    BeatKeeps(tm, s, j);
  }

  lemma StepKeeps(tm: Timing, s: State, st: Step)
    requires Safe(tm) && Inv(tm, s)
    ensures Inv(tm, Apply(tm, s, st))
  {
    if Enabled(tm, s, st) {
      match st
      case Tick(dt) =>
        TickApplied(tm, s, dt);
        TickKeeps(tm, s, Apply(tm, s, st));
      case OpenPoll(w, pick) => OpenKeeps(tm, s, w, pick);
      case CommitPoll(w) => CommitKeeps(tm, s, w);
      case AbortPoll(w) => AbortKeeps(tm, s, w);
      case Create(_, _, _, _, _) => CreateKeeps(tm, s, st);
      case Retry(j) => RetryKeeps(tm, s, j);
      case StrayHeartbeat(j) => StrayKeeps(tm, s, j);
      case Heartbeat(w) => HeartbeatKeeps(tm, s, w);
      case MissedHeartbeat(w) => MissKeeps(tm, s, w);
      case Shutdown(_) => assert false;
      case FinishJob(w, output) => FinishKeeps(tm, s, w, output);
      case FailJob(w, message) => FailKeeps(tm, s, w, message);
      case Crash(w) => CrashKeeps(tm, s, w);
    }
  }

  // ---- Runs ----

  predicate Legal(tm: Timing, s: State, steps: seq<Step>)
    decreases |steps|
  {
    steps == [] || (Enabled(tm, s, steps[0]) && Legal(tm, Apply(tm, s, steps[0]), steps[1..]))
  }

  function Run(tm: Timing, s: State, steps: seq<Step>): State
    requires Legal(tm, s, steps)
    decreases |steps|
  {
    if steps == [] then s else Run(tm, Apply(tm, s, steps[0]), steps[1..])
  }

  lemma {:induction false} RunKeeps(tm: Timing, s: State, steps: seq<Step>)
    requires Safe(tm) && Inv(tm, s) && Legal(tm, s, steps)
    ensures Inv(tm, Run(tm, s, steps))
    decreases |steps|
  {
    if steps != [] {
      StepKeeps(tm, s, steps[0]);
      RunKeeps(tm, Apply(tm, s, steps[0]), steps[1..]);
    }
  }

  lemma InitialInv(tm: Timing, s: State)
    requires Initial(s)
    ensures Inv(tm, s)
  {
  }
}
