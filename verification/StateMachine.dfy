/** The session state machine: its transition table and the guard over it. */
module StateMachine {
  import opened Domain

  function Successors(s: SessionStatus): set<SessionStatus> {
    match s
    case Idle => {Capturing, Cancelled}
    case Capturing => {Paused, Processing, Cancelled}
    case Paused => {Capturing, Cancelled}
    case Processing => {NeedsReview, ProcessingFailed}
    case ProcessingFailed => {Processing}
    case NeedsReview => {Reviewing}
    case Reviewing => {Approved}
    case Approved => {Publishing}
    case Publishing => {Published, PublishFailed}
    case PublishFailed => {Publishing}
    case Published => {Retracting}
    case Retracting => {Retracted}
    case Retracted => {}
    case Cancelled => {}
  }

  predicate Terminal(s: SessionStatus) {
    s == Cancelled || s == Retracted
  }

  /** A status may be written over itself unless it is terminal; entering
      capturing needs consent; everything else follows the table. */
  predicate CanTransition(current: SessionStatus, target: SessionStatus, consent: bool) {
    if current == target then !Terminal(current)
    else (target == Capturing ==> consent) && target in Successors(current)
  }

  /** The milestones every published session has passed, in order. */
  const MILESTONES: seq<SessionStatus> :=
    [Idle, Capturing, Processing, NeedsReview, Reviewing, Approved, Publishing, Published]

  /** How many milestones a session in a given status must have passed. */
  function Progress(s: SessionStatus): (n: nat)
    ensures 1 <= n <= |MILESTONES|
  {
    match s
    case Idle | Cancelled => 1
    case Capturing | Paused => 2
    case Processing | ProcessingFailed => 3
    case NeedsReview => 4
    case Reviewing => 5
    case Approved => 6
    case Publishing | PublishFailed => 7
    case Published | Retracting | Retracted => 8
  }

  /** Before processing starts a session owns no jobs, artifacts or deletion jobs. */
  predicate Early(s: SessionStatus) {
    s == Idle || s == Capturing || s == Paused || s == Cancelled
  }

  /** Writing `next` after `current` passes at most the next milestone. */
  predicate Advances(current: SessionStatus, next: SessionStatus) {
    || Progress(next) <= Progress(current)
    || (Progress(next) == Progress(current) + 1 && MILESTONES[Progress(current)] == next)
  }

  lemma TableAdvances(current: SessionStatus, next: SessionStatus)
    requires next in Successors(current)
    ensures Advances(current, next) && current != next
  {
  }

  lemma TableGroups(current: SessionStatus, next: SessionStatus)
    requires next in Successors(current)
    ensures Early(current) != Early(next) <==> current == Capturing && next == Processing
    ensures !Terminal(current)
  {
  }

  /** Every move the guard lets through skips no milestone, and the only move
      that leaves the early group is capturing to processing. */
  lemma GuardedMoves(current: SessionStatus, next: SessionStatus, consent: bool)
    requires CanTransition(current, next, consent)
    ensures Advances(current, next)
    ensures Early(current) != Early(next) <==> current == Capturing && next == Processing
    ensures current != Cancelled && current != Retracted
    ensures next == Capturing && current != Capturing ==> consent
  {
    if current != next {
      TableAdvances(current, next);
      TableGroups(current, next);
    }
  }

  /** `a` is a subsequence of `b`. */
  predicate Subsequence<T(==)>(a: seq<T>, b: seq<T>)
    decreases |b|
  {
    if a == [] then true
    else if b == [] then false
    else if a[|a| - 1] == b[|b| - 1] then Subsequence(a[..|a| - 1], b[..|b| - 1])
    else Subsequence(a, b[..|b| - 1])
  }

  /** Positions of `b` at which the elements of `a` occur in order. */
  predicate Embedding<T(==)>(a: seq<T>, b: seq<T>, f: seq<nat>) {
    && |f| == |a|
    && (forall i :: 0 <= i < |f| ==> f[i] < |b| && a[i] == b[f[i]])
    && (forall i, k :: 0 <= i < k < |f| ==> f[i] < f[k])
  }

  lemma {:induction false} SubsequenceHasEmbedding<T>(a: seq<T>, b: seq<T>) returns (f: seq<nat>)
    requires Subsequence(a, b)
    ensures Embedding(a, b, f)
    decreases |b|
  {
    if a == [] {
      f := [];
    } else if a[|a| - 1] == b[|b| - 1] {
      var g := SubsequenceHasEmbedding(a[..|a| - 1], b[..|b| - 1]);
      f := g + [|b| - 1];
    } else {
      f := SubsequenceHasEmbedding(a, b[..|b| - 1]);
    }
  }

  lemma {:induction false} SubsequenceDropLast<T>(a: seq<T>, b: seq<T>)
    requires a != [] && Subsequence(a, b)
    ensures Subsequence(a[..|a| - 1], b)
    decreases |b|
  {
    var a' := a[..|a| - 1];
    if a' != [] {
      if a[|a| - 1] == b[|b| - 1] {
        if a'[|a'| - 1] == b[|b| - 1] {
          SubsequenceDropLast(a', b[..|b| - 1]);
        }
      } else {
        SubsequenceDropLast(a, b[..|b| - 1]);
        if a'[|a'| - 1] == b[|b| - 1] {
          SubsequenceDropLast(a', b[..|b| - 1]);
        }
      }
    }
  }

  lemma {:induction false} SubsequencePrefix<T>(a: seq<T>, b: seq<T>, n: nat)
    requires n <= |a| && Subsequence(a, b)
    ensures Subsequence(a[..n], b)
    decreases |a| - n
  {
    if n == |a| {
      assert a[..n] == a;
    } else {
      SubsequencePrefix(a, b, n + 1);
      SubsequenceDropLast(a[..n + 1], b);
      assert a[..n + 1][..n] == a[..n];
    }
  }

  lemma SubsequenceGrow<T>(a: seq<T>, b: seq<T>, x: T)
    requires Subsequence(a, b)
    ensures Subsequence(a, b + [x])
    ensures Subsequence(a + [x], b + [x])
  {
    assert (b + [x])[..|b|] == b;
    assert (a + [x])[..|a|] == a;
    if a != [] && a[|a| - 1] == x {
      SubsequenceDropLast(a, b);
    }
  }

  /** The history of a session row: its last entry is the current status, and
      the milestones of that status occur in it in order. */
  predicate TraceOk(s: Session) {
    && s.trace != []
    && s.trace[|s.trace| - 1] == s.status
    && Subsequence(MILESTONES[..Progress(s.status)], s.trace)
  }

  lemma TraceStep(s: Session, next: SessionStatus)
    requires TraceOk(s) && Advances(s.status, next)
    ensures TraceOk(WithStatus(s, next))
  {
    var p, q := Progress(s.status), Progress(next);
    if q <= p {
      SubsequencePrefix(MILESTONES[..p], s.trace, q);
      assert MILESTONES[..p][..q] == MILESTONES[..q];
      SubsequenceGrow(MILESTONES[..q], s.trace, next);
    } else {
      SubsequenceGrow(MILESTONES[..p], s.trace, next);
      assert MILESTONES[..p] + [next] == MILESTONES[..q];
    }
  }
}
