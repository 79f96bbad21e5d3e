/** What reviews and publish requests answer and write, told by the rows they
    find and leave. */
module ReviewColumns {
  import opened Domain
  import opened ArtifactService
  import opened RequestColumns

  /** The row under a verdict; nothing else of it changes. */
  function Judged(a: Artifact, verdict: ArtifactStatus, comment: string): Artifact {
    Artifact(a.session, a.job, a.kind, a.title, verdict, Some(verdict), comment, a.publishedAt)
  }

  /** Every other artifact of the session is approved. */
  predicate OthersApproved(t: Tables, aid: Id)
    requires aid in t.artifacts
  {
    forall b :: b in t.artifacts && b != aid && t.artifacts[b].session == t.artifacts[aid].session ==>
      t.artifacts[b].status == ArtifactApproved
  }

  lemma LeftAfter(t: Tables, aid: Id, reviewer: Id, comment: string)
    requires aid in t.artifacts
    ensures Unapproved(Reviewed(t, aid, ArtifactApproved, reviewer, comment), t.artifacts[aid].session) == {}
            <==> OthersApproved(t, aid)
  {
    var after := Reviewed(t, aid, ArtifactApproved, reviewer, comment);
    var rest := Unapproved(after, t.artifacts[aid].session);
    if !OthersApproved(t, aid) {
      var b :| b in t.artifacts && b != aid && t.artifacts[b].session == t.artifacts[aid].session
               && t.artifacts[b].status != ArtifactApproved;
      assert b in rest;
    }
  }

  /** An approval that is not the last one marks the artifact and logs it. */
  lemma ApprovalColumns(t: Tables, aid: Id, reviewer: Id, comment: string)
    requires aid in t.artifacts && !OthersApproved(t, aid)
    ensures Approve(t, aid, reviewer, comment) ==
            Ok(t.(artifacts := t.artifacts[aid := Judged(t.artifacts[aid], ArtifactApproved, comment)],
                  events := t.events + [ArtifactReviewed(aid, t.artifacts[aid].session, ArtifactApproved, reviewer)]))
  {
    LeftAfter(t, aid, reviewer, comment);
  }

  /** The last approval moves a session under review on to approved, through
      reviewing; an approved one stays; for any other it raises. */
  lemma LastApprovalColumns(t: Tables, aid: Id, reviewer: Id, comment: string)
    requires aid in t.artifacts && OthersApproved(t, aid)
    ensures var r, sid := Approve(t, aid, reviewer, comment), t.artifacts[aid].session;
            var logged := t.events + [ArtifactReviewed(aid, sid, ArtifactApproved, reviewer)];
            var marked := t.(artifacts := t.artifacts[aid := Judged(t.artifacts[aid], ArtifactApproved, comment)]);
            if sid !in t.sessions then r == Raise(marked.(events := logged), ValueError)
            else
              var s := t.sessions[sid];
              if s.status == NeedsReview then
                var moved := s.(status := Approved, trace := s.trace + [Reviewing, Approved]);
                r == Ok(marked.(sessions := t.sessions[sid := moved],
                                events := logged + [SessionMoved(sid, Reviewing), SessionMoved(sid, Approved)]))
              else if s.status == Reviewing || s.status == Approved then
                r == Ok(marked.(sessions := t.sessions[sid := s.(status := Approved, trace := s.trace + [Approved])],
                                events := logged + [SessionMoved(sid, Approved)]))
              else r == Raise(marked.(events := logged), ValueError)
  {
    LeftAfter(t, aid, reviewer, comment);
    var sid := t.artifacts[aid].session;
    if sid in t.sessions && t.sessions[sid].status == NeedsReview {
      var trace := t.sessions[sid].trace;
      assert trace + [Reviewing] + [SessionStatus.Approved] == trace + [Reviewing, SessionStatus.Approved];
    }
  }

  /** An accepted rejection: the artifact is rejected with its comment, one
      pending extraction carries the reason, and one event names the reviewer.
      It is refused exactly when its key is held, with the verdict only flushed. */
  lemma RejectionColumns(t: Tables, aid: Id, reviewer: Id, comment: string, newId: Id, suffix: string, now: Time)
    requires aid in t.artifacts
    ensures var r, a := Reject(t, aid, reviewer, comment, newId, suffix, now), t.artifacts[aid];
            var marked := t.(artifacts := t.artifacts[aid := Judged(a, ArtifactRejected, comment)],
                             events := t.events + [ArtifactReviewed(aid, a.session, ArtifactRejected, reviewer)]);
            if HoldsKey(t.jobs, RetryKey(a.session, suffix)) then r == Raise(marked, IntegrityError)
            else
              var row := Job(RetryKey(a.session, suffix), a.session, ExtractArtifact, Pending, RetryReason(comment),
                             None, None, 0, 0, 3, None, None, None, now);
              r == Ok(marked.(jobs := t.jobs[newId := row]))
  {
    assert HoldsKey(t.jobs, RetryKey(t.artifacts[aid].session, suffix))
      <==> KeyTaken(t.jobs, RetryKey(t.artifacts[aid].session, suffix));
  }

  /** The review endpoint dispatches on the action; an absent artifact is not found. */
  lemma ReviewDispatch(t: Tables, aid: Id, approve: bool, reviewer: Id, comment: string, newId: Id, suffix: string,
                       now: Time)
    ensures aid !in t.artifacts ==>
              ReviewEndpoint(t, aid, approve, reviewer, comment, newId, suffix, now) == Raise(t, NotFound)
    ensures aid in t.artifacts && approve ==>
              ReviewEndpoint(t, aid, approve, reviewer, comment, newId, suffix, now)
              == Approve(t, aid, reviewer, comment)
    ensures aid in t.artifacts && !approve ==>
              ReviewEndpoint(t, aid, approve, reviewer, comment, newId, suffix, now)
              == Reject(t, aid, reviewer, comment, newId, suffix, now)
  {
  }

  /** A publish request: the order of refusals, the job, and the session's move. */
  lemma PublishRequestColumns(t: Tables, aid: Id, newId: Id, now: Time)
    ensures var r := PublishEndpoint(t, aid, newId, now);
            if aid !in t.artifacts then r == Raise(t, NotFound)
            else if t.artifacts[aid].status != ArtifactApproved then r == Raise(t, Forbidden)
            else
              var sid := t.artifacts[aid].session;
              if HoldsKey(t.jobs, PublishKey(sid, aid)) then r == Raise(t, IntegrityError)
              else
                var row := Job(PublishKey(sid, aid), sid, Publish, Pending, PublishOf(aid),
                               None, None, 0, 0, 3, None, None, None, now);
                var queued := t.(jobs := t.jobs[newId := row]);
                if sid in t.sessions && (t.sessions[sid].status == Approved || t.sessions[sid].status == Publishing
                                         || t.sessions[sid].status == PublishFailed)
                then var s := t.sessions[sid];
                     var moved := s.(status := Publishing, trace := s.trace + [Publishing]);
                     r == Ok(queued.(sessions := t.sessions[sid := moved],
                                     events := t.events + [SessionMoved(sid, Publishing)]))
                else r == Raise(queued, ValueError)
  {
    if aid in t.artifacts {
      var sid := t.artifacts[aid].session;
      assert HoldsKey(t.jobs, PublishKey(sid, aid)) <==> KeyTaken(t.jobs, PublishKey(sid, aid));
    }
  }
}
