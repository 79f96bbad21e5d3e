/** The order in which artifacts are approved does not matter, and only the
    last approval moves the session. */
module ReviewOrder {
  import opened Domain
  import opened StateMachine
  import opened ArtifactService
  import opened Worker

  /** Who approves which artifact, and with what comment. */
  datatype Ballot = Ballot(reviewer: Id -> Id, comment: Id -> string)

  /** One approval request, committed or rolled back. */
  function ApproveRequest(t: Tables, aid: Id, b: Ballot): Tables
    requires aid in t.artifacts
  {
    Settle(t, Approve(t, aid, b.reviewer(aid), b.comment(aid)))
  }

  /** A sequence of approval requests; ids of absent artifacts answer 404. */
  function ApproveAll(t: Tables, order: seq<Id>, b: Ballot): Tables {
    if order == [] then t
    else
      var before := ApproveAll(t, order[..|order| - 1], b);
      var aid := order[|order| - 1];
      if aid in before.artifacts then ApproveRequest(before, aid, b) else before
  }

  function MarkApproved(artifacts: map<Id, Artifact>, done: set<Id>, b: Ballot): map<Id, Artifact> {
    map a | a in artifacts ::
      if a in done
      then artifacts[a].(status := ArtifactApproved, reviewStatus := Some(ArtifactApproved), comment := b.comment(a))
      else artifacts[a]
  }

  /** The session row after its last approval. */
  function ApprovedSession(s: Session): Session {
    if s.status == NeedsReview then WithStatus(WithStatus(s, Reviewing), SessionStatus.Approved)
    else WithStatus(s, SessionStatus.Approved)
  }

  function Elements(order: seq<Id>): set<Id> {
    set a | a in order
  }

  ghost predicate Enumerates(order: seq<Id>, s: set<Id>) {
    && (forall i, k :: 0 <= i < k < |order| ==> order[i] != order[k])
    && (forall a :: a in order <==> a in s)
  }

  /** An approval that is not the last one. */
  lemma ApproveOneMore(t: Tables, before: Tables, sid: Id, aid: Id, next: Id, done: set<Id>, b: Ballot)
    requires before.artifacts == MarkApproved(t.artifacts, done, b)
    requires aid in Unapproved(t, sid) && next in Unapproved(t, sid) && next != aid && next !in done
    ensures ApproveRequest(before, aid, b).sessions == before.sessions
    ensures ApproveRequest(before, aid, b).artifacts == MarkApproved(t.artifacts, done + {aid}, b)
  {
    var after := Reviewed(before, aid, ArtifactApproved, b.reviewer(aid), b.comment(aid));
    assert next in Unapproved(after, sid);
    assert after.artifacts == MarkApproved(t.artifacts, done + {aid}, b);
  }

  /** Before the last approval the artifacts approved so far are marked, and no
      session row has changed. */
  lemma {:induction false} PartialApproval(t: Tables, sid: Id, order: seq<Id>, n: nat, b: Ballot)
    requires Enumerates(order, Unapproved(t, sid)) && n < |order|
    ensures ApproveAll(t, order[..n], b).sessions == t.sessions
    ensures ApproveAll(t, order[..n], b).artifacts == MarkApproved(t.artifacts, Elements(order[..n]), b)
  {
    if n > 0 {
      PartialApproval(t, sid, order, n - 1, b);
      assert order[..n][..n - 1] == order[..n - 1];
      assert order[n - 1] in order && order[n] in order && order[n] !in order[..n - 1];
      var done := Elements(order[..n - 1]);
      assert order[..n] == order[..n - 1] + [order[n - 1]];
      assert Elements(order[..n]) == done + {order[n - 1]};
      ApproveOneMore(t, ApproveAll(t, order[..n - 1], b), sid, order[n - 1], order[n], done, b);
    }
  }

  lemma ApprovalRemoves(t: Tables, aid: Id, reviewer: Id, comment: string)
    requires aid in t.artifacts
    ensures var after, sid := Reviewed(t, aid, ArtifactApproved, reviewer, comment), t.artifacts[aid].session;
            Unapproved(after, sid) == Unapproved(t, sid) - {aid}
  {
    var after, sid := Reviewed(t, aid, ArtifactApproved, reviewer, comment), t.artifacts[aid].session;
    forall a
      ensures a in Unapproved(after, sid) <==> a in Unapproved(t, sid) && a != aid
    {
      assert a != aid ==> (a in after.artifacts <==> a in t.artifacts);
    }
  }

  /** The approval that leaves nothing unapproved moves the session. */
  lemma ApproveLast(t: Tables, aid: Id, reviewer: Id, comment: string)
    requires aid in t.artifacts && t.artifacts[aid].session in t.sessions
    requires Unapproved(t, t.artifacts[aid].session) == {aid}
    requires var status := t.sessions[t.artifacts[aid].session].status; status == NeedsReview || status == Reviewing
    ensures var sid, r := t.artifacts[aid].session, Approve(t, aid, reviewer, comment);
            && r.Ok? && r.t.sessions == t.sessions[sid := ApprovedSession(t.sessions[sid])]
            && r.t.artifacts == Reviewed(t, aid, ArtifactApproved, reviewer, comment).artifacts
  {
    var after := Reviewed(t, aid, ArtifactApproved, reviewer, comment);
    ApprovalRemoves(t, aid, reviewer, comment);
  }

  /** Approving every unapproved artifact of a session under review, in any
      order: the session is approved by the last approval, and the rows end up
      as if all had been approved at once. */
  lemma LastApprovalApproves(t: Tables, sid: Id, order: seq<Id>, b: Ballot)
    requires Enumerates(order, Unapproved(t, sid)) && order != []
    requires sid in t.sessions && (t.sessions[sid].status == NeedsReview || t.sessions[sid].status == Reviewing)
    ensures forall n :: 0 <= n < |order| ==> ApproveAll(t, order[..n], b).sessions == t.sessions
    ensures ApproveAll(t, order, b).sessions == t.sessions[sid := ApprovedSession(t.sessions[sid])]
    ensures ApproveAll(t, order, b).artifacts == MarkApproved(t.artifacts, Unapproved(t, sid), b)
  {
    forall n | 0 <= n < |order|
      ensures ApproveAll(t, order[..n], b).sessions == t.sessions
    {
      PartialApproval(t, sid, order, n, b);
    }
    var n, aid := |order| - 1, order[|order| - 1];
    var before := ApproveAll(t, order[..n], b);
    OneLeft(t, sid, order, b);
    assert before.sessions == t.sessions;
    ApproveLast(before, aid, b.reviewer(aid), b.comment(aid));
  }

  lemma OneLeft(t: Tables, sid: Id, order: seq<Id>, b: Ballot)
    requires Enumerates(order, Unapproved(t, sid)) && order != []
    ensures var before, aid := ApproveAll(t, order[..|order| - 1], b), order[|order| - 1];
            && aid in before.artifacts && before.artifacts[aid].session == sid
            && Unapproved(before, sid) == {aid}
            && Reviewed(before, aid, ArtifactApproved, b.reviewer(aid), b.comment(aid)).artifacts
               == MarkApproved(t.artifacts, Unapproved(t, sid), b)
  {
    var n, aid := |order| - 1, order[|order| - 1];
    PartialApproval(t, sid, order, n, b);
    var before := ApproveAll(t, order[..n], b);
    assert aid in order && aid in Unapproved(t, sid);
    forall a
      ensures a in order[..n] <==> a in Unapproved(t, sid) && a != aid
    {
      assert a in order[..n] <==> a in order && a != aid by {
        assert order == order[..n] + [aid];
      }
    }
    assert before.artifacts == MarkApproved(t.artifacts, Unapproved(t, sid) - {aid}, b);
  }

  /** Two reviewers working through the same artifacts in different orders
      leave the same rows. */
  lemma ApprovalOrderIrrelevant(t: Tables, sid: Id, order1: seq<Id>, order2: seq<Id>, b: Ballot)
    requires Enumerates(order1, Unapproved(t, sid)) && Enumerates(order2, Unapproved(t, sid))
             && Unapproved(t, sid) != {}
    requires sid in t.sessions && (t.sessions[sid].status == NeedsReview || t.sessions[sid].status == Reviewing)
    ensures ApproveAll(t, order1, b).artifacts == ApproveAll(t, order2, b).artifacts
    ensures ApproveAll(t, order1, b).sessions == ApproveAll(t, order2, b).sessions
  {
    var a :| a in Unapproved(t, sid);
    assert a in order1 && a in order2;
    LastApprovalApproves(t, sid, order1, b);
    LastApprovalApproves(t, sid, order2, b);
  }

  /** An approval is refused, changing nothing, exactly when it is the last one
      and the session is neither under review nor approved. */
  lemma ApprovalRefused(t: Tables, aid: Id, b: Ballot)
    requires aid in t.artifacts && t.artifacts[aid].session in t.sessions
    ensures var sid := t.artifacts[aid].session;
            var status := t.sessions[sid].status;
            Approve(t, aid, b.reviewer(aid), b.comment(aid)).Raise? <==>
            && Unapproved(t, sid) <= {aid}
            && status != NeedsReview && status != Reviewing && status != SessionStatus.Approved
    ensures Approve(t, aid, b.reviewer(aid), b.comment(aid)).Raise? ==> ApproveRequest(t, aid, b) == t
  {
    var sid := t.artifacts[aid].session;
    var after := Reviewed(t, aid, ArtifactApproved, b.reviewer(aid), b.comment(aid));
    ApprovalRemoves(t, aid, b.reviewer(aid), b.comment(aid));
  }

  /** While one artifact of a session is unapproved and left alone, no approval
      of others touches the session. */
  lemma {:induction false} UnapprovedHoldsBack(t: Tables, aid: Id, order: seq<Id>, b: Ballot)
    requires aid in t.artifacts && t.artifacts[aid].status != ArtifactApproved && aid !in order
    requires t.artifacts[aid].session in t.sessions
    ensures var after, sid := ApproveAll(t, order, b), t.artifacts[aid].session;
            && aid in after.artifacts && after.artifacts[aid] == t.artifacts[aid]
            && sid in after.sessions && after.sessions[sid] == t.sessions[sid]
  {
    if order != [] {
      var rest, last := order[..|order| - 1], order[|order| - 1];
      UnapprovedHoldsBack(t, aid, rest, b);
      var before := ApproveAll(t, rest, b);
      if last in before.artifacts && before.artifacts[last].session == t.artifacts[aid].session {
        assert aid in Unapproved(Reviewed(before, last, ArtifactApproved, b.reviewer(last), b.comment(last)),
                                 t.artifacts[aid].session);
      }
    }
  }

  /** A rejection succeeds exactly when its key is free; it queues an extraction
      that is due at once, and holds the session back from approval however
      the other artifacts are approved. */
  lemma RejectionHoldsBack(t: Tables, aid: Id, reviewer: Id, comment: string, newId: Id, suffix: string, now: Time,
                           order: seq<Id>, b: Ballot)
    requires aid in t.artifacts && t.artifacts[aid].session in t.sessions && aid !in order
    ensures var sid, r := t.artifacts[aid].session, Reject(t, aid, reviewer, comment, newId, suffix, now);
            && (r.Ok? <==> !KeyTaken(t.jobs, RetryKey(sid, suffix)))
            && (r.Ok? ==>
                  && newId in r.t.jobs && r.t.jobs[newId].session == sid && r.t.jobs[newId].jobType == ExtractArtifact
                  && Claimable(r.t.jobs[newId], now)
                  && sid in ApproveAll(r.t, order, b).sessions
                  && ApproveAll(r.t, order, b).sessions[sid] == t.sessions[sid])
  {
    var r := Reject(t, aid, reviewer, comment, newId, suffix, now);
    if r.Ok? {
      UnapprovedHoldsBack(r.t, aid, order, b);
    }
  }
}
