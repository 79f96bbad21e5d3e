/** Artifact review and publication, and the session moves they carry. */
module ArtifactService {
  import opened Domain
  import opened StateMachine
  import opened SessionApi
  import DB = Database

  // ---- Specifications over table values ----

  function TransitionSession(t: Tables, sid: Id, target: SessionStatus): Reply {
    if sid !in t.sessions || !CanTransition(t.sessions[sid].status, target, false) then Raise(t, ValueError)
    else Ok(SetStatus(t, sid, target).(events := t.events + [SessionMoved(sid, target)]))
  }

  /** The verdict on one artifact, and the event that records it. */
  function Reviewed(t: Tables, aid: Id, verdict: ArtifactStatus, reviewer: Id, comment: string): Tables
    requires aid in t.artifacts
  {
    var a := t.artifacts[aid];
    t.(artifacts := t.artifacts[aid := a.(status := verdict, reviewStatus := Some(verdict), comment := comment)],
       events := t.events + [ArtifactReviewed(aid, a.session, verdict, reviewer)])
  }

  function Unapproved(t: Tables, sid: Id): set<Id> {
    set a | a in t.artifacts && t.artifacts[a].session == sid && t.artifacts[a].status != ArtifactApproved
  }

  /** The last approval of a session moves the session too. */
  function Approve(t: Tables, aid: Id, reviewer: Id, comment: string): Reply
    requires aid in t.artifacts
  {
    var sid := t.artifacts[aid].session;
    var reviewed := Reviewed(t, aid, ArtifactApproved, reviewer, comment);
    if Unapproved(reviewed, sid) != {} then Ok(reviewed)
    else if sid in t.sessions && t.sessions[sid].status == NeedsReview then
      TransitionSession(TransitionSession(reviewed, sid, Reviewing).t, sid, Approved)
    else
      TransitionSession(reviewed, sid, Approved)
  }

  /** A rejection makes a new extraction job in the same transaction. */
  function Reject(t: Tables, aid: Id, reviewer: Id, comment: string, newId: Id, suffix: string, now: Time): Reply
    requires aid in t.artifacts
  {
    var sid := t.artifacts[aid].session;
    InsertJob(Reviewed(t, aid, ArtifactRejected, reviewer, comment), newId,
              NewJob(RetryKey(sid, suffix), sid, ExtractArtifact, RetryReason(comment), now))
  }

  function RequestPublish(t: Tables, aid: Id, newId: Id, now: Time): Reply
    requires aid in t.artifacts
  {
    var sid := t.artifacts[aid].session;
    if t.artifacts[aid].status != ArtifactApproved then Raise(t, ValueError)
    else
      // The new row is pending in the unit of work; the session lookup flushes it.
      var r := InsertJob(t, newId, NewJob(PublishKey(sid, aid), sid, Publish, PublishOf(aid), now));
      if r.Raise? then r else TransitionSession(r.t, sid, Publishing)
  }

  function MarkPublished(t: Tables, aid: Id, now: Time): Reply
    requires aid in t.artifacts
  {
    var a := t.artifacts[aid];
    TransitionSession(t.(artifacts := t.artifacts[aid := a.(status := ArtifactPublished, publishedAt := Some(now))]),
                      a.session, Published)
  }

  /** The review endpoint; None for an artifact id that names no row. */
  function ReviewEndpoint(t: Tables, aid: Id, approve: bool, reviewer: Id, comment: string,
                          newId: Id, suffix: string, now: Time): Reply
  {
    if aid !in t.artifacts then Raise(t, NotFound)
    else if approve then Approve(t, aid, reviewer, comment)
    else Reject(t, aid, reviewer, comment, newId, suffix, now)
  }

  function PublishEndpoint(t: Tables, aid: Id, newId: Id, now: Time): Reply {
    if aid !in t.artifacts then Raise(t, NotFound)
    else if t.artifacts[aid].status != ArtifactApproved then Raise(t, Forbidden)
    else RequestPublish(t, aid, newId, now)
  }

  // ---- The service and the endpoints ----

  method MoveSession(db: DB.Database, sid: Id, target: SessionStatus) returns (error: Option<Error>)
    modifies db`sessions, db`events
    ensures Ends(error, TransitionSession(old(db.View()), sid, target))
    ensures db.View() == TransitionSession(old(db.View()), sid, target).t
  {
    if sid !in db.sessions {
      return Some(ValueError);
    }
    var session := db.sessions[sid];
    if !CanTransition(session.status, target, false) {
      return Some(ValueError);
    }
    db.sessions := db.sessions[sid := WithStatus(session, target)];
    db.events := db.events + [SessionMoved(sid, target)];
    error := None;
  }

  method ApproveArtifact(db: DB.Database, aid: Id, reviewer: Id, comment: string) returns (error: Option<Error>)
    requires aid in db.artifacts
    modifies db`artifacts, db`sessions, db`events
    ensures Ends(error, Approve(old(db.View()), aid, reviewer, comment))
    ensures db.View() == Approve(old(db.View()), aid, reviewer, comment).t
  {
    var a := db.artifacts[aid];
    db.artifacts := db.artifacts[aid := a.(status := ArtifactApproved, reviewStatus := Some(ArtifactApproved),
                                           comment := comment)];
    db.events := db.events + [ArtifactReviewed(aid, a.session, ArtifactApproved, reviewer)];
    var remaining := set b | b in db.artifacts && db.artifacts[b].session == a.session
                             && db.artifacts[b].status != ArtifactApproved;
    assert remaining == Unapproved(db.View(), a.session);
    error := None;
    if remaining == {} {
      if a.session in db.sessions && db.sessions[a.session].status == NeedsReview {
        error := MoveSession(db, a.session, Reviewing);
        assert error == None;
      }
      error := MoveSession(db, a.session, Approved);
    }
  }

  method RejectArtifact(db: DB.Database, aid: Id, reviewer: Id, comment: string, newId: Id, suffix: string, now: Time)
    returns (error: Option<Error>)
    requires aid in db.artifacts
    modifies db`artifacts, db`jobs, db`events
    ensures Ends(error, Reject(old(db.View()), aid, reviewer, comment, newId, suffix, now))
    ensures db.View() == Reject(old(db.View()), aid, reviewer, comment, newId, suffix, now).t
  {
    var a := db.artifacts[aid];
    db.artifacts := db.artifacts[aid := a.(status := ArtifactRejected, reviewStatus := Some(ArtifactRejected),
                                           comment := comment)];
    db.events := db.events + [ArtifactReviewed(aid, a.session, ArtifactRejected, reviewer)];
    var key := RetryKey(a.session, suffix);
    if KeyTaken(db.jobs, key) {
      return Some(IntegrityError);
    }
    db.jobs := db.jobs[newId := NewJob(key, a.session, ExtractArtifact, RetryReason(comment), now)];
    error := None;
  }

  method QueuePublish(db: DB.Database, aid: Id, newId: Id, now: Time) returns (error: Option<Error>)
    requires aid in db.artifacts
    modifies db`jobs, db`sessions, db`events
    ensures Ends(error, RequestPublish(old(db.View()), aid, newId, now))
    ensures db.View() == RequestPublish(old(db.View()), aid, newId, now).t
  {
    var a := db.artifacts[aid];
    if a.status != ArtifactApproved {
      return Some(ValueError);
    }
    var key := PublishKey(a.session, aid);
    if KeyTaken(db.jobs, key) {
      return Some(IntegrityError);
    }
    db.jobs := db.jobs[newId := NewJob(key, a.session, Publish, PublishOf(aid), now)];
    error := MoveSession(db, a.session, Publishing);
  }

  method PublishArtifactRow(db: DB.Database, aid: Id, now: Time) returns (error: Option<Error>)
    requires aid in db.artifacts
    modifies db`artifacts, db`sessions, db`events
    ensures Ends(error, MarkPublished(old(db.View()), aid, now))
    ensures db.View() == MarkPublished(old(db.View()), aid, now).t
  {
    var a := db.artifacts[aid];
    db.artifacts := db.artifacts[aid := a.(status := ArtifactPublished, publishedAt := Some(now))];
    error := MoveSession(db, a.session, Published);
  }

  method PatchReview(db: DB.Database, aid: Id, approve: bool, reviewer: Id, comment: string,
                     newId: Id, suffix: string, now: Time)
    returns (error: Option<Error>)
    requires db.Clean()
    modifies db
    ensures Ends(error, ReviewEndpoint(old(db.View()), aid, approve, reviewer, comment, newId, suffix, now))
    ensures db.Clean() && db.files == old(db.files)
    ensures db.committed == Settle(old(db.committed),
                                   ReviewEndpoint(old(db.View()), aid, approve, reviewer, comment, newId, suffix, now))
  {
    if aid !in db.artifacts {
      error := Some(NotFound);
    } else if approve {
      error := ApproveArtifact(db, aid, reviewer, comment);
    } else {
      error := RejectArtifact(db, aid, reviewer, comment, newId, suffix, now);
    }
    db.CloseRequest(error.Some?);
  }

  method PostPublish(db: DB.Database, aid: Id, newId: Id, now: Time) returns (error: Option<Error>)
    requires db.Clean()
    modifies db
    ensures Ends(error, PublishEndpoint(old(db.View()), aid, newId, now))
    ensures db.Clean() && db.files == old(db.files)
    ensures db.committed == Settle(old(db.committed), PublishEndpoint(old(db.View()), aid, newId, now))
  {
    if aid !in db.artifacts {
      error := Some(NotFound);
    } else if db.artifacts[aid].status != ArtifactApproved {
      error := Some(Forbidden);
    } else {
      error := QueuePublish(db, aid, newId, now);
    }
    db.CloseRequest(error.Some?);
  }
}
