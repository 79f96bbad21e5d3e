/** The session endpoints, the retract saga's entry and the audit writer. Each
    endpoint is one transaction; reads of the caller's own rows only. */
module SessionApi {
  import opened Domain
  import opened StateMachine
  import opened Orchestrator
  import DB = Database

  // ---- Specifications over table values ----

  predicate Owned(t: Tables, sid: Id, user: Id) {
    sid in t.sessions && t.sessions[sid].user == user
  }

  function Audited(t: Tables, action: AuditAction, sid: Id, user: Id, now: Time): Tables {
    t.(audit := t.audit + [AuditEntry(action, sid, user, now)])
  }

  function SetStatus(t: Tables, sid: Id, status: SessionStatus): Tables
    requires sid in t.sessions
  {
    t.(sessions := t.sessions[sid := WithStatus(t.sessions[sid], status)])
  }

  /** `hasDevice`: a device was named, or the user's virtual microphone exists. */
  function CreateSession(t: Tables, sid: Id, user: Id, hasDevice: bool): Reply {
    if !hasDevice then Raise(t, BadRequest)
    else Ok(t.(sessions := t.sessions[sid := Session(user, Idle, false, None, None, None, [Idle])]))
  }

  /** Granting and revoking are refused once the session is published or over. */
  predicate ConsentLocked(s: SessionStatus) {
    s == Published || s == Retracted || s == Retracting || s == Cancelled
  }

  function UpdateConsent(t: Tables, sid: Id, user: Id, grant: bool, now: Time): Reply {
    if !Owned(t, sid, user) then Raise(t, NotFound)
    else if ConsentLocked(t.sessions[sid].status) then Raise(t, Conflict)
    else
      var written := t.(sessions := t.sessions[sid := t.sessions[sid].(consent := grant)]);
      Ok(Audited(written, if grant then ConsentGranted else ConsentRevoked, sid, user, now))
  }

  /** `target` is None for a string that names no status. */
  function UpdateStatus(t: Tables, sid: Id, user: Id, target: Option<SessionStatus>, ids: seq<Id>, now: Time): Reply
    requires |ids| == 3
  {
    if !Owned(t, sid, user) then Raise(t, NotFound)
    else if target == None then Raise(t, BadRequest)
    else
      var s := t.sessions[sid];
      if !CanTransition(s.status, target.value, s.consent) then
        Raise(t, if target.value == Capturing && !s.consent then Forbidden else Conflict)
      else
        var written := SetStatus(t, sid, target.value);
        if target.value != Processing then Ok(written)
        else if s.audioKey == None then Raise(written, BadRequest)
        else CreateJobs(written, sid, ids, now)
  }

  function UploadAudio(t: Tables, sid: Id, user: Id, key: FileKey): Reply {
    if !Owned(t, sid, user) then Raise(t, NotFound)
    else Ok(t.(sessions := t.sessions[sid := t.sessions[sid].(audioKey := Some(key))]))
  }

  function CancelSession(t: Tables, sid: Id, user: Id): Reply {
    if !Owned(t, sid, user) then Raise(t, NotFound)
    else if !CanTransition(t.sessions[sid].status, Cancelled, false) then Raise(t, Conflict)
    else Ok(SetStatus(t, sid, Cancelled))
  }

  function NewDeletion(sid: Id, kind: DeletionKind, target: Option<FileKey>, now: Time): DeletionJob {
    DeletionJob(sid, kind, target, Pending, None, None, now)
  }

  /** The tombstone and the three deletion jobs of the saga. */
  function RetractSession(t: Tables, sid: Id, user: Id, ids: seq<Id>, now: Time): Reply
    requires |ids| == 3
  {
    if !Owned(t, sid, user) then Raise(t, ValueError)
    else
      var s := t.sessions[sid];
      if !CanTransition(s.status, Retracting, false) then Raise(t, ValueError)
      else
        var stone := WithStatus(s, Retracting).(deletedAt := Some(now), retractedBy := Some(user));
        Ok(t.(sessions := t.sessions[sid := stone],
              deletions := t.deletions[ids[0] := NewDeletion(sid, DeleteArtifactRows, None, now)]
                                      [ids[1] := NewDeletion(sid, DeleteLocalAudio, s.audioKey, now)]
                                      [ids[2] := NewDeletion(sid, DeleteFeishuDocs, None, now)]))
  }

  function RetractEndpoint(t: Tables, sid: Id, user: Id, ids: seq<Id>, now: Time): Reply
    requires |ids| == 3
  {
    if !Owned(t, sid, user) then Raise(t, NotFound)
    else if t.sessions[sid].status != Published then Raise(t, Forbidden)
    else
      var r := RetractSession(t, sid, user, ids, now);
      if r.Raise? then r else Ok(Audited(r.t, RetractInitiated, sid, user, now))
  }

  // ---- The service and the endpoints ----

  /** Whether a method's end matches a specified reply. */
  predicate Ends(error: Option<Error>, r: Reply) {
    match r
    case Ok(_) => error == None
    case Raise(_, e) => error == Some(e)
  }

  method AuditWrite(db: DB.Database, action: AuditAction, sid: Id, user: Id, now: Time)
    modifies db`audit
    ensures db.View() == Audited(old(db.View()), action, sid, user, now)
  {
    db.audit := db.audit + [AuditEntry(action, sid, user, now)];
  }

  method PostSession(db: DB.Database, sid: Id, user: Id, hasDevice: bool) returns (error: Option<Error>)
    requires db.Clean()
    modifies db
    ensures Ends(error, CreateSession(old(db.View()), sid, user, hasDevice))
    ensures db.Clean() && db.files == old(db.files)
    ensures db.committed == Settle(old(db.committed), CreateSession(old(db.View()), sid, user, hasDevice))
  {
    error := None;
    if !hasDevice {
      error := Some(BadRequest);
    } else {
      db.sessions := db.sessions[sid := Session(user, Idle, false, None, None, None, [Idle])];
    }
    db.CloseRequest(error.Some?);
  }

  method PatchConsent(db: DB.Database, sid: Id, user: Id, grant: bool, now: Time) returns (error: Option<Error>)
    requires db.Clean()
    modifies db
    ensures Ends(error, UpdateConsent(old(db.View()), sid, user, grant, now))
    ensures db.Clean() && db.files == old(db.files)
    ensures db.committed == Settle(old(db.committed), UpdateConsent(old(db.View()), sid, user, grant, now))
  {
    error := None;
    if !Owned(db.View(), sid, user) {
      error := Some(NotFound);
    } else if ConsentLocked(db.sessions[sid].status) {
      error := Some(Conflict);
    } else {
      db.sessions := db.sessions[sid := db.sessions[sid].(consent := grant)];
      AuditWrite(db, if grant then ConsentGranted else ConsentRevoked, sid, user, now);
    }
    db.CloseRequest(error.Some?);
  }

  method PatchStatus(db: DB.Database, sid: Id, user: Id, target: Option<SessionStatus>, ids: seq<Id>, now: Time)
    returns (error: Option<Error>)
    requires db.Clean() && |ids| == 3
    modifies db
    ensures Ends(error, UpdateStatus(old(db.View()), sid, user, target, ids, now))
    ensures db.Clean() && db.files == old(db.files)
    ensures db.committed == Settle(old(db.committed), UpdateStatus(old(db.View()), sid, user, target, ids, now))
  {
    error := WriteStatus(db, sid, user, target, ids, now);
    db.CloseRequest(error.Some?);
  }

  /** The body of the status endpoint: what it has flushed when it ends. */
  method WriteStatus(db: DB.Database, sid: Id, user: Id, target: Option<SessionStatus>, ids: seq<Id>, now: Time)
    returns (error: Option<Error>)
    requires |ids| == 3
    modifies db`sessions, db`jobs, db`events
    ensures Ends(error, UpdateStatus(old(db.View()), sid, user, target, ids, now))
    ensures db.View() == UpdateStatus(old(db.View()), sid, user, target, ids, now).t
  {
    if !Owned(db.View(), sid, user) {
      return Some(NotFound);
    }
    if target == None {
      return Some(BadRequest);
    }
    var s := db.sessions[sid];
    if !CanTransition(s.status, target.value, s.consent) {
      return Some(if target.value == Capturing && !s.consent then Forbidden else Conflict);
    }
    db.sessions := db.sessions[sid := WithStatus(s, target.value)];
    if target.value == Processing {
      if s.audioKey == None {
        return Some(BadRequest);
      }
      var created := CreateJobsForSession(db, sid, ids, now);
      if !created {
        return Some(IntegrityError);
      }
    }
    error := None;
  }

  /** The file is saved before the row is written, outside any transaction. */
  method PostAudio(db: DB.Database, sid: Id, user: Id, key: FileKey) returns (error: Option<Error>)
    requires db.Clean()
    modifies db
    ensures Ends(error, UploadAudio(old(db.View()), sid, user, key))
    ensures db.Clean()
    ensures db.committed == Settle(old(db.committed), UploadAudio(old(db.View()), sid, user, key))
    ensures db.files == if error == None then old(db.files) + {key} else old(db.files)
  {
    error := None;
    if !Owned(db.View(), sid, user) {
      error := Some(NotFound);
    } else {
      db.files := db.files + {key};
      db.sessions := db.sessions[sid := db.sessions[sid].(audioKey := Some(key))];
    }
    db.CloseRequest(error.Some?);
  }

  method PostCancel(db: DB.Database, sid: Id, user: Id) returns (error: Option<Error>)
    requires db.Clean()
    modifies db
    ensures Ends(error, CancelSession(old(db.View()), sid, user))
    ensures db.Clean() && db.files == old(db.files)
    ensures db.committed == Settle(old(db.committed), CancelSession(old(db.View()), sid, user))
  {
    error := None;
    if !Owned(db.View(), sid, user) {
      error := Some(NotFound);
    } else if !CanTransition(db.sessions[sid].status, Cancelled, false) {
      error := Some(Conflict);
    } else {
      db.sessions := db.sessions[sid := WithStatus(db.sessions[sid], Cancelled)];
    }
    db.CloseRequest(error.Some?);
  }

  method StartRetraction(db: DB.Database, sid: Id, user: Id, ids: seq<Id>, now: Time) returns (error: Option<Error>)
    requires |ids| == 3
    modifies db`sessions, db`deletions
    ensures Ends(error, RetractSession(old(db.View()), sid, user, ids, now))
    ensures db.View() == RetractSession(old(db.View()), sid, user, ids, now).t
  {
    if !Owned(db.View(), sid, user) {
      return Some(ValueError);
    }
    var s := db.sessions[sid];
    if !CanTransition(s.status, Retracting, false) {
      return Some(ValueError);
    }
    db.sessions := db.sessions[sid := WithStatus(s, Retracting).(deletedAt := Some(now), retractedBy := Some(user))];
    var saga := [NewDeletion(sid, DeleteArtifactRows, None, now),
                 NewDeletion(sid, DeleteLocalAudio, s.audioKey, now),
                 NewDeletion(sid, DeleteFeishuDocs, None, now)];
    ghost var tombstoned := db.sessions;
    ghost var d0: map<Id, DeletionJob> := db.deletions;
    ghost var d1: map<Id, DeletionJob> := d0[ids[0] := saga[0]];
    ghost var d2: map<Id, DeletionJob> := d1[ids[1] := saga[1]];
    ghost var d3: map<Id, DeletionJob> := d2[ids[2] := saga[2]];
    var i := 0;
    while i < 3
      invariant 0 <= i <= 3 && db.sessions == tombstoned
      invariant db.deletions == [d0, d1, d2, d3][i]
    {
      db.deletions := db.deletions[ids[i] := saga[i]];
      i := i + 1;
    }
    error := None;
  }

  method PostRetract(db: DB.Database, sid: Id, user: Id, ids: seq<Id>, now: Time) returns (error: Option<Error>)
    requires db.Clean() && |ids| == 3
    modifies db
    ensures Ends(error, RetractEndpoint(old(db.View()), sid, user, ids, now))
    ensures db.Clean() && db.files == old(db.files)
    ensures db.committed == Settle(old(db.committed), RetractEndpoint(old(db.View()), sid, user, ids, now))
  {
    error := None;
    if !Owned(db.View(), sid, user) {
      error := Some(NotFound);
    } else if db.sessions[sid].status != Published {
      error := Some(Forbidden);
    } else {
      error := StartRetraction(db, sid, user, ids, now);
      if error == None {
        AuditWrite(db, RetractInitiated, sid, user, now);
      }
    }
    db.CloseRequest(error.Some?);
  }
}
