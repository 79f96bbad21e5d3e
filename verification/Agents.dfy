/** The job handlers the worker dispatches to. Each returns after its own
    commit, or raises with whatever it has flushed still pending. */
module Agents {
  import opened Domain
  import opened Keys
  import opened SessionApi
  import opened ArtifactService
  import DB = Database

  /** What the speech provider or the language model does: raise, or answer.
      A handler reads the part of the answer that is its own; the model's
      document may be null. */
  datatype Provider = ProviderError | ProviderAnswer(transcript: string, document: Option<Payload>)

  const ARTIFACT_KINDS: set<string> := {"meeting_minutes", "decision_record", "faq_draft", "sop_draft"}

  predicate Registered(jobType: JobType) {
    Stage(jobType) || jobType == Publish
  }

  // ---- Specifications over table values ----

  /** What a handler writes on its own row. It never looks at the status it overwrites. */
  function Finish(t: Tables, j: Id, output: Option<Payload>): Tables
    requires j in t.jobs
  {
    t.(jobs := t.jobs[j := t.jobs[j].(status := Completed, output := output)])
  }

  function CompletedRows(t: Tables, sid: Id, jobType: JobType): set<Id> {
    set j | j in t.jobs && t.jobs[j].session == sid && t.jobs[j].jobType == jobType && t.jobs[j].status == Completed
  }

  /** The transcript lookup succeeds: it sees one row, not none and not two,
      and that row has an output. */
  predicate HasTranscript(t: Tables, sid: Id) {
    var rows := CompletedRows(t, sid, Transcribe);
    |rows| == 1 && forall j :: j in rows ==> t.jobs[j].output.Some?
  }

  lemma SingletonMember(rows: set<Id>, a: Id, b: Id)
    requires |rows| == 1 && a in rows && b in rows
    ensures a == b
  {
    assert |rows - {a}| == 0;
    assert rows == {a} + (rows - {a});
  }

  function TheRow(rows: set<Id>): (j: Id)
    requires |rows| == 1
    ensures j in rows
  {
    assert forall a, b :: a in rows && b in rows ==> a == b by {
      forall a, b | a in rows && b in rows ensures a == b { SingletonMember(rows, a, b); }
    }
    var j :| j in rows;
    j
  }

  function SummaryDocument(t: Tables, sid: Id): Option<Payload> {
    var rows := CompletedRows(t, sid, Summarize);
    if |rows| == 1 then t.jobs[TheRow(rows)].output else None
  }

  /** The artifact kind and title asked for, with the defaults for a missing
      summary or a missing field. */
  function KindOf(document: Option<Payload>): string {
    if document.Some? && document.value.Summary? && document.value.kind.Some? then document.value.kind.value
    else "meeting_minutes"
  }

  function TitleOf(document: Option<Payload>): string {
    if document.Some? && document.value.Summary? && document.value.title.Some? then document.value.title.value
    else "Untitled"
  }

  function HandleTranscribe(t: Tables, j: Id, p: Provider): Reply
    requires j in t.jobs
  {
    var sid := t.jobs[j].session;
    if sid !in t.sessions || t.sessions[sid].audioKey == None then Raise(t, ValueError)
    else if p.ProviderError? then Raise(t, ProviderFailure)
    else Ok(Finish(t, j, Some(Transcript(p.transcript))))
  }

  function HandleSummarize(t: Tables, j: Id, p: Provider): Reply
    requires j in t.jobs
  {
    if !HasTranscript(t, t.jobs[j].session) then Raise(t, ValueError)
    else if p.ProviderError? then Raise(t, ProviderFailure)
    else Ok(Finish(t, j, p.document))
  }

  /** The new artifact, the session's status written without consulting the
      transition table, and the job's completion, in one commit. */
  function HandleExtract(t: Tables, j: Id, p: Provider, aid: Id): Reply
    requires j in t.jobs
  {
    var sid := t.jobs[j].session;
    var kind, title := KindOf(SummaryDocument(t, sid)), TitleOf(SummaryDocument(t, sid));
    if !HasTranscript(t, sid) then Raise(t, ValueError)
    else if |CompletedRows(t, sid, Summarize)| > 1 then Raise(t, ValueError)
    else if kind !in ARTIFACT_KINDS then Raise(t, ValueError)
    else if p.ProviderError? then Raise(t, ProviderFailure)
    else
      var row := Artifact(sid, j, kind, title, PendingReview, None, "", None);
      var added := t.(artifacts := t.artifacts[aid := row]);
      var moved := if sid in t.sessions then SetStatus(added, sid, NeedsReview) else added;
      Ok(Finish(moved, j, Some(Extracted(kind, title))))
  }

  /** A missing artifact is passed over; a refused session move raises with
      the artifact's publication flushed. */
  function HandlePublish(t: Tables, j: Id, now: Time): Reply
    requires j in t.jobs
  {
    var input := t.jobs[j].input;
    if !input.PublishOf? then Raise(t, ValueError)
    else if input.artifact !in t.artifacts then Ok(Finish(t, j, Some(FeishuDoc(input.artifact))))
    else
      var r := MarkPublished(t, input.artifact, now);
      if r.Raise? then r else Ok(Finish(r.t, j, Some(FeishuDoc(input.artifact))))
  }

  function Handle(t: Tables, j: Id, p: Provider, aid: Id, now: Time): Reply
    requires j in t.jobs && Registered(t.jobs[j].jobType)
  {
    match t.jobs[j].jobType
    case Transcribe => HandleTranscribe(t, j, p)
    case Summarize => HandleSummarize(t, j, p)
    case ExtractArtifact => HandleExtract(t, j, p, aid)
    case Publish => HandlePublish(t, j, now)
  }

  /** The rows a deletion handler commits. */
  function DeletionDone(t: Tables, d: Id): Tables
    requires d in t.deletions
  {
    var job := t.deletions[d];
    var rows := if job.kind == DeleteArtifactRows
                then map a | a in t.artifacts && t.artifacts[a].session != job.session :: t.artifacts[a]
                else t.artifacts;
    t.(artifacts := rows, deletions := t.deletions[d := job.(status := Completed)])
  }

  /** The audio directory once a deletion handler has done its work on it. */
  function FilesWithout(files: set<FileKey>, job: DeletionJob): set<FileKey> {
    if job.kind == DeleteLocalAudio && job.target.Some? then files - {job.target.value} else files
  }

  // ---- What one handler run changes ----

  /** A handler that returns completes its own job and no other, and inserts
      one artifact, to be reviewed, exactly when it extracts: with the job's id
      and session and of a known kind. */
  lemma HandlerEffect(t: Tables, j: Id, p: Provider, aid: Id, now: Time)
    requires j in t.jobs && Registered(t.jobs[j].jobType) && aid !in t.artifacts
    ensures var r := Handle(t, j, p, aid, now);
            r.Ok? ==>
              && r.t.jobs == t.jobs[j := r.t.jobs[j]] && r.t.jobs[j].status == Completed
              && (t.jobs[j].jobType == ExtractArtifact ==>
                    && r.t.artifacts.Keys == t.artifacts.Keys + {aid}
                    && r.t.artifacts[aid].job == j && r.t.artifacts[aid].session == t.jobs[j].session
                    && r.t.artifacts[aid].kind in ARTIFACT_KINDS && r.t.artifacts[aid].status == PendingReview)
              && (t.jobs[j].jobType != ExtractArtifact ==> r.t.artifacts.Keys == t.artifacts.Keys)
              && (forall a :: a in t.artifacts ==> r.t.artifacts[a].job == t.artifacts[a].job)
  {
  }

  /** A handler that raises has flushed nothing, except a publish handler whose
      session refuses the move: that one has flushed its artifact's publication. */
  lemma RaisingHandlerFlushes(t: Tables, j: Id, p: Provider, aid: Id, now: Time)
    requires j in t.jobs && Registered(t.jobs[j].jobType)
    ensures var r := Handle(t, j, p, aid, now);
            r.Raise? ==>
              && r.t == t.(artifacts := r.t.artifacts)
              && (r.t.artifacts != t.artifacts ==>
                    && t.jobs[j].jobType == Publish && t.jobs[j].input.PublishOf?
                    && var a := t.jobs[j].input.artifact;
                       a in t.artifacts &&
                       r.t.artifacts == t.artifacts[a := t.artifacts[a].(status := ArtifactPublished,
                                                                         publishedAt := Some(now))])
  {
  }

  /** A publish handler that returns publishes its artifact only together with
      the session, and only from publishing or published. */
  lemma PublishTogether(t: Tables, j: Id, p: Provider, aid: Id, now: Time, a: Id)
    requires j in t.jobs && t.jobs[j].jobType == Publish
    requires Handle(t, j, p, aid, now).Ok?
    ensures var after := Handle(t, j, p, aid, now).t;
            a in t.artifacts && t.artifacts[a].status != ArtifactPublished
              && after.artifacts[a].status == ArtifactPublished ==>
              && t.jobs[j].input == PublishOf(a)
              && var sid := t.artifacts[a].session;
                 && sid in t.sessions
                 && (t.sessions[sid].status == SessionStatus.Publishing
                     || t.sessions[sid].status == SessionStatus.Published)
                 && after.sessions[sid].status == SessionStatus.Published
  {
  }

  // ---- The handlers ----

  method RunTranscribe(db: DB.Database, j: Id, p: Provider) returns (error: Option<Error>)
    requires j in db.jobs
    modifies db
    ensures Ends(error, HandleTranscribe(old(db.View()), j, p))
    ensures db.View() == HandleTranscribe(old(db.View()), j, p).t && db.files == old(db.files)
    ensures if error == None then db.Clean() else db.committed == old(db.committed)
  {
    var job := db.jobs[j];
    if job.session !in db.sessions || db.sessions[job.session].audioKey == None {
      return Some(ValueError);
    }
    if p.ProviderError? {
      return Some(ProviderFailure);
    }
    db.jobs := db.jobs[j := job.(output := Some(Transcript(p.transcript)), status := Completed)];
    db.Commit();
    error := None;
  }

  method RunSummarize(db: DB.Database, j: Id, p: Provider) returns (error: Option<Error>)
    requires j in db.jobs
    modifies db
    ensures Ends(error, HandleSummarize(old(db.View()), j, p))
    ensures db.View() == HandleSummarize(old(db.View()), j, p).t && db.files == old(db.files)
    ensures if error == None then db.Clean() else db.committed == old(db.committed)
  {
    var job := db.jobs[j];
    if !HasTranscript(db.View(), job.session) {
      return Some(ValueError);
    }
    if p.ProviderError? {
      return Some(ProviderFailure);
    }
    db.jobs := db.jobs[j := job.(output := p.document, status := Completed)];
    db.Commit();
    error := None;
  }

  method RunExtract(db: DB.Database, j: Id, p: Provider, aid: Id) returns (error: Option<Error>)
    requires j in db.jobs
    modifies db
    ensures Ends(error, HandleExtract(old(db.View()), j, p, aid))
    ensures db.View() == HandleExtract(old(db.View()), j, p, aid).t && db.files == old(db.files)
    ensures if error == None then db.Clean() else db.committed == old(db.committed)
  {
    var job := db.jobs[j];
    var sid := job.session;
    if !HasTranscript(db.View(), sid) || |CompletedRows(db.View(), sid, Summarize)| > 1 {
      return Some(ValueError);
    }
    var document := SummaryDocument(db.View(), sid);
    var kind, title := KindOf(document), TitleOf(document);
    if kind !in ARTIFACT_KINDS {
      return Some(ValueError);
    }
    if p.ProviderError? {
      return Some(ProviderFailure);
    }
    db.artifacts := db.artifacts[aid := Artifact(sid, j, kind, title, PendingReview, None, "", None)];
    if sid in db.sessions {
      db.sessions := db.sessions[sid := WithStatus(db.sessions[sid], NeedsReview)];
    }
    db.jobs := db.jobs[j := job.(output := Some(Extracted(kind, title)), status := Completed)];
    db.Commit();
    error := None;
  }

  method RunPublish(db: DB.Database, j: Id, now: Time) returns (error: Option<Error>)
    requires j in db.jobs
    modifies db
    ensures Ends(error, HandlePublish(old(db.View()), j, now))
    ensures db.View() == HandlePublish(old(db.View()), j, now).t && db.files == old(db.files)
    ensures if error == None then db.Clean() else db.committed == old(db.committed)
  {
    var job := db.jobs[j];
    if !job.input.PublishOf? {
      return Some(ValueError);
    }
    var a := job.input.artifact;
    if a in db.artifacts {
      error := PublishArtifactRow(db, a, now);
      if error.Some? {
        return;
      }
    }
    db.jobs := db.jobs[j := job.(output := Some(FeishuDoc(a)), status := Completed)];
    db.Commit();
    error := None;
  }

  method RunHandler(db: DB.Database, j: Id, p: Provider, aid: Id, now: Time) returns (error: Option<Error>)
    requires j in db.jobs && Registered(db.jobs[j].jobType)
    modifies db
    ensures Ends(error, Handle(old(db.View()), j, p, aid, now))
    ensures db.View() == Handle(old(db.View()), j, p, aid, now).t && db.files == old(db.files)
    ensures if error == None then db.Clean() else db.committed == old(db.committed)
  {
    match db.jobs[j].jobType
    case Transcribe => error := RunTranscribe(db, j, p);
    case Summarize => error := RunSummarize(db, j, p);
    case ExtractArtifact => error := RunExtract(db, j, p, aid);
    case Publish => error := RunPublish(db, j, now);
  }

  /** The three deletion handlers; `removeFails` is the operating system
      refusing to remove an existing audio file. */
  method RunDeletion(db: DB.Database, d: Id, removeFails: bool) returns (failed: bool)
    requires d in db.deletions
    modifies db
    ensures failed <==> removeFails && old(db.deletions[d].kind == DeleteLocalAudio && db.deletions[d].target.Some?
                                           && db.deletions[d].target.value in db.files)
    ensures failed ==> db.View() == old(db.View()) && db.committed == old(db.committed) && db.files == old(db.files)
    ensures !failed ==> db.Clean() && db.View() == DeletionDone(old(db.View()), d)
    ensures !failed ==> db.files == FilesWithout(old(db.files), old(db.deletions[d]))
  {
    var job := db.deletions[d];
    match job.kind {
      case DeleteArtifactRows =>
        db.artifacts := map a | a in db.artifacts && db.artifacts[a].session != job.session :: db.artifacts[a];
      case DeleteLocalAudio =>
        if job.target.Some? && job.target.value in db.files {
          if removeFails {
            return true;
          }
          db.files := db.files - {job.target.value};
        }
      case DeleteFeishuDocs =>
    }
    db.deletions := db.deletions[d := job.(status := Completed)];
    db.Commit();
    failed := false;
  }
}
