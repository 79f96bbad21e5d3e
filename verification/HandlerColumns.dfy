/** What each job handler needs, answers and writes, told by the rows it finds
    and leaves. */
module HandlerColumns {
  import opened Domain
  import opened Agents

  /** The session's only completed job of a type. */
  predicate OnlyCompleted(t: Tables, sid: Id, jobType: JobType, m: Id) {
    && m in t.jobs && t.jobs[m].session == sid && t.jobs[m].jobType == jobType && t.jobs[m].status == Completed
    && forall i :: i in t.jobs && t.jobs[i].session == sid && t.jobs[i].jobType == jobType
                   && t.jobs[i].status == Completed ==>
         i == m
  }

  predicate NoneCompleted(t: Tables, sid: Id, jobType: JobType) {
    forall i :: i in t.jobs && t.jobs[i].session == sid && t.jobs[i].jobType == jobType ==>
      t.jobs[i].status != Completed
  }

  /** The transcription a later stage can read. */
  ghost predicate Readable(t: Tables, sid: Id) {
    exists n :: OnlyCompleted(t, sid, Transcribe, n) && t.jobs[n].output.Some?
  }

  /** Only the job row differs, completed with the output. */
  predicate CompletesWith(t: Tables, after: Tables, j: Id, output: Option<Payload>)
    requires j in t.jobs
  {
    after.jobs == t.jobs[j := t.jobs[j].(status := Completed, output := output)]
  }

  lemma OneRow(t: Tables, sid: Id, jobType: JobType, m: Id)
    requires OnlyCompleted(t, sid, jobType, m)
    ensures CompletedRows(t, sid, jobType) == {m}
  {
  }

  lemma NoRow(t: Tables, sid: Id, jobType: JobType)
    requires NoneCompleted(t, sid, jobType)
    ensures CompletedRows(t, sid, jobType) == {}
  {
  }

  /** The transcript lookup succeeds exactly on one completed transcription with a payload. */
  lemma ReadableIsTranscript(t: Tables, sid: Id)
    ensures HasTranscript(t, sid) <==> Readable(t, sid)
  {
    if HasTranscript(t, sid) {
      var rows := CompletedRows(t, sid, Transcribe);
      var n := TheRow(rows);
      forall i | i in rows
        ensures i == n
      {
        SingletonMember(rows, i, n);
      }
      assert forall i :: i in t.jobs && t.jobs[i].session == sid && t.jobs[i].jobType == Transcribe
                         && t.jobs[i].status == Completed ==>
               i in rows;
      assert OnlyCompleted(t, sid, Transcribe, n) && t.jobs[n].output.Some?;
    }
    if Readable(t, sid) {
      var n :| OnlyCompleted(t, sid, Transcribe, n) && t.jobs[n].output.Some?;
      OneRow(t, sid, Transcribe, n);
    }
  }

  lemma TranscribeColumns(t: Tables, j: Id, p: Provider)
    requires j in t.jobs
    ensures var r, sid := HandleTranscribe(t, j, p), t.jobs[j].session;
            if !(sid in t.sessions && t.sessions[sid].audioKey.Some?) then r == Raise(t, ValueError)
            else if p == ProviderError then r == Raise(t, ProviderFailure)
            else && r.Ok? && CompletesWith(t, r.t, j, Some(Transcript(p.transcript)))
                 && r.t == t.(jobs := r.t.jobs)
  {
  }

  lemma SummarizeColumns(t: Tables, j: Id, p: Provider)
    requires j in t.jobs
    ensures var r := HandleSummarize(t, j, p);
            if !Readable(t, t.jobs[j].session) then r == Raise(t, ValueError)
            else if p == ProviderError then r == Raise(t, ProviderFailure)
            else r.Ok? && CompletesWith(t, r.t, j, p.document) && r.t == t.(jobs := r.t.jobs)
  {
    ReadableIsTranscript(t, t.jobs[j].session);
  }

  // ---- Extraction ----

  /** What an extraction of an artifact of the given kind and title answers and writes. */
  predicate ExtractsAs(t: Tables, j: Id, p: Provider, aid: Id, r: Reply, kind: string, title: string)
    requires j in t.jobs
  {
    var sid := t.jobs[j].session;
    if kind != "meeting_minutes" && kind != "decision_record" && kind != "faq_draft" && kind != "sop_draft" then
      r == Raise(t, ValueError)
    else if p == ProviderError then r == Raise(t, ProviderFailure)
    else
      && r.Ok? && CompletesWith(t, r.t, j, Some(Payload.Extracted(kind, title)))
      && r.t.artifacts == t.artifacts[aid := Artifact(sid, j, kind, title, PendingReview, None, "", None)]
      && r.t.sessions == (if sid in t.sessions
                          then t.sessions[sid := t.sessions[sid].(status := NeedsReview,
                                                                  trace := t.sessions[sid].trace + [NeedsReview])]
                          else t.sessions)
      && r.t == t.(jobs := r.t.jobs, artifacts := r.t.artifacts, sessions := r.t.sessions)
  }

  /** An extraction follows the session's completed summary: its kind and its
      title, each with its default where the field is missing. */
  lemma ExtractFollowsSummary(t: Tables, j: Id, p: Provider, aid: Id, m: Id,
                              kind: Option<string>, title: Option<string>)
    requires j in t.jobs && Readable(t, t.jobs[j].session)
    requires OnlyCompleted(t, t.jobs[j].session, Summarize, m) && t.jobs[m].output == Some(Summary(kind, title))
    ensures ExtractsAs(t, j, p, aid, HandleExtract(t, j, p, aid),
                       if kind.Some? then kind.value else "meeting_minutes",
                       if title.Some? then title.value else "Untitled")
  {
    ReadableIsTranscript(t, t.jobs[j].session);
    OneRow(t, t.jobs[j].session, Summarize, m);
  }

  /** A payload without any of the fields of a summary. */
  predicate Fieldless(output: Option<Payload>) {
    output == None || !output.value.Summary?
  }

  /** Without a completed summary, or with one whose payload is missing or has
      none of the fields, the defaults are used. */
  lemma ExtractDefaults(t: Tables, j: Id, p: Provider, aid: Id)
    requires j in t.jobs && Readable(t, t.jobs[j].session)
    requires NoneCompleted(t, t.jobs[j].session, Summarize)
          || exists m :: OnlyCompleted(t, t.jobs[j].session, Summarize, m) && Fieldless(t.jobs[m].output)
    ensures ExtractsAs(t, j, p, aid, HandleExtract(t, j, p, aid), "meeting_minutes", "Untitled")
  {
    ReadableIsTranscript(t, t.jobs[j].session);
    if NoneCompleted(t, t.jobs[j].session, Summarize) {
      NoRow(t, t.jobs[j].session, Summarize);
    } else {
      var m :| OnlyCompleted(t, t.jobs[j].session, Summarize, m) && Fieldless(t.jobs[m].output);
      OneRow(t, t.jobs[j].session, Summarize, m);
    }
  }

  /** Without a readable transcription, or with two completed summaries, it raises. */
  lemma ExtractRefuses(t: Tables, j: Id, p: Provider, aid: Id)
    requires j in t.jobs
    requires !Readable(t, t.jobs[j].session)
          || exists m, n :: m in CompletedRows(t, t.jobs[j].session, Summarize)
                            && n in CompletedRows(t, t.jobs[j].session, Summarize) && m != n
    ensures HandleExtract(t, j, p, aid) == Raise(t, ValueError)
  {
    ReadableIsTranscript(t, t.jobs[j].session);
    var rows := CompletedRows(t, t.jobs[j].session, Summarize);
    if m, n :| m in rows && n in rows && m != n {
      assert |rows| > 1 by {
        if |rows| <= 1 {
          SingletonMember(rows, m, n);
        }
      }
    }
  }

  // ---- Publication ----

  lemma PublishColumns(t: Tables, j: Id, now: Time)
    requires j in t.jobs
    ensures var r, input := HandlePublish(t, j, now), t.jobs[j].input;
            if !input.PublishOf? then r == Raise(t, ValueError)
            else if input.artifact !in t.artifacts then
              r.Ok? && CompletesWith(t, r.t, j, Some(FeishuDoc(input.artifact))) && r.t == t.(jobs := r.t.jobs)
            else
              var a := t.artifacts[input.artifact];
              var artifacts := t.artifacts[input.artifact := a.(status := ArtifactPublished, publishedAt := Some(now))];
              if a.session in t.sessions
                 && (t.sessions[a.session].status == Publishing || t.sessions[a.session].status == Published)
              then var s := t.sessions[a.session];
                   var moved := s.(status := Published, trace := s.trace + [Published]);
                   && r.Ok? && CompletesWith(t, r.t, j, Some(FeishuDoc(input.artifact)))
                   && r.t == t.(jobs := r.t.jobs, artifacts := artifacts,
                                sessions := t.sessions[a.session := moved],
                                events := t.events + [SessionMoved(a.session, Published)])
              else r == Raise(t.(artifacts := artifacts), ValueError)
  {
  }
}
