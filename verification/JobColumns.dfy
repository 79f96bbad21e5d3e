/** What the orchestrator and the worker write on job and deletion rows, column
    by column. */
module JobColumns {
  import opened Domain
  import opened Keys
  import opened Orchestrator
  import opened Agents
  import opened Worker

  // ---- Keys ----

  /** The strings of the unique column. */
  lemma KeyStrings(s: Id, a: Id, suffix: string, text: Id -> string)
    ensures Render(PipelineKey(s, Transcribe), text) == text(s) + ":transcribe"
    ensures Render(PipelineKey(s, Summarize), text) == text(s) + ":summarize"
    ensures Render(PipelineKey(s, ExtractArtifact), text) == text(s) + ":extract_artifact"
    ensures Render(RetryKey(s, suffix), text) == text(s) + (":extract_artifact:retry-" + suffix)
    ensures Render(PublishKey(s, a), text) == text(s) + (":publish:" + text(a))
  {
  }

  // ---- The orchestrator ----

  /** A transition's row: the time stamp of its kind, an output or an error only
      where one is given, and for a failure the retry schedule. */
  lemma TransitionColumns(job: Job, output: Option<Payload>, error: Option<string>, now: Time)
    ensures MoveJob(job, Pending, output, error, now) == job.(status := Pending)
    ensures MoveJob(job, Running, output, error, now) == job.(status := Running, startedAt := Some(now))
    ensures var after := MoveJob(job, Completed, output, error, now);
            && after.status == Completed && after.completedAt == Some(now)
            && (output.Some? ==> after.output == output) && (output == None ==> after.output == job.output)
            && after == job.(status := Completed, completedAt := after.completedAt, output := after.output)
    ensures var after := MoveJob(job, Failed, output, error, now);
            && after.status == Failed
            && (error.Some? ==> after.error == error) && (error == None ==> after.error == job.error)
            && (job.retryCount < job.maxRetries ==>
                  after.nextRunAt == Some(now) && after.retryCount == job.retryCount + 1)
            && (job.maxRetries <= job.retryCount ==> after.nextRunAt == None && after.retryCount == job.retryCount)
            && after == job.(status := Failed, error := after.error, nextRunAt := after.nextRunAt,
                             retryCount := after.retryCount)
  {
  }

  /** A transition writes its row, logs the move, and only on completing a
      transcription or a summary makes the next stage's job, if its key is free. */
  lemma TransitionRows(t: Tables, j: Id, to: JobStatus, output: Option<Payload>, error: Option<string>,
                       newId: Id, now: Time)
    requires j in t.jobs && newId !in t.jobs
    ensures var after, job := TransitionJob(t, j, to, output, error, newId, now), t.jobs[j];
            var next := if job.jobType == Transcribe then Summarize else ExtractArtifact;
            var chains := && to == Completed && (job.jobType == Transcribe || job.jobType == Summarize)
                          && forall k :: k in t.jobs ==> t.jobs[k].key != PipelineKey(job.session, next);
            && after.jobs.Keys == (if chains then t.jobs.Keys + {newId} else t.jobs.Keys)
            && (forall k :: k in t.jobs && k != j ==> after.jobs[k] == t.jobs[k])
            && after.jobs[j] == MoveJob(job, to, output, error, now)
            && (chains ==> after.jobs[newId] == Job(PipelineKey(job.session, next), job.session, next, Pending, NoInput,
                                                    None, None, 0, 0, 3, None, None, None, now))
            && after.events == t.events + [JobMoved(j, job.status, to)] + (if chains then [JobCreated(newId)] else [])
            && after == t.(jobs := after.jobs, events := after.events)
  {
    var job := t.jobs[j];
    var moved := t.jobs[j := MoveJob(job, to, output, error, now)];
    assert forall key :: KeyTaken(moved, key) <==> KeyTaken(t.jobs, key) by {
      forall key
        ensures KeyTaken(moved, key) <==> KeyTaken(t.jobs, key)
      {
        assert forall k :: k in t.jobs ==> k in moved && moved[k].key == t.jobs[k].key;
      }
    }
  }

  // ---- The worker ----

  /** Marking a claimed row, a heartbeat on a row, and a failure recorded by the worker. */
  lemma WorkerColumns(job: Job, message: string, now: Time)
    ensures Worker.Start(job, now) == job.(status := Running, startedAt := Some(now))
    ensures Beat(job, now) == if job.status == Running then job.(startedAt := Some(now)) else job
    ensures job.status != Running ==> FailByWorker(job, message, now) == job
    ensures job.status == Running && job.retryCount < job.maxRetries ==>
              FailByWorker(job, message, now)
              == job.(status := Failed, error := Some(message), nextRunAt := Some(now),
                      retryCount := job.retryCount + 1)
    ensures job.status == Running && job.maxRetries <= job.retryCount ==>
              FailByWorker(job, message, now) == job.(status := Failed, error := Some(message))
  {
  }

  /** A job of a type nobody handles fails, whatever its status, and is never completed. */
  lemma UnknownTypeColumns(t: Tables, j: Id, e: Surroundings, now: Time)
    requires j in t.jobs && t.jobs[j].jobType.OtherType?
    ensures var x := Execute(t, j, e, now);
            && x.committed == x.pending
            && x.committed == t.(jobs := t.jobs[j := t.jobs[j].(status := Failed, completedAt := Some(now),
                                                                error := Some(e.message))])
  {
  }

  /** A handler that raises: the failure is committed on the job row alone, and
      what the handler flushed stays pending beside it. */
  lemma RaisedColumns(t: Tables, j: Id, e: Surroundings, now: Time)
    requires j in t.jobs && !t.jobs[j].jobType.OtherType? && Handle(t, j, e.provider, e.artifact, now).Raise?
    ensures var x, job := Execute(t, j, e, now), t.jobs[j];
            var row := if job.status != Running then job
                       else if job.retryCount < job.maxRetries
                       then job.(status := Failed, error := Some(e.message), nextRunAt := Some(now),
                                 retryCount := job.retryCount + 1)
                       else job.(status := Failed, error := Some(e.message));
            && x.committed == t.(jobs := t.jobs[j := row])
            && x.pending == x.committed.(artifacts := Handle(t, j, e.provider, e.artifact, now).t.artifacts)
  {
    RaisingHandlerFlushes(t, j, e.provider, e.artifact, now);
  }

  /** A handler that returns: what it wrote is committed, nothing is pending. */
  lemma ReturnedColumns(t: Tables, j: Id, e: Surroundings, now: Time)
    requires j in t.jobs && !t.jobs[j].jobType.OtherType? && Handle(t, j, e.provider, e.artifact, now).Ok?
    ensures var x := Execute(t, j, e, now);
            x.committed == x.pending == Handle(t, j, e.provider, e.artifact, now).t
  {
  }

  /** Every known type has its handler. */
  lemma Dispatch(t: Tables, j: Id, p: Provider, aid: Id, now: Time)
    requires j in t.jobs && !t.jobs[j].jobType.OtherType?
    ensures t.jobs[j].jobType == Transcribe ==> Handle(t, j, p, aid, now) == HandleTranscribe(t, j, p)
    ensures t.jobs[j].jobType == Summarize ==> Handle(t, j, p, aid, now) == HandleSummarize(t, j, p)
    ensures t.jobs[j].jobType == ExtractArtifact ==> Handle(t, j, p, aid, now) == HandleExtract(t, j, p, aid)
    ensures t.jobs[j].jobType == Publish ==> Handle(t, j, p, aid, now) == HandlePublish(t, j, now)
  {
  }

  // ---- Deletion jobs ----

  /** A deletion that commits removes the session's artifacts if it is of that
      kind, completes its own row, and writes nothing else. */
  lemma DeletionColumns(t: Tables, d: Id)
    requires d in t.deletions
    ensures var after, job := DeletionDone(t, d), t.deletions[d];
            && after.deletions == t.deletions[d := job.(status := Completed)]
            && (forall a :: a in after.artifacts <==>
                  a in t.artifacts && !(job.kind == DeleteArtifactRows && t.artifacts[a].session == job.session))
            && (forall a :: a in after.artifacts ==> after.artifacts[a] == t.artifacts[a])
            && after == t.(artifacts := after.artifacts, deletions := after.deletions)
  {
  }

  /** Only an audio deletion with a file name touches the directory, and only that file. */
  lemma RemovalColumns(files: set<FileKey>, job: DeletionJob, key: FileKey)
    ensures key in FilesWithout(files, job) <==>
            key in files && !(job.kind == DeleteLocalAudio && job.target == Some(key))
  {
  }

  /** A refused removal fails its own row and writes nothing else. */
  lemma RefusalColumns(t: Tables, d: Id, message: string)
    requires d in t.deletions
    ensures DeletionFailed(t, d, message)
         == t.(deletions := t.deletions[d := t.deletions[d].(status := Failed, error := Some(message))])
  {
  }
}
