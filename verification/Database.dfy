/** A database session: the tables as the open transaction sees them, the last
    committed tables, and the audio directory, which no rollback restores. */
module Database {
  import opened Domain

  class Database {
    var sessions: map<Id, Session>
    var jobs: map<Id, Job>
    var artifacts: map<Id, Artifact>
    var deletions: map<Id, DeletionJob>
    var events: seq<Event>
    var audit: seq<AuditEntry>
    var files: set<FileKey>
    var committed: Tables

    function View(): Tables
      reads this
    {
      Tables(sessions, jobs, artifacts, deletions, events, audit)
    }

    /** No flushed write is waiting for a commit. */
    predicate Clean()
      reads this
    {
      View() == committed
    }

    constructor ()
      ensures View() == EmptyTables && Clean() && files == {}
    {
      sessions, jobs, artifacts, deletions := map[], map[], map[], map[];
      events, audit := [], [];
      files := {};
      committed := EmptyTables;
    }

    method Commit()
      modifies this
      ensures View() == old(View()) && Clean() && files == old(files)
    {
      committed := View();
    }

    method Rollback()
      modifies this
      ensures committed == old(committed) && Clean() && files == old(files)
    {
      sessions, jobs, artifacts := committed.sessions, committed.jobs, committed.artifacts;
      deletions, events, audit := committed.deletions, committed.events, committed.audit;
    }

    /** The end of a request: commit when the endpoint returned, roll back when
        it raised. */
    method CloseRequest(raised: bool)
      modifies this
      ensures Clean() && files == old(files)
      ensures committed == if raised then old(committed) else old(View())
    {
      if raised {
        Rollback();
      } else {
        Commit();
      }
    }
  }
}
