/**
 The transaction boundary: writes go to a session's own view of the tables, the events of
 registered runs join them at commit, and a session that is never committed leaves nothing.
 */
module UnitsOfWork {
  import opened WorkflowRuns
  import opened Reports
  import opened VisualAudits
  import opened Transactions

  class Database {
    var tables: Tables

    constructor (t: Tables)
      ensures tables == t
    {
      tables := t;
    }
  }

  /** The undrained events of several runs, in registration order. */
  function Undrained(runs: seq<WorkflowRun>): seq<DispatchEvent>
    reads runs
  {
    if runs == [] then [] else Undrained(runs[..|runs| - 1]) + runs[|runs| - 1].events
  }

  lemma UndrainedOne(run: WorkflowRun)
    ensures Undrained([run]) == run.events
  {
    assert [run][..0] == [];
    assert [] + run.events == run.events;
  }

  predicate EachOnce(runs: seq<WorkflowRun>) {
    forall i, j :: 0 <= i < j < |runs| ==> runs[i] != runs[j]
  }

  class UnitOfWork {
    const db: Database
    var work: Tables
    var registered: seq<WorkflowRun>

    constructor Begin(db: Database)
      ensures this.db == db && work == db.tables && registered == []
    {
      this.db := db;
      work := db.tables;
      registered := [];
    }

    /** Compare-and-swap: nothing is written unless the stored version is the expected one. */
    method SaveRun(run: WorkflowRun, expectedVersion: nat) returns (saved: bool)
      modifies this`work
      ensures saved <==> old(work).run.stateVersion == expectedVersion
      ensures work == if saved then old(work).(run := run.Row()) else old(work)
    {
      saved := work.run.stateVersion == expectedVersion;
      if saved {
        work := work.(run := run.Row());
      }
    }

    /** The report has no version: the last save wins. */
    method SaveReport(report: Report)
      modifies this`work
      ensures work == old(work).(report := report.Row())
    {
      work := work.(report := report.Row());
    }

    method AttachPdf(asset: AssetId)
      modifies this`work
      ensures work == old(work).(pdfs := old(work).pdfs + [asset])
    {
      work := work.(pdfs := work.pdfs + [asset]);
    }

    method AddAudit(attempt: VisualAuditAttempt)
      modifies this`work
      ensures work == old(work).(audits := old(work).audits + [attempt.Row()])
    {
      work := work.(audits := work.audits + [attempt.Row()]);
    }

    method Register(run: WorkflowRun)
      modifies this`registered
      ensures registered == old(registered) + [run]
    {
      registered := registered + [run];
    }

    /** Every registered run is drained exactly once; a second call would add nothing. */
    method WriteOutbox()
      requires EachOnce(registered)
      modifies this`work, registered`events
      ensures work == old(work).(outbox := AddEvents(old(work).outbox, old(Undrained(registered))))
      ensures forall run <- registered :: run.events == []
    {
      var runs := registered;
      for i := 0 to |runs|
        invariant registered == runs && EachOnce(runs)
        invariant work == old(work).(outbox := AddEvents(old(work).outbox, old(Undrained(runs[..i]))))
        invariant forall k :: 0 <= k < i ==> runs[k].events == []
        invariant forall k :: i <= k < |runs| ==> runs[k].events == old(runs[k].events)
      {
        var pulled := runs[i].PullEvents();
        ghost var before := old(Undrained(runs[..i]));
        assert runs[..i + 1][..i] == runs[..i];
        assert before + pulled[..0] == before;
        for j := 0 to |pulled|
          modifies this`work
          invariant work == old(work).(outbox := AddEvents(old(work).outbox, before + pulled[..j]))
        {
          ghost var more := before + pulled[..j + 1];
          assert more[..|more| - 1] == before + pulled[..j];
          work := work.(outbox := work.outbox[pulled[j].id := OutboxRow(pulled[j], false)]);
        }
        assert pulled[..|pulled|] == pulled;
      }
      assert runs[..|runs|] == runs;
    }

    /** All or nothing: the session's writes and the drained events become the stored tables together. */
    method Commit()
      requires EachOnce(registered)
      modifies this`work, registered`events, db
      ensures db.tables == old(work).(outbox := AddEvents(old(work).outbox, old(Undrained(registered))))
      ensures forall run <- old(registered) :: run.events == []
    {
      WriteOutbox();
      db.tables := work;
    }
  }
}
