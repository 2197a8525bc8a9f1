/** Every statement of the repository keeps the tables in order and only adds rows. */
module Statements {
  import opened Store
  import opened Forks

  lemma ExtendsComposes(a: Db, b: Db, c: Db)
    requires Extends(a, b) && Extends(b, c)
    ensures Extends(a, c)
  {
    forall i | 0 <= i < |a.messages| ensures SameCell(a.messages[i], c.messages[i]) {
      assert SameCell(a.messages[i], b.messages[i]) && SameCell(b.messages[i], c.messages[i]);
    }
  }

  /** A statement that updates rows of runs or the open parts of cells, and adds no row. */
  ghost predicate Updates(db: Db, later: Db) {
    && later.threads == db.threads && |later.runs| == |db.runs| && |later.messages| == |db.messages|
    && (forall r :: 0 <= r < |db.runs| ==> later.runs[r].thread == db.runs[r].thread)
    && (forall i :: 0 <= i < |db.messages| ==> SameCell(db.messages[i], later.messages[i]))
    && (forall c :: c in db.citations ==> c in later.citations && later.citations[c] == db.citations[c])
  }

  lemma UpdatesKeepTables(db: Db, later: Db)
    requires TablesOk(db) && Updates(db, later)
    ensures TablesOk(later) && Extends(db, later)
  {
    assert ThreadsOk(later);
    forall t | 0 <= t < |later.threads| ensures Base(later, t) == Base(db, t) {
      if db.threads[t].fork.Some? {
        assert SameCell(db.messages[db.threads[t].fork.value.point], later.messages[db.threads[t].fork.value.point]);
      }
    }
    forall i | 0 <= i < |later.messages|
      ensures var m := later.messages[i];
              m.thread < |later.threads| && m.run < |later.runs|
              && Base(later, m.thread) < m.seqNo <= later.threads[m.thread].lastSeq
    {
      assert SameCell(db.messages[i], later.messages[i]);
    }
    forall i, j | 0 <= i < j < |later.messages| && later.messages[i].thread == later.messages[j].thread
      ensures later.messages[i].seqNo < later.messages[j].seqNo
    {
      assert SameCell(db.messages[i], later.messages[i]) && SameCell(db.messages[j], later.messages[j]);
    }
  }

  lemma UpdatesFollow(db: Db, later: Db)
    requires TablesOk(db) && Updates(db, later)
    ensures Follows(db, later)
  {
    UpdatesKeepTables(db, later);
  }

  lemma NothingFollows(db: Db)
    requires TablesOk(db)
    ensures Follows(db, db)
  {
    UpdatesFollow(db, db);
  }

  lemma TransitionFollows(db: Db, r: RunId, from: Status, to: Status, ended: bool, now: int)
    requires TablesOk(db) && r < |db.runs|
    ensures Follows(db, TryTransition(db, r, from, to, ended, now))
  {
    UpdatesFollow(db, TryTransition(db, r, from, to, ended, now));
  }

  lemma StatusFollows(db: Db, r: RunId, to: Status, ended: bool, now: int)
    requires TablesOk(db) && r < |db.runs| && SetRunStatus(db, r, to, ended, now).Some?
    ensures Follows(db, SetRunStatus(db, r, to, ended, now).value)
  {
    UpdatesFollow(db, SetRunStatus(db, r, to, ended, now).value);
  }

  lemma ApprovalFollows(db: Db, r: RunId, state: Approval)
    requires TablesOk(db)
    ensures Follows(db, SetPendingApproval(db, r, state))
  {
    UpdatesFollow(db, SetPendingApproval(db, r, state));
  }

  lemma OrphansFollow(db: Db, r: RunId, marker: string)
    requires TablesOk(db)
    ensures Follows(db, ResolveOrphans(db, r, marker))
  {
    UpdatesFollow(db, ResolveOrphans(db, r, marker));
  }

  lemma PartialFollows(db: Db, r: RunId, rejected: set<string>, marker: string)
    requires TablesOk(db)
    ensures Follows(db, MarkPartialApproval(db, r, rejected, marker))
  {
    UpdatesFollow(db, MarkPartialApproval(db, r, rejected, marker));
  }

  lemma ResultFollows(db: Db, r: RunId, callId: string, result: string)
    requires TablesOk(db)
    ensures Follows(db, SetToolResult(db, r, callId, result))
  {
    UpdatesFollow(db, SetToolResult(db, r, callId, result));
  }

  lemma EventsFollow(db: Db, r: RunId, seqNo: nat, name: EventName, expired: set<RunId>)
    requires TablesOk(db)
    ensures Follows(db, AppendEvent(db, r, seqNo, name))
    ensures Follows(db, GcEvents(db, expired))
  {
    UpdatesFollow(db, AppendEvent(db, r, seqNo, name));
    UpdatesFollow(db, GcEvents(db, expired));
  }

  lemma FreezeFollows(db: Db, c: CitationId, snapshot: string)
    requires TablesOk(db)
    ensures Follows(db, FreezeCitation(db, c, snapshot))
  {
    UpdatesFollow(db, FreezeCitation(db, c, snapshot));
  }

  lemma SweepFollows(db: Db, from: Status, stale: set<RunId>, marker: string, alive: set<RunId>, now: int)
    requires TablesOk(db)
    ensures Follows(db, Sweep(db, from, stale, marker, now))
    ensures Follows(db, Heartbeat(db, alive, now))
  {
    UpdatesFollow(db, Sweep(db, from, stale, marker, now));
    UpdatesFollow(db, Heartbeat(db, alive, now));
  }

  lemma CreateThreadKeeps(db: Db)
    requires TablesOk(db)
    ensures Follows(db, CreateThread(db))
  {
    GrowsFollow(db, CreateThread(db));
  }

  lemma NextSeqKeeps(db: Db, t: ThreadId)
    requires TablesOk(db) && t < |db.threads|
    ensures Follows(db, NextSeq(db, t))
  {
    GrowsFollow(db, NextSeq(db, t));
  }

  lemma OpenRunKeeps(db: Db, t: ThreadId, now: int)
    requires TablesOk(db) && t < |db.threads| && OpenRun(db, t, now).Some?
    ensures Follows(db, OpenRun(db, t, now).value)
  {
    GrowsFollow(db, OpenRun(db, t, now).value);
  }

  lemma RowAppended(db: Db, m: Message)
    requires TablesOk(db) && m.thread < |db.threads| && m.run < |db.runs|
    requires Base(db, m.thread) < m.seqNo <= db.threads[m.thread].lastSeq
    requires forall i :: 0 <= i < |db.messages| && db.messages[i].thread == m.thread ==> db.messages[i].seqNo < m.seqNo
    ensures var later := db.(messages := db.messages + [m]); TablesOk(later) && Extends(db, later)
  {
    var later := db.(messages := db.messages + [m]);
    assert forall i :: 0 <= i < |db.messages| ==> later.messages[i] == db.messages[i];
    assert ThreadsOk(later);
    assert forall u :: 0 <= u < |db.threads| ==> Base(later, u) == Base(db, u);
  }

  /** An insert takes a number above every number the thread has used, so it goes last in its history. */
  lemma AddMessageKeeps(db: Db, t: ThreadId, r: RunId, role: Role, content: string, callId: Option<string>,
                        cites: set<CitationId>)
    requires TablesOk(db) && t < |db.threads| && r < |db.runs|
    ensures Follows(db, AddMessage(db, t, r, role, content, callId, cites))
  {
    var drawn := NextSeq(db, t);
    NextSeqKeeps(db, t);
    RowAppended(drawn, Message(t, r, drawn.threads[t].lastSeq, role, content, callId, None, None, cites));
    ExtendsComposes(db, drawn, AddMessage(db, t, r, role, content, callId, cites));
  }

  lemma CommitKeeps(db: Db, t: ThreadId, r: RunId, content: string, cites: set<CitationId>, now: int)
    requires TablesOk(db) && t < |db.threads| && r < |db.runs| && CommitAnswer(db, t, r, content, cites, now).Committed?
    ensures Follows(db, CommitAnswer(db, t, r, content, cites, now).db)
  {
    var moved := TryTransition(db, r, Running, Completed, true, now);
    UpdatesKeepTables(db, moved);
    AddMessageKeeps(moved, t, r, Agent, content, None, cites);
    ExtendsComposes(db, moved, CommitAnswer(db, t, r, content, cites, now).db);
  }

  // ---- what the two inserts store ----------------------------------------

  /** The new row with every column, under the number above the thread's last one; nothing else is
  touched but the counter. */
  lemma AddMessageStores(db: Db, t: ThreadId, r: RunId, role: Role, content: string, callId: Option<string>,
                         cites: set<CitationId>)
    requires t < |db.threads|
    ensures var later, q := AddMessage(db, t, r, role, content, callId, cites), db.threads[t].lastSeq + 1;
            && later.threads == db.threads[t := db.threads[t].(lastSeq := q)]
            && |later.messages| == |db.messages| + 1 && later.messages[..|db.messages|] == db.messages
            && later.messages[|db.messages|] == Message(t, r, q, role, content, callId, None, None, cites)
            && later.runs == db.runs && later.citations == db.citations && later.events == db.events
  {
  }

  /** A commit happens exactly when the run is running and every cited id is stored. It completes the
  run and stores the answer with its text and a link for each cited id, and touches nothing else. */
  lemma CommitStores(db: Db, t: ThreadId, r: RunId, content: string, cites: set<CitationId>, now: int)
    requires t < |db.threads| && r < |db.runs|
    ensures var out, q := CommitAnswer(db, t, r, content, cites, now), db.threads[t].lastSeq + 1;
            && (out.Committed? <==> db.runs[r].status.Running? && forall c :: c in cites ==> c in db.citations)
            && (out.NotRunning? <==> !db.runs[r].status.Running?)
            && (out.Committed? ==>
                  && out.db.runs == db.runs[r := db.runs[r].(status := Completed, endedAt := Some(now))]
                  && out.db.threads == db.threads[t := db.threads[t].(lastSeq := q)]
                  && |out.db.messages| == |db.messages| + 1 && out.db.messages[..|db.messages|] == db.messages
                  && out.db.messages[|db.messages|] == Message(t, r, q, Agent, content, None, None, None, cites)
                  && out.db.citations == db.citations && out.db.events == db.events)
  {
  }
}
