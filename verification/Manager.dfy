/** The run manager's own code: the pump loop with its last resort, interrupts and maintenance
ticks, each as one call without interference. Module Runs has their interleavings. */
module Manager {
  import opened Store
  import opened Forks
  import opened Statements
  import opened Runs
  import opened Heartbeats
  import opened Repository
  import opened RunNumbers

  /** An event as the generator yields it. */
  datatype Yield = Yield(name: EventName, seqNo: nat)

  function Appended(db: Db, r: RunId, events: seq<Yield>): Db {
    if events == [] then db
    else AppendEvent(Appended(db, r, events[..|events| - 1]), r, events[|events| - 1].seqNo, events[|events| - 1].name)
  }

  lemma {:induction false} AppendedFollows(db: Db, r: RunId, events: seq<Yield>)
    requires TablesOk(db)
    ensures Follows(db, Appended(db, r, events))
    ensures Appended(db, r, events).(events := db.events) == db
  {
    if events == [] {
      NothingFollows(db);
    } else {
      AppendedFollows(db, r, events[..|events| - 1]);
      var before := Appended(db, r, events[..|events| - 1]);
      EventsFollow(before, r, events[|events| - 1].seqNo, events[|events| - 1].name, {});
      ExtendsComposes(db, before, Appended(db, r, events));
    }
  }

  predicate SawTerminal(events: seq<Yield>) {
    exists i :: 0 <= i < |events| && Terminal(events[i].name)
  }

  predicate PausedLast(events: seq<Yield>) {
    events != [] && events[|events| - 1].name.ApprovalRequested?
  }

  /** The last resort: without a terminal event or a pause, a run that is not over gets an error. */
  predicate NeedsError(db: Db, r: RunId, events: seq<Yield>)
    requires r < |db.runs|
  {
    !SawTerminal(events) && !PausedLast(events) && !Ended(db.runs[r].status)
  }

  function Pumped(db: Db, t: ThreadId, r: RunId, events: seq<Yield>): Db
    requires r < |db.runs| && t < |db.threads|
  {
    var done := Appended(db, r, events);
    if r < |done.runs| && t < |done.threads| && NeedsError(done, r, events)
    then AppendEvent(NextSeq(done, t), r, NextSeq(done, t).threads[t].lastSeq, ErrorEvent)
    else done
  }

  /** All numbers so far were drawn from the thread's counter, and the new events carry new ones. */
  ghost predicate FreshNumbers(db: Db, t: ThreadId, r: RunId, events: seq<Yield>)
    requires t < |db.threads|
  {
    && (forall q: nat :: (r, q) in db.events ==> q <= db.threads[t].lastSeq)
    && (forall i :: 0 <= i < |events| ==>
          events[i].seqNo <= db.threads[t].lastSeq && (r, events[i].seqNo) !in db.events)
    && (forall i, j :: 0 <= i < j < |events| ==> events[i].seqNo != events[j].seqNo)
  }

  ghost predicate Carries(events: seq<Yield>, q: nat) {
    exists i :: 0 <= i < |events| && events[i].seqNo == q
  }

  lemma CarriesMore(events: seq<Yield>, q: nat)
    requires events != []
    ensures Carries(events, q) <==> Carries(events[..|events| - 1], q) || events[|events| - 1].seqNo == q
  {
    var init := events[..|events| - 1];
    if Carries(init, q) {
      var i :| 0 <= i < |init| && init[i].seqNo == q;
      assert events[i].seqNo == q;
    }
    if Carries(events, q) {
      var i :| 0 <= i < |events| && events[i].seqNo == q;
      assert i < |init| ==> init[i].seqNo == q;
    }
  }

  lemma {:induction false} AppendedNumbers(db: Db, r: RunId, events: seq<Yield>, q: nat)
    ensures (r, q) in Appended(db, r, events).events <==> (r, q) in db.events || Carries(events, q)
    ensures Appended(db, r, events).threads == db.threads && Appended(db, r, events).runs == db.runs
  {
    if events != [] {
      AppendedNumbers(db, r, events[..|events| - 1], q);
      CarriesMore(events, q);
    }
  }

  lemma {:induction false} AllAppended(db: Db, t: ThreadId, r: RunId, events: seq<Yield>)
    requires t < |db.threads| && FreshNumbers(db, t, r, events)
    ensures forall i :: 0 <= i < |events| ==>
              (r, events[i].seqNo) in Appended(db, r, events).events
              && Appended(db, r, events).events[(r, events[i].seqNo)] == events[i].name
  {
    if events != [] {
      var n := |events| - 1;
      forall i | 0 <= i < n ensures events[..n][i] == events[i] {}
      AllAppended(db, t, r, events[..n]);
      AppendedNumbers(db, r, events[..n], events[n].seqNo);
    }
  }

  ghost predicate HasTerminal(db: Db, r: RunId) {
    exists q: nat :: (r, q) in db.events && Terminal(db.events[(r, q)])
  }

  /** Main result: whatever the generator yields, and wherever it stops, the pump leaves a terminal
  event in the log, or the run paused with its request logged last, or the run ended. */
  lemma PumpNeverLeavesOpen(db: Db, t: ThreadId, r: RunId, events: seq<Yield>)
    requires r < |db.runs| && t < |db.threads| && FreshNumbers(db, t, r, events)
    ensures HasTerminal(Pumped(db, t, r, events), r) || PausedLast(events) || Ended(db.runs[r].status)
    ensures forall i :: 0 <= i < |events| ==>
              (r, events[i].seqNo) in Pumped(db, t, r, events).events
              && Pumped(db, t, r, events).events[(r, events[i].seqNo)] == events[i].name
  {
    AllAppended(db, t, r, events);
    AppendedNumbers(db, r, events, 0);
    var done := Appended(db, r, events);
    if SawTerminal(events) {
      var i :| 0 <= i < |events| && Terminal(events[i].name);
      assert (r, events[i].seqNo) in Pumped(db, t, r, events).events;
    } else if NeedsError(done, r, events) {
      var q := NextSeq(done, t).threads[t].lastSeq;
      AppendedNumbers(db, r, events, q);
      assert (r, q) !in done.events;
      assert Pumped(db, t, r, events).events[(r, q)] == ErrorEvent;
    }
  }

  datatype Interruption = Missing | Interrupting | Stopped | Conflict

  /** Stopping a run from outside: a paused run's cells are refused and closed. */
  function StoppedRun(db: Db, r: RunId, now: int): Db
    requires r < |db.runs|
  {
    if db.runs[r].status.AwaitingApproval? then
      var ended := TryTransition(db, r, AwaitingApproval, Interrupted, true, now);
      ResolveOrphans(SetPendingApproval(ended, r, Refused), r, INTERRUPTED_TOOL)
    else TryTransition(db, r, Running, Interrupted, true, now)
  }

  function WithDone(db: Db, t: ThreadId, r: RunId): Db
    requires t < |db.threads|
  {
    AppendEvent(NextSeq(db, t), r, NextSeq(db, t).threads[t].lastSeq, RunDone)
  }

  /** What stopping leaves: the run interrupted at that time, the waiting cells of a paused run refused
  and answered with the marker, and a new `run.done` above every number of the thread. */
  lemma StoppedAndReported(db: Db, t: ThreadId, r: RunId, now: int)
    requires r < |db.runs| && Active(db.runs[r].status) && db.runs[r].thread == t < |db.threads|
    requires (r, db.threads[t].lastSeq + 1) !in db.events
    ensures var later, q := WithDone(StoppedRun(db, r, now), t, r), db.threads[t].lastSeq + 1;
            && later.events == db.events[(r, q) := RunDone]
            && later.threads == db.threads[t := db.threads[t].(lastSeq := q)]
            && later.runs == db.runs[r := db.runs[r].(status := Interrupted, endedAt := Some(now))]
            && |later.messages| == |db.messages|
            && forall k :: 0 <= k < |db.messages| ==>
                 var m := db.messages[k];
                 later.messages[k] == if db.runs[r].status.AwaitingApproval? && m.run == r && m.role.Tool?
                                         && m.result.None?
                                      then m.(approval := Some(Refused), result := Some(INTERRUPTED_TOOL)) else m
  {
  }

  class RunManager {
    const repo: ConversationRepository
    var active: set<RunId>

    constructor (repo: ConversationRepository)
      ensures this.repo == repo && active == {}
    {
      this.repo := repo;
      active := {};
    }

    /** Consumes the generator and logs what it yields; its finally block acts also when the
    generator raises, which looks the same from here. */
    method Pump(t: ThreadId, r: RunId, events: seq<Yield>)
      requires repo.Valid() && r < |repo.runs| && t < |repo.threads|
      modifies this, repo
      ensures repo.Valid() && repo.Contents() == Pumped(old(repo.Contents()), t, r, events)
      ensures active == old(active) - {r}
    {
      hide TablesOk, Extends, NeedsError;
      var sawTerminal, last := false, None;
      for i := 0 to |events|
        invariant repo.Valid() && repo.Contents() == Appended(old(repo.Contents()), r, events[..i])
                    && active == old(active)
        invariant sawTerminal == SawTerminal(events[..i])
        invariant last == if i == 0 then None else Some(events[i - 1].name)
      {
        assert events[..i + 1][..i] == events[..i] && events[..i + 1][i] == events[i];
        SawMore(events, i);
        last := Some(events[i].name);
        if Terminal(events[i].name) { sawTerminal := true; }
        repo.AppendRunEvent(r, events[i].seqNo, events[i].name);
      }
      assert events[..|events|] == events;
      AppendedFollows(old(repo.Contents()), r, events);
      active := active - {r};
      assert NeedsError(repo.Contents(), r, events)
          == (!sawTerminal && last != Some(ApprovalRequested) && !Ended(repo.runs[r].status)) by {
        Needed(repo.Contents(), r, events);
      }
      if !sawTerminal && last != Some(ApprovalRequested) && !Ended(repo.runs[r].status) {
        var seqNo := repo.NextSeq(t);
        repo.AppendRunEvent(r, seqNo.value, ErrorEvent);
      }
    }

    /** `seen` is the run as it was looked up, None when there is none; the tables may have changed
    since. `local` says whether this instance drives the run and has noted the request to cancel. */
    method Interrupt(r: RunId, seen: Option<Run>, local: bool, now: int) returns (out: Interruption)
      requires repo.Valid()
      requires seen.Some? ==> r < |repo.runs| && repo.runs[r].thread == seen.value.thread
      modifies repo
      ensures repo.Valid()
      ensures out.Missing? <==> seen.None?
      ensures out.Interrupting? <==> seen.Some? && seen.value.status.Running? && local
      ensures out.Stopped? <==> seen.Some? && Active(seen.value.status) && !(seen.value.status.Running? && local)
                                && seen.value.status == old(repo.runs)[r].status
      ensures out.Stopped? ==> var db := old(repo.Contents());
                               r < |db.runs| && db.runs[r].thread < |db.threads| && r < |repo.runs|
                               && repo.Contents() == WithDone(StoppedRun(db, r, now), db.runs[r].thread, r)
                               && repo.runs[r].status.Interrupted? && repo.runs[r].endedAt == Some(now)
      ensures !out.Stopped? ==> repo.Contents() == old(repo.Contents())
    {
      if seen.None? { return Missing; }
      var t, status := seen.value.thread, seen.value.status;
      assert t < |repo.threads|;
      hide TablesOk, Extends;
      if status.Running? {
        if local { return Interrupting; }
        var won := repo.TryTransition(r, Running, Interrupted, true, now);
        if !won { return Conflict; }
        PushTerminal(t, r);
        return Stopped;
      }
      if status.AwaitingApproval? {
        var won := repo.TryTransition(r, AwaitingApproval, Interrupted, true, now);
        if !won { return Conflict; }
        repo.SetPendingApproval(r, Refused);
        repo.ResolveOrphanToolCells(r, INTERRUPTED_TOOL);
        PushTerminal(t, r);
        return Stopped;
      }
      return Conflict;
    }

    method PushTerminal(t: ThreadId, r: RunId)
      requires repo.Valid() && t < |repo.threads|
      modifies repo
      ensures repo.Valid() && repo.Contents() == WithDone(old(repo.Contents()), t, r)
      ensures repo.messages == old(repo.messages)
      ensures var q := old(repo.threads)[t].lastSeq + 1;
              (r, q) in repo.events && ((r, q) !in old(repo.events) ==> repo.events[(r, q)] == RunDone)
    {
      hide TablesOk, Extends;
      var seqNo := repo.NextSeq(t);
      repo.AppendRunEvent(r, seqNo.value, RunDone);
    }

    /** One tick of the maintenance thread: beat first, then sweep, and every `gcEvery` ticks drop the
    events of runs that ended long ago. */
    method Maintain(tick: nat, gcEvery: nat, now: int, secs: int, retention: int)
      requires repo.Valid() && gcEvery >= 1
      modifies repo
      ensures repo.Valid()
      ensures var swept := Reconcile(Store.Heartbeat(old(repo.Contents()), active, now), now, secs);
              repo.Contents() == if tick % gcEvery == 0 then GcEvents(swept, LongEnded(swept, now, retention))
                  else swept
    {
      hide TablesOk, Extends;
      repo.HeartbeatRuns(active, now);
      var swept := repo.ReconcileOrphanRuns(now, secs);
      if tick % gcEvery == 0 { repo.GcRunEvents(now, retention); }
    }
  }

  lemma SawMore(events: seq<Yield>, i: nat)
    requires i < |events|
    ensures SawTerminal(events[..i + 1]) <==> SawTerminal(events[..i]) || Terminal(events[i].name)
  {
    if SawTerminal(events[..i]) {
      var k :| 0 <= k < i && Terminal(events[..i][k].name);
      assert Terminal(events[..i + 1][k].name);
    }
    if Terminal(events[i].name) { assert Terminal(events[..i + 1][i].name); }
    if SawTerminal(events[..i + 1]) {
      var k :| 0 <= k < i + 1 && Terminal(events[..i + 1][k].name);
      assert k < i ==> Terminal(events[..i][k].name);
    }
  }

  lemma Needed(db: Db, r: RunId, events: seq<Yield>)
    requires r < |db.runs|
    ensures NeedsError(db, r, events) <==> !SawTerminal(events) && !PausedLast(events) && !Ended(db.runs[r].status)
  {
  }

  /** An instance never sweeps the running runs that it drives itself. */
  lemma OwnRunsSurviveTheTick(db: Db, active: set<RunId>, now: int, secs: int, r: RunId)
    requires r < |db.runs| && r in active && db.runs[r].status.Running? && secs >= 0
    ensures Reconcile(Store.Heartbeat(db, active, now), now, secs).runs[r] == db.runs[r].(heartbeat := now)
  {
  }

  /** The pump's last resort decides as the worker of the protocol does, whose flags record what
  it has yielded. */
  lemma LastResortAsInProtocol(db: Db, w: Worker, events: seq<Yield>)
    requires TablesOk(db) && WorkerOk(db, w) && w.pc.PumpEnd?
    requires w.sawTerminal == SawTerminal(events)
    requires w.last == if events == [] then None else Some(events[|events| - 1].name)
    ensures PumpStep(db, w).worker.pc == if NeedsError(db, w.logRun, events) then Draw(ErrorEvent, ToGone) else Gone
  {
    hide TablesOk;
  }

  /** The numbers that the pump assumes to be new are new in every history of the protocol. */
  lemma {:induction false} ProtocolNumbersAreFresh(steps: seq<Step>, i: WorkerId)
    requires StateAfter(steps).Some? && i < |StateAfter(steps).value.workers|
              && StateAfter(steps).value.workers[i].pc.Log?
    ensures var s := StateAfter(steps).value;
            var w := s.workers[i];
            w.thread < |s.db.threads| && FreshNumbers(s.db, w.thread, w.logRun, [Yield(w.pc.name, w.pc.seqNo)])
  {
    hide StateAfter, TablesOk;
    NumbersNeverClash(steps);
  }
}
