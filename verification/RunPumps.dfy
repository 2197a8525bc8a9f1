/** A pump that has ended leaves something for its readers to end on. */
module RunPumps {
  import opened Store
  import opened Forks
  import opened Runs
  import opened RunSafety
  import opened RunNumbers
  import opened RunTerminals
  import opened RunWitnesses
  import opened Tail

  ghost predicate HasTerminal(db: Db, r: RunId) {
    exists q: nat :: LogsTerminal(db, r, q)
  }

  /** The log of the run holds a terminal event, or the run has ended. */
  ghost predicate Closed(db: Db, r: RunId) {
    r < |db.runs| && (Ended(db.runs[r].status) || HasTerminal(db, r))
  }

  /** Worker `i` was started to pump: by a new run or by a resume, not to interrupt. */
  predicate StartedPump(steps: seq<Step>, i: WorkerId)
    requires StateAfter(steps).Some?
  {
    steps != []
    && var front, last := steps[..|steps| - 1], steps[|steps| - 1];
       if i < |StateAfter(front).value.workers| then StartedPump(front, i)
       else i < |StateAfter(steps).value.workers| && (last.StartRun? || last.ResumeRun?)
  }

  /** The places of a pump: none of an interrupter, and no event after which it is gone but the error
  of its last resort. */
  predicate PumpPc(pc: Pc) {
    match pc
    case InterruptRunning => false
    case InterruptPaused => false
    case InterruptCells => false
    case InterruptOrphans => false
    case Draw(name, next) => next.ToGone? ==> name.ErrorEvent?
    case Log(name, _, next) => next.ToGone? ==> name.ErrorEvent?
    case _ => true
  }

  predicate LogsTerminalNext(pc: Pc) {
    pc.Log? && Terminal(pc.name)
  }

  ghost predicate PumpOk(db: Db, w: Worker) {
    && PumpPc(w.pc)
    && (w.sawTerminal && !LogsTerminalNext(w.pc) ==> Closed(db, w.logRun))
    && (w.pc.Gone? ==> w.last == Some(ApprovalRequested) || Closed(db, w.logRun))
  }

  // ---- closed logs stay closed -------------------------------------------

  lemma EventsStay(s: System, step: Step)
    requires SystemOk(s) && CanStep(s, step) && EndTimesOk(s.db)
    ensures var later := NextState(s, step).db;
            forall r: RunId, q: nat :: r < |s.db.runs| && (r, q) in s.db.events && !Ended(s.db.runs[r].status) ==>
              (r, q) in later.events && later.events[(r, q)] == s.db.events[(r, q)]
  {
    hide TablesOk;
    if step.Act? { StepNumbers(s.db, s.workers[step.worker], step.act); }
  }

  lemma ClosedStays(s: System, step: Step, r: RunId)
    requires Safe(s) && EndTimesOk(s.db) && CanStep(s, step) && GuardedPause(s, step) && Closed(s.db, r)
    ensures Closed(NextState(s, step).db, r)
  {
    hide TablesOk, NextState, EndTimesOk, Safe, Driven, OutrunPause;
    SafeIsOk(s);
    var later := NextState(s, step).db;
    StepKeepsSystem(s, step);
    RunsStay(s, step);
    if Ended(s.db.runs[r].status) {
      GuardedKeepsEnded(s, step, r);
    } else {
      var q: nat :| LogsTerminal(s.db, r, q);
      EventsStay(s, step);
      assert LogsTerminal(later, r, q);
    }
  }

  lemma SafeIsOk(s: System)
    requires Safe(s)
    ensures SystemOk(s)
  {
  }

  lemma RunsStay(s: System, step: Step)
    requires SystemOk(s) && CanStep(s, step)
    ensures |s.db.runs| <= |NextState(s, step).db.runs|
  {
    StepKeepsSystem(s, step);
    hide TablesOk, NextState;
  }

  lemma GuardedKeepsEnded(s: System, step: Step, r: RunId)
    requires Safe(s) && CanStep(s, step) && GuardedPause(s, step)
    requires r < |s.db.runs| && r < |NextState(s, step).db.runs| && Ended(s.db.runs[r].status)
    ensures NextState(s, step).db.runs[r].status == s.db.runs[r].status
  {
    hide TablesOk, NextState, Driven;
    EndedLeftOnlyByOutrunPause(s, step, r);
  }

  // ---- one step of a pump ------------------------------------------------

  /** How a worker's step changes what its pump has noted. */
  lemma PumpMoves(db: Db, w: Worker, act: Action)
    requires TablesOk(db) && WorkerOk(db, w) && CanAct(w.pc, act) && PumpPc(w.pc)
    ensures var next := WorkerStep(db, w, act).worker;
            && PumpPc(next.pc) && next.logRun == w.logRun
            && (next.sawTerminal ==> w.sawTerminal || LogsTerminalNext(next.pc))
            && (next.pc.Gone? ==>
                  LogsTerminalNext(w.pc) || w.sawTerminal || next.last == Some(ApprovalRequested)
                  || Ended(db.runs[w.logRun].status))
            && (w.sawTerminal ==> next.sawTerminal)
  {
    hide TablesOk;
  }

  lemma LoggingCloses(s: System, i: WorkerId, act: Action)
    requires NumbersOk(s) && CanStep(s, Act(i, act)) && LogsTerminalNext(s.workers[i].pc)
    ensures Closed(ActStep(s, i, act).db, s.workers[i].logRun)
  {
    hide TablesOk;
    var w := s.workers[i];
    assert PendingOk(s.db, w);
    assert LogsTerminal(ActStep(s, i, act).db, w.logRun, w.pc.seqNo);
  }

  lemma ActKeepsPump(s: System, i: WorkerId, act: Action)
    requires Safe(s) && NumbersOk(s) && EndTimesOk(s.db)
    requires CanStep(s, Act(i, act)) && GuardedPause(s, Act(i, act)) && PumpOk(s.db, s.workers[i])
    ensures PumpOk(NextState(s, Act(i, act)).db, NextState(s, Act(i, act)).workers[i])
  {
    hide TablesOk, Closed, EndTimesOk, Driven, Safe, NumbersOk, WorkerStep, GuardedPause;
    SafeIsOk(s);
    var w := s.workers[i];
    PumpMoves(s.db, w, act);
    if LogsTerminalNext(w.pc) { LoggingCloses(s, i, act); }
    if Ended(s.db.runs[w.logRun].status) { EndedIsClosed(s.db, w.logRun); }
    if Closed(s.db, w.logRun) { ClosedStays(s, Act(i, act), w.logRun); }
  }

  lemma EndedIsClosed(db: Db, r: RunId)
    requires r < |db.runs| && Ended(db.runs[r].status)
    ensures Closed(db, r)
  {
  }

  /** A step of anything else leaves a pump as it is, unless it crashes it. */
  lemma OthersKeepPump(s: System, step: Step, i: WorkerId)
    requires Safe(s) && EndTimesOk(s.db) && CanStep(s, step) && GuardedPause(s, step)
    requires i < |s.workers| && PumpOk(s.db, s.workers[i]) && step != Crash(i) && !(step.Act? && step.worker == i)
    ensures i < |NextState(s, step).workers| && PumpOk(NextState(s, step).db, NextState(s, step).workers[i])
  {
    hide TablesOk, Closed, EndTimesOk, Driven, Safe, GuardedPause;
    SafeIsOk(s);
    WorkerStays(s, step, i);
    if Closed(s.db, s.workers[i].logRun) { ClosedStays(s, step, s.workers[i].logRun); }
  }

  lemma WorkerStays(s: System, step: Step, i: WorkerId)
    requires SystemOk(s) && CanStep(s, step) && i < |s.workers| && step != Crash(i) && !(step.Act? && step.worker == i)
    ensures i < |NextState(s, step).workers| && NextState(s, step).workers[i] == s.workers[i]
  {
    hide TablesOk;
  }

  /** A pump starts with nothing noted. */
  lemma PumpStarts(s: System, step: Step, i: WorkerId)
    requires SystemOk(s) && CanStep(s, step) && (step.StartRun? || step.ResumeRun?)
    requires |s.workers| <= i < |NextState(s, step).workers|
    ensures PumpOk(NextState(s, step).db, NextState(s, step).workers[i])
  {
    hide TablesOk;
  }

  lemma {:induction false} PumpsStayOk(steps: seq<Step>, i: WorkerId)
    requires StateAfter(steps).Some? && Along(steps, PausesGuarded) && StartedPump(steps, i) && Crash(i) !in steps
    ensures i < |StateAfter(steps).value.workers|
    ensures PumpOk(StateAfter(steps).value.db, StateAfter(steps).value.workers[i])
  {
    hide PumpOk, NextState, CanStep, SystemOk, Safe, NumbersOk, EndTimesOk, GuardedPause;
    var front, last := steps[..|steps| - 1], steps[|steps| - 1];
    var before := StateAfter(front).value;
    AlwaysSafe(front);
    AlwaysNumbered(front);
    GuardedEndTimes(front);
    if i < |before.workers| {
      PumpsStayOk(front, i);
      if last.Act? && last.worker == i {
        ActKeepsPump(before, i, last.act);
        ActKeepsWorkers(before, i, last.act);
      } else {
        OthersKeepPump(before, last, i);
      }
    } else {
      PumpStarts(before, last, i);
    }
  }

  lemma ActKeepsWorkers(s: System, i: WorkerId, act: Action)
    requires SystemOk(s) && CanStep(s, Act(i, act))
    ensures |NextState(s, Act(i, act)).workers| == |s.workers|
  {
    hide TablesOk;
  }

  // ---- main results ------------------------------------------------------

  /** Main result: in every history with guarded pauses, a pump that is gone without a crash of its
  own ended by a pause, or the log it writes holds a terminal event, or the run of that log is over. */
  lemma {:induction false} GonePumpIsClosed(steps: seq<Step>, i: WorkerId)
    requires StateAfter(steps).Some? && Along(steps, PausesGuarded) && StartedPump(steps, i) && Crash(i) !in steps
    requires i < |StateAfter(steps).value.workers| && StateAfter(steps).value.workers[i].pc.Gone?
    ensures var s := StateAfter(steps).value;
            s.workers[i].last == Some(ApprovalRequested) || Closed(s.db, s.workers[i].logRun)
  {
    hide StateAfter, Along, StartedPump, Closed;
    PumpsStayOk(steps, i);
  }

  /** Main result: with guarded pauses that is for good, whatever happens next, event collection
  included. */
  lemma {:induction false} ClosedForGood(steps: seq<Step>, n: nat, r: RunId)
    requires StateAfter(steps).Some? && Along(steps, PausesGuarded) && n <= |steps| && StateAfter(steps[..n]).Some?
    requires Closed(StateAfter(steps[..n]).value.db, r)
    ensures Closed(StateAfter(steps).value.db, r)
    decreases |steps|
  {
    hide Closed, NextState, CanStep, SystemOk, Safe, EndTimesOk, GuardedPause;
    if n == |steps| {
      assert steps[..n] == steps;
    } else {
      var front, last := steps[..|steps| - 1], steps[|steps| - 1];
      assert front[..n] == steps[..n];
      ClosedForGood(front, n, r);
      AlwaysSafe(front);
      GuardedEndTimes(front);
      ClosedStays(StateAfter(front).value, last, r);
    }
  }

  /** The rows of a run's log, in the order of their numbers. */
  ghost predicate Lists(db: Db, r: RunId, log: seq<Row>) {
    && Ordered(log)
    && (forall k :: 0 <= k < |log| ==>
          log[k].seqNo >= 0 && (r, log[k].seqNo) in db.events && db.events[(r, log[k].seqNo)] == log[k].name)
    && forall q: nat :: (r, q) in db.events ==> exists k :: 0 <= k < |log| && log[k].seqNo == q
  }

  /** The reader has not received a terminal row yet. */
  predicate AwaitsTerminal(log: seq<Row>, lastEventId: int) {
    forall k :: 0 <= k < |log| && Terminal(log[k].name) ==> log[k].seqNo > lastEventId
  }

  lemma AlongPrefix(steps: seq<Step>, n: nat)
    requires StateAfter(steps).Some? && Along(steps, PausesGuarded) && n <= |steps|
    ensures StateAfter(steps[..n]).Some? && Along(steps[..n], PausesGuarded)
    decreases |steps|
  {
    hide NextState, CanStep, SystemOk, GuardedPause;
    if n < |steps| {
      assert steps[..|steps| - 1][..n] == steps[..n];
      AlongPrefix(steps[..|steps| - 1], n);
    } else {
      assert steps[..n] == steps;
    }
  }

  /** Ended runs stay ended from one point of a history to a later one, with guarded pauses. */
  lemma {:induction false} EndedForGood(steps: seq<Step>, n: nat, r: RunId)
    requires StateAfter(steps).Some? && Along(steps, PausesGuarded) && n <= |steps| && StateAfter(steps[..n]).Some?
    requires r < |StateAfter(steps[..n]).value.db.runs| && Ended(StateAfter(steps[..n]).value.db.runs[r].status)
    ensures r < |StateAfter(steps).value.db.runs| && Ended(StateAfter(steps).value.db.runs[r].status)
    decreases |steps|
  {
    hide NextState, CanStep, SystemOk, Safe, GuardedPause;
    if n == |steps| {
      assert steps[..n] == steps;
    } else {
      var front, last := steps[..|steps| - 1], steps[|steps| - 1];
      assert front[..n] == steps[..n];
      EndedForGood(front, n, r);
      AlwaysSafe(front);
      SafeIsOk(StateAfter(front).value);
      RunsStay(StateAfter(front).value, last);
      GuardedKeepsEnded(StateAfter(front).value, last, r);
    }
  }

  /** A poll of a reader: it asks for rows after `asked` steps of the history and looks the status up
  after `looked` steps. While the run has not ended it sees the whole log of that moment; later,
  collection may have dropped rows. */
  datatype Glance = Glance(asked: nat, looked: nat)

  ghost predicate Sees(steps: seq<Step>, r: RunId, log: seq<Row>, poll: Poll, at: Glance)
    requires StateAfter(steps).Some?
  {
    && at.asked <= at.looked <= |steps| && StateAfter(steps[..at.asked]).Some? && StateAfter(steps[..at.looked]).Some?
    && var before, later := StateAfter(steps[..at.asked]).value.db, StateAfter(steps[..at.looked]).value.db;
       && r < |before.runs| && r < |later.runs|
       && poll.visible <= |log| && poll.status == Some(later.runs[r].status)
       && (Ended(before.runs[r].status) || Lists(before, r, log[..poll.visible]))
  }

  lemma GlanceIsFinal(steps: seq<Step>, n: nat, r: RunId, log: seq<Row>, poll: Poll, at: Glance, lastEventId: int)
    requires StateAfter(steps).Some? && Along(steps, PausesGuarded) && n <= at.asked && Sees(steps, r, log, poll, at)
    requires StateAfter(steps[..n]).Some? && Closed(StateAfter(steps[..n]).value.db, r)
              && AwaitsTerminal(log, lastEventId)
    ensures SeesEnd(poll) || !NoTerminal(Tail.After(log[..poll.visible], lastEventId))
  {
    hide StateAfter, Along, Ordered, Tail.After, NoTerminal;
    AlongPrefix(steps, at.asked);
    assert steps[..at.asked][..n] == steps[..n];
    ClosedForGood(steps[..at.asked], n, r);
    var before := StateAfter(steps[..at.asked]).value.db;
    if Ended(before.runs[r].status) {
      AlongPrefix(steps, at.looked);
      assert steps[..at.looked][..at.asked] == steps[..at.asked];
      EndedForGood(steps[..at.looked], at.asked, r);
    } else {
      var q: nat :| LogsTerminal(before, r, q);
      var k :| 0 <= k < poll.visible && log[..poll.visible][k].seqNo == q;
      assert log[k] == log[..poll.visible][k];
      TerminalAhead(log[..poll.visible], lastEventId, k);
    }
  }

  /** Main result, no hanging reader: once a log is closed, every reader that has not received a terminal
  row yet meets from then on what `Tail.Stream` needs to end within finitely many polls, while log
  and status go on changing. */
  lemma {:induction false} ReadersEnd(steps: seq<Step>, n: nat, r: RunId, log: seq<Row>, polls: seq<Poll>,
                                      at: seq<Glance>, lastEventId: int, k: nat)
    requires StateAfter(steps).Some? && Along(steps, PausesGuarded) && n <= |steps|
    requires StateAfter(steps[..n]).Some? && Closed(StateAfter(steps[..n]).value.db, r)
              && AwaitsTerminal(log, lastEventId)
    requires |at| == |polls| && forall i :: k <= i < |polls| ==>
              n <= at[i].asked && Sees(steps, r, log, polls[i], at[i])
    ensures FinalFrom(log, polls, lastEventId, k)
  {
    hide StateAfter, Along, AwaitsTerminal, Closed, SeesEnd, NoTerminal, Tail.After;
    forall i | k <= i < |polls|
      ensures polls[i].visible <= |log|
      ensures SeesEnd(polls[i]) || !NoTerminal(Tail.After(log[..polls[i].visible], lastEventId))
    {
      GlanceIsFinal(steps, n, r, log, polls[i], at[i], lastEventId);
    }
  }

  lemma TerminalAhead(log: seq<Row>, lastEventId: int, n: nat)
    requires Ordered(log) && n < |log| && Terminal(log[n].name) && log[n].seqNo > lastEventId
    ensures !NoTerminal(Tail.After(log, lastEventId))
  {
    hide Tail.After, Passed;
    PassedBounds(log, lastEventId);
    AfterIsRest(log, lastEventId);
    var p := Passed(log, lastEventId);
    assert p <= n && log[p..][n - p] == log[n];
  }

  // ---- why guarded pauses --------------------------------------------------

  lemma {:induction false} StartedStays(steps: seq<Step>, more: seq<Step>, i: WorkerId)
    requires StateAfter(steps).Some? && StateAfter(more).Some? && steps <= more
    requires StartedPump(steps, i) && i < |StateAfter(steps).value.workers|
    ensures StartedPump(more, i) && i < |StateAfter(more).value.workers|
    decreases |more|
  {
    hide NextState, CanStep, SystemOk;
    if |more| > |steps| {
      var front := more[..|more| - 1];
      assert steps <= front;
      StartedStays(steps, front, i);
      WorkersRemain(StateAfter(front).value, more[|more| - 1]);
    } else {
      assert more == steps;
    }
  }

  const UNGUARDED := {PausesGuarded, ResumesApart}

  /** A paused run with two resumes on their way. */
  lemma TwoResumes() returns (steps: seq<Step>, v: View)
    ensures Reaches(steps, v, UNGUARDED) && v.runs == [Run(0, AwaitingApproval, None, 0, 0)] && |v.workers| == 3
    ensures v.workers[1] == Fresh(0, 0, Lookup(Approve)) && v.workers[2] == Fresh(0, 0, Lookup(Approve))
    ensures v.events == map[(0, 1) := RunStarted, (0, 3) := ApprovalRequested]
    ensures StartedPump(steps, 2)
  {
    steps, v := OneResumeAsked();
    var step, w := ResumeRun(0, Approve), Fresh(0, 0, Lookup(Approve));
    OnlyPaused(StateAfter(steps).value.db, 0);
    hide TablesOk, PausedRun;
    Then(steps, v, step, UNGUARDED);
    assert (steps + [step])[..|steps|] == steps;
    steps, v := steps + [step], v.(workers := v.workers + [w]);
  }

  lemma OneResumeAsked() returns (steps: seq<Step>, v: View)
    ensures Reaches(steps, v, UNGUARDED) && v.runs == [Run(0, AwaitingApproval, None, 0, 0)] && |v.workers| == 2
    ensures v.workers[1] == Fresh(0, 0, Lookup(Approve))
    ensures v.events == map[(0, 1) := RunStarted, (0, 3) := ApprovalRequested]
  {
    hide Reaches;
    steps, v := StartsPaused(UNGUARDED);
    steps, v := Asks(steps, v, UNGUARDED, ResumeRun(0, Approve), Fresh(0, 0, Lookup(Approve)));
  }

  /** The first resume drives the run to its next pause and is swept; the second finds nothing paused and
  the run ended, and leaves; then the first writes its pause. */
  lemma LoserLeaves(steps0: seq<Step>, v0: View) returns (steps: seq<Step>, v: View)
    requires Reaches(steps0, v0, UNGUARDED) && v0.runs == [Run(0, AwaitingApproval, None, 0, 0)] && |v0.workers| == 3
    requires v0.workers[1] == Fresh(0, 0, Lookup(Approve)) && v0.workers[2] == Fresh(0, 0, Lookup(Approve))
    ensures steps0 <= steps && Reaches(steps, v, UNGUARDED) && v.events == v0.events
    ensures |v.workers| == 3 && v.workers[2] == Fresh(0, 0, Gone)
    ensures |v.runs| == 1 && v.runs[0].status.AwaitingApproval?
  {
    hide Reaches;
    steps, v := LooksUp(steps0, v0, UNGUARDED, 1, 0);
    steps, v := WinsMove(steps, v, UNGUARDED, 1);
    steps, v := SetsCells(steps, v, UNGUARDED, 1);
    steps, v := Chooses(steps, v, UNGUARDED, 1, Pause);
    steps, v := Sweeps(steps, v, UNGUARDED);
    steps, v := FindsNothing(steps, v, UNGUARDED, 2);
    steps, v := LeavesSilently(steps, v, UNGUARDED, 2);
    steps, v := WritesPauseRow(steps, v, UNGUARDED, 1);
  }

  /** Main result: without guarded pauses a pump may be gone, neither crashed nor paused, while its log
  holds no terminal event and the run of the log waits. */
  lemma GoneWithoutClosing() returns (steps: seq<Step>, i: WorkerId)
    ensures StateAfter(steps).Some? && i < |StateAfter(steps).value.workers| && StartedPump(steps, i)
    ensures var s := StateAfter(steps).value;
            s.workers[i].pc.Gone? && s.workers[i].last.None? && !Closed(s.db, s.workers[i].logRun) && Crash(i) !in steps
  {
    var steps0, v0 := TwoResumes();
    var v;
    steps, v := LoserLeaves(steps0, v0);
    i := 2;
    StartedStays(steps0, steps, 2);
    hide TablesOk, StateAfter, Along, StartedPump;
    assert forall q: nat :: !LogsTerminal(StateAfter(steps).value.db, 0, q);
  }
}
