/** No run is left running without a driver, so a run whose pump has ended is paused or over. */
module RunLiveness {
  import opened Store
  import opened Forks
  import opened Runs
  import opened RunSafety
  import opened RunCitations

  ghost predicate HasDriver(s: System, r: RunId) {
    exists i :: 0 <= i < |s.workers| && DrivesRun(s, i, r)
  }

  ghost predicate NoneLost(s: System) {
    forall r :: 0 <= r < |s.db.runs| && s.db.runs[r].status.Running? ==> r in s.crashed || HasDriver(s, r)
  }

  /** The worker still drives its run, or the run is no longer running. */
  predicate StillDriven(w: Worker, out: Outcome) {
    out.worker.run == w.run
    && (Drives(out.worker.pc) || (w.run < |out.db.runs| && !out.db.runs[w.run].status.Running?))
  }

  lemma LeavingEnds(db: Db, w: Worker, now: int)
    requires TablesOk(db) && WorkerOk(db, w)
    requires w.pc.CancelCells? || w.pc.CancelCas? || w.pc.PauseStatus? || w.pc.FailCas?
    ensures StillDriven(w, Leave(db, w, now))
  {
    hide TablesOk;
  }

  lemma ConcludingEnds(db: Db, w: Worker, now: int)
    requires TablesOk(db) && WorkerOk(db, w) && (w.pc.Verify? || w.pc.ForgeCas? || w.pc.CommitCas?)
    requires w.pc.CommitCas? ==> w.pc.cited <= db.citations.Keys
    ensures StillDriven(w, Conclude(db, w, now))
  {
    hide TablesOk;
  }

  /** A driver stops driving only when its run is no longer running. */
  lemma DriverLeaves(db: Db, w: Worker, act: Action)
    requires TablesOk(db) && WorkerOk(db, w) && CanAct(w.pc, act) && Drives(w.pc)
    requires w.pc.CommitCas? ==> w.pc.cited <= db.citations.Keys
    ensures StillDriven(w, WorkerStep(db, w, act))
  {
    var now := if act.Go? then act.now else 0;
    match w.pc {
      case CancelCells => LeavingEnds(db, w, now);
      case CancelCas => LeavingEnds(db, w, now);
      case PauseStatus => LeavingEnds(db, w, now);
      case FailCas => LeavingEnds(db, w, now);
      case Verify(_) => ConcludingEnds(db, w, now);
      case ForgeCas => ConcludingEnds(db, w, now);
      case CommitCas(_) => ConcludingEnds(db, w, now);
      case _ =>
        hide TablesOk;
    }
  }

  lemma LinkedAreFrozen(s: System, i: WorkerId)
    requires CitesOk(s) && i < |s.workers| && s.workers[i].pc.CommitCas?
    ensures s.workers[i].pc.cited <= s.db.citations.Keys
  {
    assert WorkerCites(s, s.workers[i]);
  }

  lemma ActKeepsDrivers(s: System, i: WorkerId, act: Action)
    requires Safe(s) && CitesOk(s) && NoneLost(s) && CanStep(s, Act(i, act)) && SystemOk(ActStep(s, i, act))
    ensures NoneLost(ActStep(s, i, act))
  {
    hide TablesOk;
    var later, w := ActStep(s, i, act), s.workers[i];
    StepMoves(s.db, w, act);
    if w.pc.CommitCas? { LinkedAreFrozen(s, i); }
    if Drives(w.pc) { DriverLeaves(s.db, w, act); }
    forall r | 0 <= r < |later.db.runs| && later.db.runs[r].status.Running? && r !in later.crashed
      ensures HasDriver(later, r)
    {
      if KindOf(s.db, w).Claimed? && r == w.run {
        assert DrivesRun(later, i, r);
      } else {
        var j :| 0 <= j < |s.workers| && DrivesRun(s, j, r);
        assert DrivesRun(later, j, r);
      }
    }
  }

  lemma QuietKeepsDrivers(s: System, step: Step, later: System)
    requires NoneLost(s) && Quiet(s, step, later)
    ensures NoneLost(later)
  {
    forall r | 0 <= r < |later.db.runs| && later.db.runs[r].status.Running? && r !in later.crashed
      ensures HasDriver(later, r)
    {
      if r == |s.db.runs| {
        assert DrivesRun(later, |s.workers|, r);
      } else {
        var j :| 0 <= j < |s.workers| && DrivesRun(s, j, r);
        assert DrivesRun(later, j, r);
      }
    }
  }

  lemma {:induction false} NeverLost(steps: seq<Step>)
    requires StateAfter(steps).Some?
    ensures NoneLost(StateAfter(steps).value)
  {
    if steps != [] {
      var before, last := StateAfter(steps[..|steps| - 1]).value, steps[|steps| - 1];
      NeverLost(steps[..|steps| - 1]);
      AlwaysSafe(steps[..|steps| - 1]);
      AlwaysCites(steps[..|steps| - 1]);
      StepKeepsSystem(before, last);
      if last.Act? {
        ActKeepsDrivers(before, last.worker, last.act);
      } else {
        StepIsQuiet(before, last);
        QuietKeepsDrivers(before, last, StateAfter(steps).value);
      }
    }
  }

  /** Main result: once nothing drives a run any more, unless its process crashed, the run is
  waiting for approval or has ended, so that its readers find a final status. */
  lemma EndedOrPausedWithoutDriver(steps: seq<Step>, r: RunId)
    requires StateAfter(steps).Some? && r < |StateAfter(steps).value.db.runs|
    requires r !in StateAfter(steps).value.crashed && !HasDriver(StateAfter(steps).value, r)
    ensures var status := StateAfter(steps).value.db.runs[r].status; status.AwaitingApproval? || Ended(status)
  {
    NeverLost(steps);
  }
}
