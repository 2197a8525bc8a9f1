/** The terminal event of a run tells how the run ended. */
module RunReports {
  import opened Store
  import opened Forks
  import opened Runs
  import opened RunSafety
  import opened RunTerminals

  /** The terminal event that a place still has to log. */
  function Coming(pc: Pc): Option<EventName> {
    match pc
    case Draw(name, next) => if next.ToRunDone? then Some(RunDone) else if Terminal(name) then Some(name) else None
    case Log(name, _, next) => if next.ToRunDone? then Some(RunDone) else if Terminal(name) then Some(name) else None
    case FailCells => Some(ErrorEvent)
    case RejectCells => Some(RunDone)
    case RejectOrphans => Some(RunDone)
    case InterruptCells => Some(RunDone)
    case InterruptOrphans => Some(RunDone)
    case _ => None
  }

  /** The event fits the status: an error exactly for a run that ended in error. */
  predicate Fits(name: EventName, status: Status) {
    name.ErrorEvent? <==> status.Error?
  }

  ghost predicate WorkerTruthful(db: Db, w: Worker) {
    Coming(w.pc).Some? ==> w.run < |db.runs| && Fits(Coming(w.pc).value, db.runs[w.run].status)
  }

  ghost predicate LogsTruthful(db: Db) {
    forall r: RunId, q: nat :: LogsTerminal(db, r, q) ==> r < |db.runs| && Fits(db.events[(r, q)], db.runs[r].status)
  }

  ghost predicate Truthful(s: System) {
    LogsTruthful(s.db) && forall i :: 0 <= i < |s.workers| ==> WorkerTruthful(s.db, s.workers[i])
  }

  lemma ComingIsOwed(pc: Pc)
    ensures Coming(pc).Some? <==> Owes(pc)
  {
  }

  /** What a worker comes to owe was owed before, or its step has just ended the run in that way. */
  predicate OwesFitting(db: Db, w: Worker, out: Outcome)
    requires WorkerOk(db, w)
  {
    Coming(out.worker.pc).Some? ==>
      && out.worker.run == w.run < |out.db.runs|
      && (if KindOf(db, w).Stays? then Coming(w.pc) == Coming(out.worker.pc)
          else Fits(Coming(out.worker.pc).value, out.db.runs[w.run].status))
  }

  lemma LeavingFits(db: Db, w: Worker, now: int)
    requires TablesOk(db) && WorkerOk(db, w) && PlaceOk(w)
    requires w.pc.CancelCells? || w.pc.CancelCas? || w.pc.PauseStatus? || w.pc.PauseCells? || w.pc.FailCas?
             || w.pc.FailCells?
    ensures OwesFitting(db, w, Leave(db, w, now))
  {
    hide TablesOk;
  }

  lemma ConcludingFits(db: Db, w: Worker, now: int)
    requires TablesOk(db) && WorkerOk(db, w) && PlaceOk(w) && (w.pc.Verify? || w.pc.ForgeCas? || w.pc.CommitCas?)
    ensures OwesFitting(db, w, Conclude(db, w, now))
  {
    hide TablesOk, ThreadCitations;
  }

  lemma ResumingFits(db: Db, w: Worker, act: Action)
    requires TablesOk(db) && WorkerOk(db, w) && CanAct(w.pc, act)
    requires Resumes(w.pc) || w.pc.ApproveCells? || w.pc.RejectCells? || w.pc.RejectOrphans?
    ensures OwesFitting(db, w, ResumeStep(db, w, act))
  {
    hide TablesOk, PausedRun, PendingCalls;
  }

  lemma InterruptingFits(db: Db, w: Worker, now: int)
    requires TablesOk(db) && WorkerOk(db, w)
    requires w.pc.InterruptRunning? || w.pc.InterruptPaused? || w.pc.InterruptCells? || w.pc.InterruptOrphans?
    ensures OwesFitting(db, w, InterruptStep(db, w, now))
  {
    hide TablesOk;
  }

  lemma EmittingFits(db: Db, w: Worker)
    requires TablesOk(db) && WorkerOk(db, w) && PlaceOk(w)
    requires w.pc.Draw? || w.pc.Log? || w.pc.UserMessage? || w.pc.StoreResult?
    ensures OwesFitting(db, w, Emit(db, w))
  {
    hide TablesOk;
  }

  lemma BoundaryFits(db: Db, w: Worker, act: Action)
    requires TablesOk(db) && WorkerOk(db, w) && w.pc.Loop? && CanAct(w.pc, act)
    ensures OwesFitting(db, w, AtBoundary(db, w, act))
  {
    hide TablesOk;
  }

  lemma StepFits(db: Db, w: Worker, act: Action)
    requires TablesOk(db) && WorkerOk(db, w) && CanAct(w.pc, act) && PlaceOk(w)
    requires !Synthesizes(WorkerStep(db, w, act).worker.pc)
    ensures OwesFitting(db, w, WorkerStep(db, w, act))
  {
    hide TablesOk, OwesFitting, PlaceOk, Leave, Conclude, ResumeStep, InterruptStep, Emit, AtBoundary;
    var now := if act.Go? then act.now else 0;
    match w.pc {
      case Loop => BoundaryFits(db, w, act);
      case Draw(_, _) => EmittingFits(db, w);
      case Log(_, _, _) => EmittingFits(db, w);
      case UserMessage => EmittingFits(db, w);
      case StoreResult(_, _, _) => EmittingFits(db, w);
      case CancelCells => LeavingFits(db, w, now);
      case CancelCas => LeavingFits(db, w, now);
      case PauseStatus => LeavingFits(db, w, now);
      case PauseCells => LeavingFits(db, w, now);
      case FailCas => LeavingFits(db, w, now);
      case FailCells => LeavingFits(db, w, now);
      case Verify(_) => ConcludingFits(db, w, now);
      case ForgeCas => ConcludingFits(db, w, now);
      case CommitCas(_) => ConcludingFits(db, w, now);
      case InterruptRunning => InterruptingFits(db, w, now);
      case InterruptPaused => InterruptingFits(db, w, now);
      case InterruptCells => InterruptingFits(db, w, now);
      case InterruptOrphans => InterruptingFits(db, w, now);
      case PumpEnd => NothingComes(db, w, act);
      case Gone => NothingComes(db, w, act);
      case _ => ResumingFits(db, w, act);
    }
  }

  lemma NothingComes(db: Db, w: Worker, act: Action)
    requires TablesOk(db) && WorkerOk(db, w) && CanAct(w.pc, act) && (w.pc.PumpEnd? || w.pc.Gone?)
    requires !Synthesizes(WorkerStep(db, w, act).worker.pc)
    ensures OwesFitting(db, w, WorkerStep(db, w, act))
  {
    hide TablesOk;
  }

  /** A terminal event comes to be owed only by the move that ends the run, and fits its end. */
  lemma ActorTruthful(db: Db, w: Worker, act: Action)
    requires TablesOk(db) && WorkerOk(db, w) && CanAct(w.pc, act) && PlaceOk(w) && WorkerTruthful(db, w)
    requires !Synthesizes(WorkerStep(db, w, act).worker.pc)
    ensures WorkerTruthful(WorkerStep(db, w, act).db, WorkerStep(db, w, act).worker)
  {
    hide TablesOk, WorkerStep;
    StepFits(db, w, act);
    StepMoves(db, w, act);
  }

  lemma ActLogsTruthful(db: Db, w: Worker, act: Action)
    requires TablesOk(db) && WorkerOk(db, w) && CanAct(w.pc, act) && PlaceOk(w) && w.logRun == w.run
    requires WorkerTruthful(db, w) && LogsTruthful(db)
    requires forall r :: 0 <= r < |db.runs| && Ended(db.runs[r].status) ==>
               r < |WorkerStep(db, w, act).db.runs| && WorkerStep(db, w, act).db.runs[r].status == db.runs[r].status
    requires forall r: RunId, q: nat :: LogsTerminal(db, r, q) ==> r < |db.runs| && Ended(db.runs[r].status)
    ensures LogsTruthful(WorkerStep(db, w, act).db)
  {
    hide TablesOk;
    LoggedIsPaid(db, w, act);
  }

  // ---- every history -----------------------------------------------------

  lemma ActKeepsEnded(s: System, i: WorkerId, act: Action)
    requires SystemOk(s) && CanStep(s, Act(i, act)) && GuardedPause(s, Act(i, act))
    ensures var later := WorkerStep(s.db, s.workers[i], act).db;
            |later.runs| == |s.db.runs|
            && forall r :: 0 <= r < |s.db.runs| && Ended(s.db.runs[r].status) ==>
                 later.runs[r].status == s.db.runs[r].status
  {
    hide TablesOk, WorkerStep;
    StepMoves(s.db, s.workers[i], act);
  }

  lemma OtherWorkersTruthful(s: System, later: Db, j: WorkerId)
    requires Tidy(s) && Truthful(s) && j < |s.workers| && |later.runs| >= |s.db.runs|
    requires forall r :: 0 <= r < |s.db.runs| && Ended(s.db.runs[r].status) ==>
               later.runs[r].status == s.db.runs[r].status
    ensures WorkerTruthful(later, s.workers[j]) && WorkerTruthful(later, s.workers[j].(pc := Gone))
  {
    assert WorkerTidy(s.db, s.workers[j]);
    ComingIsOwed(s.workers[j].pc);
  }

  lemma ActKeepsTruthful(s: System, i: WorkerId, act: Action)
    requires Tidy(s) && Truthful(s) && CanStep(s, Act(i, act)) && GuardedPause(s, Act(i, act))
    ensures Truthful(ActStep(s, i, act))
  {
    hide TablesOk, WorkerStep, LogsTruthful, WorkerTruthful;
    var w := s.workers[i];
    assert WorkerTidy(s.db, w);
    ActKeepsEnded(s, i, act);
    NeitherResumesNorSynthesizes(s.db, w, act);
    ActorTruthful(s.db, w, act);
    ActLogsTruthful(s.db, w, act);
    var later := WorkerStep(s.db, w, act).db;
    forall j | 0 <= j < |s.workers| && j != i ensures WorkerTruthful(later, s.workers[j]) {
      OtherWorkersTruthful(s, later, j);
    }
  }

  lemma QuietKeepsTruthful(s: System, step: Step, later: System)
    requires Tidy(s) && Truthful(s) && Quiet(s, step, later)
    ensures Truthful(later)
  {
    hide TablesOk, WorkerTruthful;
    forall j | 0 <= j < |s.workers| ensures WorkerTruthful(later.db, later.workers[j]) {
      OtherWorkersTruthful(s, later.db, j);
    }
    if |later.workers| > |s.workers| { NothingComesYet(later.db, later.workers[|s.workers|]); }
    assert forall r: RunId, q: nat :: LogsTerminal(later.db, r, q) ==> LogsTerminal(s.db, r, q);
  }

  lemma NothingComesYet(db: Db, w: Worker)
    requires w.pc == Draw(RunStarted, ToUserMessage) || w.pc.InterruptRunning? || w.pc.InterruptPaused? || w.pc.Lookup?
    ensures WorkerTruthful(db, w)
  {
  }

  lemma {:induction false} AlwaysTruthful(steps: seq<Step>)
    requires StateAfter(steps).Some? && Disciplined(steps)
    ensures Truthful(StateAfter(steps).value)
  {
    hide *;
    if steps == [] {
      NothingReported();
    } else {
      var front, last := steps[..|steps| - 1], steps[|steps| - 1];
      LastStep(steps);
      AlwaysTruthful(front);
      DisciplinedIsTidy(front);
      TidyIsOk(StateAfter(front).value);
      StepKeepsTruthful(StateAfter(front).value, last);
    }
  }

  lemma TidyIsOk(s: System)
    requires Tidy(s)
    ensures SystemOk(s)
  {
  }

  lemma StepKeepsTruthful(s: System, step: Step)
    requires Tidy(s) && Truthful(s) && CanStep(s, step) && GuardedPause(s, step)
    ensures Truthful(NextState(s, step))
  {
    hide TablesOk, Truthful, Tidy, Quiet;
    TidyIsOk(s);
    if step.Act? {
      ActKeepsTruthful(s, step.worker, step.act);
    } else {
      StepIsQuiet(s, step);
      QuietKeepsTruthful(s, step, NextState(s, step));
    }
  }

  lemma NothingReported()
    ensures StateAfter([]).Some? && Truthful(StateAfter([]).value)
  {
    InitIsOk();
    hide TablesOk, SystemOk, NextState, CanStep;
  }

  /** Main result: in a disciplined run of the system a logged terminal event tells how its run ended.
  It is an error exactly for a run that ended in error, and the end of a regular run otherwise. */
  lemma {:induction false} TerminalTellsEnd(steps: seq<Step>, r: RunId, q: nat)
    requires StateAfter(steps).Some? && Disciplined(steps) && LogsTerminal(StateAfter(steps).value.db, r, q)
    ensures var db := StateAfter(steps).value.db;
            && r < |db.runs| && Ended(db.runs[r].status)
            && (db.events[(r, q)].ErrorEvent? <==> db.runs[r].status.Error?)
            && (db.events[(r, q)].RunDone? <==>
                  db.runs[r].status.Completed? || db.runs[r].status.Interrupted? || db.runs[r].status.Rejected?)
  {
    hide StateAfter, Disciplined;
    AlwaysTruthful(steps);
    SingleTerminal(steps, r, q, q);
  }
}
