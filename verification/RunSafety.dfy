/** What every interleaving keeps, with no hypothesis about resumes or pauses: one driver,
one answer, and one winner for each pause. */
module RunSafety {
  import opened Store
  import opened Forks
  import opened Runs

  /** The worker is driving its run: it may still answer, pause, cancel or fail it. */
  predicate Drives(pc: Pc) {
    match pc
    case Draw(_, next) => next.ToUserMessage? || next.ToLoop?
    case Log(_, _, next) => next.ToUserMessage? || next.ToLoop?
    case UserMessage => true
    case Loop => true
    case StoreResult(_, _, _) => true
    case CancelCells => true
    case CancelCas => true
    case PauseStatus => true
    case FailCas => true
    case Verify(_) => true
    case ForgeCas => true
    case CommitCas(_) => true
    case ApproveCells(_) => true
    case _ => false
  }

  function StatusOf(db: Db, r: RunId): Status
    requires r < |db.runs|
  {
    db.runs[r].status
  }

  /** A driven run is neither paused, nor completed, nor rejected; it may have been interrupted
  or swept behind the driver's back. */
  predicate MayDrive(s: Status) {
    s.Running? || s.Interrupted? || s.Error?
  }

  // ---- what one worker step can do to the runs ---------------------------

  datatype Move = Stays | Ends | Pauses | Claimed | Dropped

  /** The kinds of status change, each with what the worker was and becomes. */
  predicate Moves(db: Db, w: Worker, later: Db, next: Worker, kind: Move)
    requires WorkerOk(db, w)
  {
    if kind.Stays? then
      later.runs == db.runs && (Drives(next.pc) ==> Drives(w.pc) && next.run == w.run)
    else
      && next.run == w.run && |later.runs| == |db.runs|
      && later.runs == db.runs[w.run := later.runs[w.run]]
      && later.runs[w.run].thread == w.thread
      && var from, to := db.runs[w.run], later.runs[w.run];
         match kind
         case Ends => from.status.Running? && Ended(to.status) && to.endedAt.Some? && !to.status.Rejected?
                      && (to.status.Completed? ==> Drives(w.pc)) && !Drives(next.pc)
         case Pauses => w.pc.PauseStatus? && to == from.(status := AwaitingApproval) && !Drives(next.pc)
                        && (forall o :: 0 <= o < |db.runs| && o != w.run && db.runs[o].thread == w.thread ==>
                              !Active(db.runs[o].status))
         case Claimed => from.status.AwaitingApproval? && to == from.(status := Running)
                         && !Drives(w.pc) && Drives(next.pc)
         case Dropped => from.status.AwaitingApproval? && Ended(to.status) && to.endedAt.Some?
                         && !to.status.Completed? && !Drives(next.pc) && !Drives(w.pc)
  }

  function KindOf(db: Db, w: Worker): Move
    requires WorkerOk(db, w)
  {
    var running, waiting := Wins(db, w.run, Running), Wins(db, w.run, AwaitingApproval);
    match w.pc
    case CancelCas => if running then Ends else Stays
    case FailCas => if running then Ends else Stays
    case ForgeCas => if running then Ends else Stays
    case CommitCas(cited) => if running && cited <= db.citations.Keys then Ends else Stays
    case InterruptRunning => if running then Ends else Stays
    case PauseStatus => if WritesPause(db, w) then Pauses else Stays
    case ApproveCas(_) => if waiting then Claimed else Stays
    case RejectCas => if waiting then Dropped else Stays
    case InterruptPaused => if waiting then Dropped else Stays
    case _ => Stays
  }

  lemma BoundaryMoves(db: Db, w: Worker, act: Action)
    requires TablesOk(db) && WorkerOk(db, w) && w.pc.Loop? && CanAct(w.pc, act)
    ensures var out := AtBoundary(db, w, act); Moves(db, w, out.db, out.worker, KindOf(db, w))
  {
  }

  lemma EmitMoves(db: Db, w: Worker)
    requires TablesOk(db) && WorkerOk(db, w) && (w.pc.Draw? || w.pc.Log? || w.pc.UserMessage? || w.pc.StoreResult?)
    ensures var out := Emit(db, w); Moves(db, w, out.db, out.worker, KindOf(db, w))
  {
  }

  lemma LeaveMoves(db: Db, w: Worker, now: int)
    requires TablesOk(db) && WorkerOk(db, w)
    requires w.pc.CancelCells? || w.pc.CancelCas? || w.pc.PauseStatus? || w.pc.PauseCells? || w.pc.FailCas?
              || w.pc.FailCells?
    ensures var out := Leave(db, w, now); Moves(db, w, out.db, out.worker, KindOf(db, w))
  {
  }

  lemma ConcludeMoves(db: Db, w: Worker, now: int)
    requires TablesOk(db) && WorkerOk(db, w) && (w.pc.Verify? || w.pc.ForgeCas? || w.pc.CommitCas?)
    ensures var out := Conclude(db, w, now); Moves(db, w, out.db, out.worker, KindOf(db, w))
  {
  }

  lemma ResumeMoves(db: Db, w: Worker, act: Action)
    requires TablesOk(db) && WorkerOk(db, w) && CanAct(w.pc, act)
    requires w.pc.Lookup? || w.pc.ReadPending? || w.pc.ApproveCas? || w.pc.ApproveCells? || w.pc.RejectCas?
             || w.pc.RejectCells? || w.pc.RejectOrphans?
    ensures var out := ResumeStep(db, w, act); Moves(db, w, out.db, out.worker, KindOf(db, w))
  {
    hide TablesOk;
  }

  lemma InterruptMoves(db: Db, w: Worker, now: int)
    requires TablesOk(db) && WorkerOk(db, w)
    requires w.pc.InterruptRunning? || w.pc.InterruptPaused? || w.pc.InterruptCells? || w.pc.InterruptOrphans?
    ensures var out := InterruptStep(db, w, now); Moves(db, w, out.db, out.worker, KindOf(db, w))
  {
  }

  lemma StepMoves(db: Db, w: Worker, act: Action)
    requires TablesOk(db) && WorkerOk(db, w) && CanAct(w.pc, act)
    ensures var out := WorkerStep(db, w, act); Moves(db, w, out.db, out.worker, KindOf(db, w))
  {
    var now := if act.Go? then act.now else 0;
    match w.pc {
      case Loop => BoundaryMoves(db, w, act);
      case Draw(_, _) => EmitMoves(db, w);
      case Log(_, _, _) => EmitMoves(db, w);
      case UserMessage => EmitMoves(db, w);
      case StoreResult(_, _, _) => EmitMoves(db, w);
      case CancelCells => LeaveMoves(db, w, now);
      case CancelCas => LeaveMoves(db, w, now);
      case PauseStatus => LeaveMoves(db, w, now);
      case PauseCells => LeaveMoves(db, w, now);
      case FailCas => LeaveMoves(db, w, now);
      case FailCells => LeaveMoves(db, w, now);
      case Verify(_) => ConcludeMoves(db, w, now);
      case ForgeCas => ConcludeMoves(db, w, now);
      case CommitCas(_) => ConcludeMoves(db, w, now);
      case InterruptRunning => InterruptMoves(db, w, now);
      case InterruptPaused => InterruptMoves(db, w, now);
      case InterruptCells => InterruptMoves(db, w, now);
      case InterruptOrphans => InterruptMoves(db, w, now);
      case PumpEnd =>
      case _ => ResumeMoves(db, w, act);
    }
  }

  /** What a step other than a worker's does: runs keep their place and at most end in error, or
  one run is opened; workers stay or crash, or one is spawned. */
  ghost predicate Quiet(s: System, step: Step, later: System) {
    && |s.db.runs| <= |later.db.runs| <= |s.db.runs| + 1
    && (forall r :: 0 <= r < |s.db.runs| ==>
          later.db.runs[r].thread == s.db.runs[r].thread
          && (later.db.runs[r].status == s.db.runs[r].status
              || (Active(s.db.runs[r].status) && later.db.runs[r].status.Error?)))
    && (|later.db.runs| > |s.db.runs| ==>
          forall r :: 0 <= r < |s.db.runs| && s.db.runs[r].thread == later.db.runs[|s.db.runs|].thread ==>
            !Active(s.db.runs[r].status))
    && |s.workers| <= |later.workers| <= |s.workers| + 1
    && (forall i :: 0 <= i < |s.workers| ==>
          later.workers[i] == s.workers[i]
          || (later.workers[i] == s.workers[i].(pc := Gone) && s.workers[i].run in later.crashed))
    && s.crashed <= later.crashed
    && (|later.db.runs| > |s.db.runs| ==> |later.workers| > |s.workers|)
    && (|later.workers| > |s.workers| ==>
          var w := later.workers[|s.workers|];
          && w.logRun == w.run < |later.db.runs|
          && (if |later.db.runs| > |s.db.runs|
              then w == Fresh(|s.db.runs|, w.thread, Draw(RunStarted, ToUserMessage))
                   && later.db.runs[|s.db.runs|].status.Running?
              else w.pc.InterruptRunning? || w.pc.InterruptPaused?
                   || (step.ResumeRun? && w == Fresh(w.run, step.thread, w.pc) && w.pc.Lookup?
                       && PausedRun(s.db, step.thread) == Some(w.run) && later.db == s.db)))
    && (forall k :: k in later.db.events ==> k in s.db.events && later.db.events[k] == s.db.events[k])
  }

  lemma StepIsQuiet(s: System, step: Step)
    requires SystemOk(s) && CanStep(s, step) && !step.Act?
    ensures Quiet(s, step, NextState(s, step))
  {
    hide TablesOk;
  }

  // ---- one driver --------------------------------------------------------

  ghost predicate OneActive(db: Db) {
    forall p, q :: 0 <= p < q < |db.runs| && db.runs[p].thread == db.runs[q].thread ==>
      !(Active(db.runs[p].status) && Active(db.runs[q].status))
  }

  predicate DrivesRun(s: System, i: WorkerId, r: RunId)
    requires i < |s.workers|
  {
    Drives(s.workers[i].pc) && s.workers[i].run == r
  }

  ghost predicate DriversOk(s: System)
    requires SystemOk(s)
  {
    forall i :: 0 <= i < |s.workers| && Drives(s.workers[i].pc) ==> MayDrive(StatusOf(s.db, s.workers[i].run))
  }

  ghost predicate OneDriver(workers: seq<Worker>) {
    forall i, j :: 0 <= i < j < |workers| && Drives(workers[i].pc) && Drives(workers[j].pc) ==>
      workers[i].run != workers[j].run
  }

  ghost predicate Driven(s: System)
    requires SystemOk(s)
  {
    OneActive(s.db) && DriversOk(s) && OneDriver(s.workers)
  }

  lemma ActKeepsOneActive(s: System, i: WorkerId, act: Action)
    requires SystemOk(s) && Driven(s) && CanStep(s, Act(i, act))
    ensures OneActive(ActStep(s, i, act).db)
  {
    StepMoves(s.db, s.workers[i], act);
  }

  lemma ActKeepsDriven(s: System, i: WorkerId, act: Action)
    requires SystemOk(s) && Driven(s) && CanStep(s, Act(i, act)) && SystemOk(ActStep(s, i, act))
    ensures Driven(ActStep(s, i, act))
  {
    hide TablesOk;
    ActKeepsOneActive(s, i, act);
    var w := s.workers[i];
    var later := ActStep(s, i, act);
    StepMoves(s.db, w, act);
    forall j | 0 <= j < |s.workers| && j != i && Drives(s.workers[j].pc)
      ensures MayDrive(StatusOf(later.db, s.workers[j].run))
    {
    }
    forall j | 0 <= j < |s.workers| && j != i && Drives(s.workers[j].pc) && Drives(later.workers[i].pc)
      ensures s.workers[j].run != later.workers[i].run
    {
    }
  }

  lemma QuietKeepsDriven(s: System, step: Step, later: System)
    requires SystemOk(s) && Driven(s) && Quiet(s, step, later) && SystemOk(later)
    ensures Driven(later)
  {
    hide TablesOk;
    assert OneActive(later.db);
    forall i | 0 <= i < |later.workers| && Drives(later.workers[i].pc)
      ensures MayDrive(later.db.runs[later.workers[i].run].status)
      ensures i < |s.workers| ==> later.workers[i] == s.workers[i]
      ensures i == |s.workers| ==> later.workers[i].run == |s.db.runs|
    {
    }
    assert forall i :: 0 <= i < |s.workers| ==> s.workers[i].run < |s.db.runs|;
  }

  lemma StepKeepsDriven(s: System, step: Step)
    requires SystemOk(s) && Driven(s) && CanStep(s, step) && SystemOk(NextState(s, step))
    ensures Driven(NextState(s, step))
  {
    hide TablesOk;
    match step {
      case Act(i, act) => ActKeepsDriven(s, i, act);
      case _ =>
        StepIsQuiet(s, step);
        QuietKeepsDriven(s, step, NextState(s, step));
    }
  }

  // ---- one answer --------------------------------------------------------

  /** Every answer belongs to a completed run, and no two to the same. */
  ghost predicate AnswersOk(db: Db)
    requires TablesOk(db)
  {
    && (forall m :: 0 <= m < |db.messages| && db.messages[m].role.Agent? ==>
          StatusOf(db, db.messages[m].run).Completed?)
    && (forall m, n :: 0 <= m < n < |db.messages| && db.messages[m].role.Agent? && db.messages[n].role.Agent? ==>
          db.messages[m].run != db.messages[n].run)
  }

  predicate Answers(db: Db, m: MessageId, r: RunId)
    requires m < |db.messages|
  {
    db.messages[m].role.Agent? && db.messages[m].run == r
  }

  ghost predicate Answered(db: Db, r: RunId) {
    exists m :: 0 <= m < |db.messages| && Answers(db, m, r)
  }

  ghost predicate CompletedAnswered(db: Db) {
    forall r :: 0 <= r < |db.runs| && db.runs[r].status.Completed? ==> Answered(db, r)
  }

  /** A worker inserts at most one cell, and an answer exactly when it completes its run. */
  lemma AnswerIffCompletes(db: Db, w: Worker, act: Action)
    requires TablesOk(db) && WorkerOk(db, w) && CanAct(w.pc, act)
    ensures var later := WorkerStep(db, w, act).db;
            && |db.messages| <= |later.messages| <= |db.messages| + 1
            && |later.runs| == |db.runs|
            && (|later.messages| == |db.messages| + 1 && later.messages[|db.messages|].role.Agent? ==>
                  w.pc.CommitCas? && Wins(db, w.run, Running) && later.messages[|db.messages|].run == w.run
                  && StatusOf(later, w.run).Completed?)
            && (!db.runs[w.run].status.Completed? && StatusOf(later, w.run).Completed? ==>
                  |later.messages| == |db.messages| + 1 && later.messages[|db.messages|].role.Agent?
                  && later.messages[|db.messages|].run == w.run)
  {
  }

  /** Completed and rejected are never left. */
  lemma CompletedAndRejectedStay(s: System, step: Step, r: RunId)
    requires SystemOk(s) && Driven(s) && CanStep(s, step) && r < |s.db.runs| && SystemOk(NextState(s, step))
    ensures var later := NextState(s, step).db;
            r < |later.runs|
            && (s.db.runs[r].status.Completed? || s.db.runs[r].status.Rejected? ==>
                  later.runs[r].status == s.db.runs[r].status)
  {
    match step {
      case Act(i, act) => StepMoves(s.db, s.workers[i], act);
      case _ =>
    }
  }

  lemma StepAddsAnswer(s: System, step: Step, r: RunId)
    requires SystemOk(s) && Driven(s) && CanStep(s, step) && SystemOk(NextState(s, step))
    requires r < |NextState(s, step).db.runs| && NextState(s, step).db.runs[r].status.Completed?
    ensures (r < |s.db.runs| && s.db.runs[r].status.Completed?)
            || (step.Act? && s.workers[step.worker].run == r && Answered(NextState(s, step).db, r))
  {
    match step {
      case Act(i, act) =>
        StepMoves(s.db, s.workers[i], act);
        AnswerIffCompletes(s.db, s.workers[i], act);
        assert |NextState(s, step).db.messages| > |s.db.messages| ==>
            Answers(NextState(s, step).db, |s.db.messages|, s.workers[i].run)
            || !NextState(s, step).db.messages[|s.db.messages|].role.Agent?;
      case _ =>
    }
  }

  lemma StepKeepsAnswered(s: System, step: Step)
    requires SystemOk(s) && Driven(s) && CanStep(s, step) && CompletedAnswered(s.db)
    requires SystemOk(NextState(s, step)) && Extends(s.db, NextState(s, step).db)
    ensures CompletedAnswered(NextState(s, step).db)
  {
    var later := NextState(s, step).db;
    forall r | 0 <= r < |later.runs| && later.runs[r].status.Completed? ensures Answered(later, r) {
      StepAddsAnswer(s, step, r);
      if r < |s.db.runs| && s.db.runs[r].status.Completed? {
        var m :| 0 <= m < |s.db.messages| && Answers(s.db, m, r);
        assert SameCell(s.db.messages[m], later.messages[m]) && Answers(later, m, r);
      }
    }
  }

  /** Only a completing worker inserts an answer. */
  lemma NewRows(s: System, step: Step)
    requires SystemOk(s) && Driven(s) && CanStep(s, step)
    requires SystemOk(NextState(s, step))
    ensures var later := NextState(s, step).db;
            && |later.messages| <= |s.db.messages| + 1
            && (|later.messages| == |s.db.messages| + 1 && later.messages[|s.db.messages|].role.Agent? ==>
                  var r := later.messages[|s.db.messages|].run;
                  r < |s.db.runs| && s.db.runs[r].status.Running? && StatusOf(later, r).Completed?)
  {
    match step {
      case Act(i, act) => AnswerIffCompletes(s.db, s.workers[i], act);
      case _ =>
    }
  }

  ghost predicate OldAnswersStay(db: Db, later: Db)
    requires TablesOk(db) && TablesOk(later)
  {
    |db.messages| <= |later.messages| && |db.runs| <= |later.runs|
    && forall m :: 0 <= m < |db.messages| ==>
         && later.messages[m].role == db.messages[m].role && later.messages[m].run == db.messages[m].run
         && (db.messages[m].role.Agent? ==> StatusOf(later, db.messages[m].run).Completed?)
  }

  ghost predicate AtMostOneNew(db: Db, later: Db)
    requires TablesOk(db) && TablesOk(later)
  {
    |later.messages| <= |db.messages| + 1
    && (|later.messages| == |db.messages| + 1 && later.messages[|db.messages|].role.Agent? ==>
          var r := later.messages[|db.messages|].run;
          r < |db.runs| && db.runs[r].status.Running? && StatusOf(later, r).Completed?)
  }

  lemma AnswersCarryOver(db: Db, later: Db)
    requires TablesOk(db) && TablesOk(later) && AnswersOk(db) && OldAnswersStay(db, later) && AtMostOneNew(db, later)
    ensures AnswersOk(later)
  {
    forall m | 0 <= m < |later.messages| && later.messages[m].role.Agent?
      ensures StatusOf(later, later.messages[m].run).Completed?
      ensures m < |db.messages| ==> db.messages[m].role.Agent? && db.messages[m].run == later.messages[m].run
      ensures m < |db.messages| ==> StatusOf(db, later.messages[m].run).Completed?
      ensures m == |db.messages| ==> later.messages[m].run < |db.runs| && StatusOf(db, later.messages[m].run).Running?
    {
    }
    hide TablesOk, OldAnswersStay, AtMostOneNew;
    forall m, n | 0 <= m < n < |later.messages| && later.messages[m].role.Agent? && later.messages[n].role.Agent?
      ensures later.messages[m].run != later.messages[n].run
    {
    }
  }

  lemma AnswersStay(s: System, step: Step)
    requires SystemOk(s) && Driven(s) && CanStep(s, step) && AnswersOk(s.db)
    requires SystemOk(NextState(s, step)) && Extends(s.db, NextState(s, step).db)
    ensures OldAnswersStay(s.db, NextState(s, step).db)
  {
    var later := NextState(s, step).db;
    assert forall m :: 0 <= m < |s.db.messages| ==> s.db.messages[m].run < |s.db.runs|;
    hide TablesOk;
    forall m | 0 <= m < |s.db.messages|
      ensures later.messages[m].role == s.db.messages[m].role && later.messages[m].run == s.db.messages[m].run
      ensures s.db.messages[m].role.Agent? ==> StatusOf(later, s.db.messages[m].run).Completed?
    {
      assert SameCell(s.db.messages[m], later.messages[m]);
      CompletedAndRejectedStay(s, step, s.db.messages[m].run);
    }
  }

  lemma StepKeepsAnswers(s: System, step: Step)
    requires SystemOk(s) && Driven(s) && CanStep(s, step) && AnswersOk(s.db)
    requires SystemOk(NextState(s, step)) && Extends(s.db, NextState(s, step).db)
    ensures AnswersOk(NextState(s, step).db)
  {
    hide TablesOk, Extends, Driven, AnswersOk;
    NewRows(s, step);
    AnswersStay(s, step);
    AnswersCarryOver(s.db, NextState(s, step).db);
  }

  // ---- one winner for each pause -----------------------------------------

  /** Every pause but the one a run is waiting in has been consumed. */
  ghost predicate PausesOk(s: System)
    requires SystemOk(s)
  {
    forall r :: 0 <= r < |s.db.runs| ==>
      s.pauses[r] == s.consumed[r] + if s.db.runs[r].status.AwaitingApproval? then 1 else 0
  }

  lemma ActKeepsPauses(s: System, i: WorkerId, act: Action)
    requires SystemOk(s) && Driven(s) && PausesOk(s) && CanStep(s, Act(i, act)) && SystemOk(ActStep(s, i, act))
    ensures PausesOk(ActStep(s, i, act))
  {
    hide TablesOk;
    StepMoves(s.db, s.workers[i], act);
  }

  lemma StepKeepsPauses(s: System, step: Step)
    requires SystemOk(s) && Driven(s) && PausesOk(s) && CanStep(s, step) && SystemOk(NextState(s, step))
    ensures PausesOk(NextState(s, step))
  {
    hide TablesOk;
    match step {
      case Act(i, act) => ActKeepsPauses(s, i, act);
      case _ =>
    }
  }

  /** What remains for a worker that lost a claim, or that has nothing left but its last events. */
  predicate Epilogue(pc: Pc) {
    match pc
    case Draw(_, next) => next.ToPumpEnd? || next.ToGone?
    case Log(_, _, next) => next.ToPumpEnd? || next.ToGone?
    case PumpEnd => true
    case Gone => true
    case _ => false
  }

  /** A worker that loses the claim of a pause changes no table, and from then on neither it nor
  its remaining events touch a run or a cell. */
  lemma LoserChangesNothing(db: Db, w: Worker, act: Action)
    requires TablesOk(db) && WorkerOk(db, w) && CanAct(w.pc, act)
    ensures Claims(w.pc) && !Wins(db, w.run, AwaitingApproval) ==>
              WorkerStep(db, w, act).db == db && Epilogue(WorkerStep(db, w, act).worker.pc)
    ensures w.pc.Lookup? && PausedRun(db, w.thread).None? ==>
              WorkerStep(db, w, act).db == db && Epilogue(WorkerStep(db, w, act).worker.pc)
    ensures Epilogue(w.pc) ==>
              var out := WorkerStep(db, w, act);
              out.db.runs == db.runs && out.db.messages == db.messages && Epilogue(out.worker.pc)
  {
  }

  // ---- the whole run -----------------------------------------------------

  ghost predicate Safe(s: System) {
    SystemOk(s) && Driven(s) && AnswersOk(s.db) && CompletedAnswered(s.db) && PausesOk(s)
  }

  lemma StepKeepsSafe(s: System, step: Step)
    requires Safe(s) && CanStep(s, step)
    ensures Safe(NextState(s, step)) && Extends(s.db, NextState(s, step).db)
  {
    StepKeepsSystem(s, step);
    StepKeepsDriven(s, step);
    StepKeepsAnswers(s, step);
    StepKeepsAnswered(s, step);
    StepKeepsPauses(s, step);
  }

  lemma {:induction false} AlwaysSafe(steps: seq<Step>)
    requires StateAfter(steps).Some?
    ensures Safe(StateAfter(steps).value)
  {
    hide TablesOk;
    if steps != [] {
      var before := StateAfter(steps[..|steps| - 1]).value;
      AlwaysSafe(steps[..|steps| - 1]);
      StepKeepsSafe(before, steps[|steps| - 1]);
    }
  }

  /** Main result, for every interleaving: a run has at most one driver and none while it is
  paused, and it has exactly one answer if it is completed and none otherwise. */
  lemma OneDriverOneAnswer(steps: seq<Step>, r: RunId)
    requires StateAfter(steps).Some? && r < |StateAfter(steps).value.db.runs|
    ensures var s := StateAfter(steps).value;
            && (forall i, j :: 0 <= i < j < |s.workers| ==> !(DrivesRun(s, i, r) && DrivesRun(s, j, r)))
            && (s.db.runs[r].status.AwaitingApproval? ==>
                  forall i :: 0 <= i < |s.workers| ==> !DrivesRun(s, i, r))
            && (s.db.runs[r].status.Completed? <==> Answered(s.db, r))
            && (forall m, n :: 0 <= m < n < |s.db.messages| ==> !(Answers(s.db, m, r) && Answers(s.db, n, r)))
  {
    AlwaysSafe(steps);
  }

  /** Main result, for every interleaving: each entry into the paused state is left by exactly one
  winner, so a run was paused as often as its pauses were consumed, and once more while it waits. */
  lemma {:induction false} ApprovalConsumedOnce(steps: seq<Step>, r: RunId)
    requires StateAfter(steps).Some? && r < |StateAfter(steps).value.db.runs|
    ensures var s := StateAfter(steps).value;
            s.pauses[r] == s.consumed[r] + if s.db.runs[r].status.AwaitingApproval? then 1 else 0
  {
    AlwaysSafe(steps);
  }
}
