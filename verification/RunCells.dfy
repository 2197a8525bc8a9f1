/** What becomes of the cells that waited when a run was decided or failed. */
module RunCells {
  import opened Store
  import opened Forks
  import opened Statements
  import opened Runs
  import opened RunSafety
  import opened RunCitations
  import opened RunChoices
  import opened RunRequests

  // ---- who may touch the cells of a run ----------------------------------

  /** The worker has ended its run and still closes the cells. */
  predicate Closes(pc: Pc) {
    pc.FailCells? || pc.RejectCells? || pc.RejectOrphans? || pc.InterruptCells? || pc.InterruptOrphans?
  }

  /** No other worker drives the run of worker `i` or closes its cells. */
  ghost predicate Alone(s: System, i: WorkerId) {
    i < |s.workers| && forall j :: 0 <= j < |s.workers| && j != i && s.workers[j].run == s.workers[i].run ==>
      !Drives(s.workers[j].pc) && !Closes(s.workers[j].pc)
  }

  /** The run of worker `i` has ended, and nobody but perhaps `i` has anything left to do with its cells. */
  ghost predicate Settled(s: System, i: WorkerId) {
    && Alone(s, i) && s.workers[i].run < |s.db.runs| && Ended(s.db.runs[s.workers[i].run].status)
    && (Closes(s.workers[i].pc) || Retired(s.workers[i].pc))
  }

  ghost predicate ClosersSettled(s: System) {
    forall i :: 0 <= i < |s.workers| && Closes(s.workers[i].pc) ==> Settled(s, i)
  }

  /** Cells come to be closed by the worker that has just ended the run. */
  lemma ClosingIsWon(db: Db, w: Worker, act: Action)
    requires TablesOk(db) && WorkerOk(db, w) && CanAct(w.pc, act)
    ensures var next := WorkerStep(db, w, act).worker;
            && (Closes(next.pc) ==> Closes(w.pc) || (KindOf(db, w).Ends? && Drives(w.pc)) || KindOf(db, w).Dropped?)
            && (Closes(w.pc) ==> (Closes(next.pc) || Retired(next.pc)) && next.run == w.run && KindOf(db, w).Stays?)
  {
    hide TablesOk;
  }

  lemma ActKeepsAlone(s: System, i: WorkerId, j: WorkerId, act: Action)
    requires Safe(s) && CanStep(s, Act(j, act)) && Settled(s, i)
    ensures Settled(NextState(s, Act(j, act)), i)
  {
    hide TablesOk, WorkerStep, WorkerOk;
    WorkerActs(s, j, act);
    var w, next := s.workers[j], NextState(s, Act(j, act)).workers[j];
    StepMoves(s.db, w, act);
    ClosingIsWon(s.db, w, act);
    if Retired(w.pc) { RetiredStays(s.db, w); }
    if j == i && Retired(w.pc) { RetiredForGood(s.db, w, act); }
  }

  lemma RetiredStays(db: Db, w: Worker)
    requires WorkerOk(db, w) && Retired(w.pc)
    ensures KindOf(db, w).Stays? && !Drives(w.pc) && !Closes(w.pc)
  {
  }

  lemma QuietKeepsAlone(s: System, i: WorkerId, step: Step, later: System)
    requires SystemOk(s) && Settled(s, i) && Quiet(s, step, later)
    ensures Settled(later, i)
  {
    hide TablesOk;
    assert forall j :: 0 <= j < |s.workers| ==> s.workers[j].run < |s.db.runs|;
  }

  lemma StepKeepsSettled(s: System, i: WorkerId, step: Step)
    requires Safe(s) && CanStep(s, step) && Settled(s, i)
    ensures Settled(NextState(s, step), i)
  {
    hide TablesOk, NextState, Settled, Quiet, Driven, Alone;
    match step {
      case Act(j, act) => ActKeepsAlone(s, i, j, act);
      case _ =>
        StepIsQuiet(s, step);
        QuietKeepsAlone(s, i, step, NextState(s, step));
    }
  }

  /** The winner of the move that ends a run is alone with it from then on. */
  lemma WinnerSettles(s: System, i: WorkerId, act: Action)
    requires Safe(s) && ClosersSettled(s) && CanStep(s, Act(i, act))
    requires !Closes(s.workers[i].pc) && Closes(NextState(s, Act(i, act)).workers[i].pc)
    ensures Settled(NextState(s, Act(i, act)), i)
  {
    hide TablesOk, WorkerStep;
    WorkerActs(s, i, act);
    var w := s.workers[i];
    StepMoves(s.db, w, act);
    ClosingIsWon(s.db, w, act);
    forall j | 0 <= j < |s.workers| && j != i && s.workers[j].run == w.run
      ensures !Drives(s.workers[j].pc) && !Closes(s.workers[j].pc)
    {
    }
  }

  lemma StepKeepsClosers(s: System, step: Step)
    requires Safe(s) && ClosersSettled(s) && CanStep(s, step)
    ensures ClosersSettled(NextState(s, step))
  {
    hide TablesOk, NextState, Settled, Driven, Alone, Closes;
    var later := NextState(s, step);
    forall i | 0 <= i < |later.workers| && Closes(later.workers[i].pc) ensures Settled(later, i) {
      if i < |s.workers| && Closes(s.workers[i].pc) {
        StepKeepsSettled(s, i, step);
      } else {
        NewCloser(s, step, i);
        WinnerSettles(s, i, step.act);
      }
    }
  }

  lemma NewCloser(s: System, step: Step, i: WorkerId)
    requires SystemOk(s) && CanStep(s, step) && i < |NextState(s, step).workers|
    requires Closes(NextState(s, step).workers[i].pc) && (i < |s.workers| ==> !Closes(s.workers[i].pc))
    ensures i < |s.workers| && step.Act? && step.worker == i
  {
    hide TablesOk, NextState;
    if i >= |s.workers| {
      WorkerSpawned(s, step, i);
    } else if !(step.Act? && step.worker == i) {
      OthersStand(s, step, i);
    }
  }

  lemma {:induction false} AlwaysSettled(steps: seq<Step>)
    requires StateAfter(steps).Some?
    ensures ClosersSettled(StateAfter(steps).value)
  {
    hide StateAfter, NextState, CanStep, Safe, Closes;
    if steps == [] {
      Nobody();
    } else {
      LastOf(steps);
      AlwaysSettled(steps[..|steps| - 1]);
      AlwaysSafe(steps[..|steps| - 1]);
      StepKeepsClosers(StateAfter(steps[..|steps| - 1]).value, steps[|steps| - 1]);
    }
  }

  // ---- what others do to the cells ---------------------------------------

  /** A worker that neither drives nor closes at most marks empty cells of its run as waiting, and no
  worker touches a cell of another run. */
  lemma WorkerTouches(db: Db, w: Worker, act: Action, k: MessageId)
    requires TablesOk(db) && WorkerOk(db, w) && CanAct(w.pc, act) && k < |db.messages|
    ensures var later := WorkerStep(db, w, act).db;
            && k < |later.messages|
            && (db.messages[k].run != w.run ==> later.messages[k] == db.messages[k])
            && (!Drives(w.pc) && !Closes(w.pc) ==>
                  later.messages[k] == if w.pc.PauseCells? && Empty(db.messages[k], w.run)
                                       then db.messages[k].(approval := Some(Pending)) else db.messages[k])
  {
    hide TablesOk;
  }

  predicate MarksLate(s: System, step: Step, r: RunId) {
    step.Act? && step.worker < |s.workers| && s.workers[step.worker].run == r && s.workers[step.worker].pc.PauseCells?
  }

  predicate SweepsRun(s: System, step: Step, r: RunId) {
    step.SweepRuns? && r < |s.db.runs| && r in step.stale && s.db.runs[r].status == step.from
  }

  /** While worker `i` is alone with its run, others at most mark the empty cells as waiting, or sweep the run. */
  lemma OthersTouch(s: System, step: Step, i: WorkerId, k: MessageId)
    requires SystemOk(s) && CanStep(s, step) && Alone(s, i) && !(step.Act? && step.worker == i)
    requires k < |s.db.messages| && s.db.messages[k].run == s.workers[i].run
    ensures var later, r, m := NextState(s, step), s.workers[i].run, s.db.messages[k];
            && k < |later.db.messages|
            && later.db.messages[k] ==
               if Empty(m, r) && MarksLate(s, step, r) then m.(approval := Some(Pending))
               else if Empty(m, r) && SweepsRun(s, step, r) then m.(result := Some(INTERRUPTED_TOOL))
               else m
  {
    hide TablesOk, WorkerStep, WorkerOk;
    match step {
      case Act(j, act) =>
        WorkerActs(s, j, act);
        WorkerTouches(s.db, s.workers[j], act, k);
      case _ =>
    }
  }

  // ---- the decision reaches the cells ------------------------------------

  predicate MovesStatus(db: Db, later: Db, r: RunId) {
    r < |db.runs| && r < |later.runs| && later.runs[r].status != db.runs[r].status
  }

  ghost function EmptyCells(db: Db, r: RunId): set<MessageId> {
    set k: MessageId | k < |db.messages| && Empty(db.messages[k], r)
  }

  /** The cells that were empty when worker `i` last changed the status of its run. */
  ghost function Waiting(steps: seq<Step>, i: WorkerId): set<MessageId>
    requires StateAfter(steps).Some?
  {
    if steps == [] then {}
    else
      var front, last := steps[..|steps| - 1], steps[|steps| - 1];
      var s, later := StateAfter(front).value, StateAfter(steps).value;
      if last.Act? && last.worker == i && MovesStatus(s.db, later.db, s.workers[i].run)
      then EmptyCells(s.db, s.workers[i].run)
      else Waiting(front, i)
  }

  /** The step that answers the cells for good. */
  predicate Answering(pc: Pc) {
    pc.FailCells? || pc.RejectOrphans? || pc.InterruptOrphans?
  }

  predicate Refusing(pc: Pc) {
    pc.RejectCells? || pc.InterruptCells?
  }

  predicate BetweenMarks(pc: Pc) {
    pc.RejectOrphans? || pc.InterruptOrphans?
  }

  /** Worker `i` has answered the cells of its run. */
  predicate HasAnswered(steps: seq<Step>, i: WorkerId)
    requires StateAfter(steps).Some?
  {
    steps != []
    && var front, last := steps[..|steps| - 1], steps[|steps| - 1];
       HasAnswered(front, i)
       || (last.Act? && last.worker == i && Answering(StateAfter(front).value.workers[i].pc))
  }

  /** Between refusing and answering the cells by worker `i`, the worker that had paused the run marked them
  as waiting: its pause had been written and decided before it came to its cells. */
  predicate LateMark(steps: seq<Step>, i: WorkerId)
    requires StateAfter(steps).Some?
  {
    steps != []
    && var front, last := steps[..|steps| - 1], steps[|steps| - 1];
       var s := StateAfter(front).value;
       i < |s.workers| && !(last.Act? && last.worker == i && Refusing(s.workers[i].pc))
       && (LateMark(front, i) || (BetweenMarks(s.workers[i].pc) && MarksLate(s, last, s.workers[i].run)))
  }

  datatype Fate = Fate(late: bool, answered: bool, rejected: bool, failed: bool) {
    function Marker(): string {
      if rejected then REJECTED_TOOL else INTERRUPTED_TOOL
    }

    function Mark(): Approval {
      if late then Pending else Refused
    }
  }

  function FateOf(steps: seq<Step>, i: WorkerId): Fate
    requires StateAfter(steps).Some?
  {
    var failed := LastChoice(steps, i).Some?;
    Fate(LateMark(steps, i), HasAnswered(steps, i), RequestOf(steps, i).Some? && !failed, failed)
  }

  /** How a cell that waited looks at the places between the decision and its end. */
  ghost predicate CellFits(s: System, i: WorkerId, k: MessageId, fate: Fate) {
    i < |s.workers|
    && var w := s.workers[i];
       (Closes(w.pc) || w.pc.ApproveCells? || fate.answered ==>
          k < |s.db.messages| && s.db.messages[k].run == w.run < |s.db.runs|
          && var m := s.db.messages[k];
             m.role.Tool?
             && if fate.answered then m.result == Some(fate.Marker())
                 && (!fate.failed ==> m.approval == Some(fate.Mark()))
                else if w.pc.ApproveCells? then
                  m.result.None? || (m.result == Some(INTERRUPTED_TOOL) && s.db.runs[w.run].status.Error?)
                else m.result.None? && (BetweenMarks(w.pc) ==> m.approval == Some(fate.Mark())))
  }

  lemma OthersKeepCell(s: System, step: Step, i: WorkerId, k: MessageId, fate: Fate)
    requires SystemOk(s) && CanStep(s, step) && CellFits(s, i, k, fate) && !(step.Act? && step.worker == i)
    requires Closes(s.workers[i].pc) || fate.answered ==> Settled(s, i)
    requires fate.answered ==> Retired(s.workers[i].pc)
    requires s.workers[i].pc.ApproveCells? ==> Alone(s, i)
    ensures var late := fate.late || (BetweenMarks(s.workers[i].pc) && MarksLate(s, step, s.workers[i].run));
            CellFits(NextState(s, step), i, k, fate.(late := late))
  {
    hide TablesOk, NextState, WorkerStep, WorkerOk;
    OthersStand(s, step, i);
    var w := s.workers[i];
    if Closes(w.pc) || w.pc.ApproveCells? || fate.answered {
      OthersTouch(s, step, i, k);
      ErrorStays(s, step, i);
    }
  }

  lemma ErrorStays(s: System, step: Step, i: WorkerId)
    requires SystemOk(s) && CanStep(s, step) && Alone(s, i) && !(step.Act? && step.worker == i)
    ensures s.workers[i].run < |s.db.runs| <= |NextState(s, step).db.runs|
    ensures s.db.runs[s.workers[i].run].status.Error? || SweepsRun(s, step, s.workers[i].run) ==>
              NextState(s, step).db.runs[s.workers[i].run].status.Error?
  {
    hide TablesOk, WorkerStep;
    match step {
      case Act(j, act) =>
        WorkerActs(s, j, act);
        StepMoves(s.db, s.workers[j], act);
        WorkerStepRuns(s.db, s.workers[j], act);
      case _ =>
    }
  }

  lemma Entrances(db: Db, w: Worker, act: Action)
    requires TablesOk(db) && WorkerOk(db, w) && CanAct(w.pc, act)
    ensures var next := WorkerStep(db, w, act).worker;
            && (BetweenMarks(next.pc) ==> Refusing(w.pc))
            && (next.pc.ApproveCells? ==> w.pc.ApproveCas? && KindOf(db, w).Claimed?)
  {
    hide TablesOk;
  }

  /** The places where waiting cells are decided on are entered by winning. */
  lemma EntersByWinning(db: Db, w: Worker, act: Action)
    requires TablesOk(db) && WorkerOk(db, w) && CanAct(w.pc, act) && !Closes(w.pc)
    ensures var out := WorkerStep(db, w, act);
            Closes(out.worker.pc) || out.worker.pc.ApproveCells? ==>
              MovesStatus(db, out.db, w.run) && out.worker.run == w.run && !BetweenMarks(out.worker.pc)
  {
    hide TablesOk, WorkerStep;
    Entrances(db, w, act);
    ClosingIsWon(db, w, act);
    StepMoves(db, w, act);
  }

  lemma MovingKeepsCells(db: Db, w: Worker, act: Action)
    requires TablesOk(db) && WorkerOk(db, w) && CanAct(w.pc, act) && MovesStatus(db, WorkerStep(db, w, act).db, w.run)
    ensures var out := WorkerStep(db, w, act);
            && |db.messages| <= |out.db.messages| && out.worker.run == w.run && !Retired(w.pc)
            && !Closes(w.pc) && !w.pc.ApproveCells?
            && forall k :: 0 <= k < |db.messages| ==> out.db.messages[k] == db.messages[k]
  {
    hide TablesOk;
  }

  lemma WinnerFindsCells(s: System, i: WorkerId, act: Action, k: MessageId, fate: Fate)
    requires SystemOk(s) && CanStep(s, Act(i, act)) && !fate.answered
    requires MovesStatus(s.db, NextState(s, Act(i, act)).db, s.workers[i].run)
              && k in EmptyCells(s.db, s.workers[i].run)
    ensures CellFits(NextState(s, Act(i, act)), i, k, fate)
  {
    hide TablesOk, NextState, WorkerStep;
    WorkerActs(s, i, act);
    MovingKeepsCells(s.db, s.workers[i], act);
    EntersByWinning(s.db, s.workers[i], act);
  }

  /** What the closing steps do to an empty cell of their run. */
  lemma CloserTouches(db: Db, w: Worker, act: Action, k: MessageId)
    requires TablesOk(db) && WorkerOk(db, w) && CanAct(w.pc, act) && Closes(w.pc) && k < |db.messages|
    requires Empty(db.messages[k], w.run)
    ensures var out, m := WorkerStep(db, w, act), db.messages[k];
            && k < |out.db.messages| && out.worker.run == w.run && |out.db.runs| == |db.runs|
            && out.db.messages[k] == (if Refusing(w.pc) then m.(approval := Some(Refused))
                                      else if w.pc.RejectOrphans? then m.(result := Some(REJECTED_TOOL))
                                      else m.(result := Some(INTERRUPTED_TOOL)))
            && (Refusing(w.pc) ==> BetweenMarks(out.worker.pc))
            && (Answering(w.pc) ==> Retired(out.worker.pc))
  {
    hide TablesOk;
  }

  /** A worker's own step that moves no status: `next` is its fate after the step. */
  lemma OwnStepKeepsCell(s: System, i: WorkerId, act: Action, k: MessageId, fate: Fate, next: Fate)
    requires SystemOk(s) && CanStep(s, Act(i, act)) && CellFits(s, i, k, fate)
    requires !MovesStatus(s.db, NextState(s, Act(i, act)).db, s.workers[i].run)
    requires fate.answered ==> Retired(s.workers[i].pc)
    requires next.answered == (fate.answered || Answering(s.workers[i].pc))
    requires next.late == (fate.late && !Refusing(s.workers[i].pc))
    requires Closes(s.workers[i].pc) || fate.answered ==> next.failed == fate.failed && next.rejected == fate.rejected
    requires s.workers[i].pc.FailCells? ==> fate.failed && !fate.rejected
    requires s.workers[i].pc.RejectOrphans? ==> fate.rejected && !fate.failed
    requires s.workers[i].pc.InterruptOrphans? ==> !fate.rejected && !fate.failed
    ensures CellFits(NextState(s, Act(i, act)), i, k, next)
  {
    hide TablesOk, NextState, WorkerStep;
    WorkerActs(s, i, act);
    var w := s.workers[i];
    WorkerStepRuns(s.db, w, act);
    if Closes(w.pc) {
      CloserTouches(s.db, w, act, k);
    } else if fate.answered {
      RetiredStays(s.db, w);
      RetiredForGood(s.db, w, act);
      WorkerTouches(s.db, w, act, k);
    } else {
      EntersByWinning(s.db, w, act);
    }
  }

  // ---- every history -----------------------------------------------------

  lemma {:induction false} AnsweredIsSettled(steps: seq<Step>, i: WorkerId)
    requires StateAfter(steps).Some? && HasAnswered(steps, i)
    ensures i < |StateAfter(steps).value.workers| && Retired(StateAfter(steps).value.workers[i].pc)
    ensures Settled(StateAfter(steps).value, i)
  {
    hide StateAfter, NextState, CanStep, SystemOk, Safe, Settled, WorkerStep, TablesOk, WorkerOk;
    LastOf(steps);
    var front, last := steps[..|steps| - 1], steps[|steps| - 1];
    var s := StateAfter(front).value;
    AlwaysSafe(front);
    if HasAnswered(front, i) {
      AnsweredIsSettled(front, i);
      RetiredSurvives(s, last, i);
    } else {
      AlwaysSettled(front);
      AnswererRetires(s, i, last.act);
    }
    StepKeepsSettled(s, i, last);
  }

  lemma RetiredSurvives(s: System, step: Step, i: WorkerId)
    requires SystemOk(s) && CanStep(s, step) && i < |s.workers| && Retired(s.workers[i].pc)
    ensures i < |NextState(s, step).workers| && Retired(NextState(s, step).workers[i].pc)
  {
    hide TablesOk, NextState, WorkerStep;
    if step.Act? && step.worker == i {
      WorkerActs(s, i, step.act);
      RetiredForGood(s.db, s.workers[i], step.act);
    } else {
      OthersStand(s, step, i);
    }
  }

  lemma AnswererRetires(s: System, i: WorkerId, act: Action)
    requires SystemOk(s) && CanStep(s, Act(i, act)) && Answering(s.workers[i].pc)
    ensures i < |s.workers| == |NextState(s, Act(i, act)).workers|
    ensures Closes(s.workers[i].pc) && Retired(NextState(s, Act(i, act)).workers[i].pc)
  {
    hide TablesOk, NextState, WorkerStep;
    WorkerActs(s, i, act);
    AnsweringEnds(s.db, s.workers[i], act);
  }

  lemma AnsweringEnds(db: Db, w: Worker, act: Action)
    requires TablesOk(db) && WorkerOk(db, w) && CanAct(w.pc, act) && Answering(w.pc)
    ensures Retired(WorkerStep(db, w, act).worker.pc)
  {
    hide TablesOk;
  }

  lemma {:induction false} NothingWaitsYet(steps: seq<Step>, i: WorkerId)
    requires StateAfter(steps).Some? && i >= |StateAfter(steps).value.workers|
    ensures Waiting(steps, i) == {}
  {
    hide StateAfter, NextState, CanStep, SystemOk, MovesStatus, EmptyCells;
    if steps != [] {
      LastOf(steps);
      WorkersRemain(StateAfter(steps[..|steps| - 1]).value, steps[|steps| - 1]);
      NothingWaitsYet(steps[..|steps| - 1], i);
    }
  }

  lemma DriverIsAlone(s: System, i: WorkerId)
    requires Safe(s) && ClosersSettled(s) && i < |s.workers| && Drives(s.workers[i].pc)
    ensures Alone(s, i)
  {
    hide TablesOk, Drives, Closes;
  }

  lemma FateUnfolds(steps: seq<Step>, i: WorkerId)
    requires steps != [] && StateAfter(steps).Some?
    ensures StateAfter(steps[..|steps| - 1]).Some?
    ensures var front, last := steps[..|steps| - 1], steps[|steps| - 1];
            var s, fate, next := StateAfter(front).value, FateOf(front, i), FateOf(steps, i);
            i < |s.workers| ==>
              var own, pc := last.Act? && last.worker == i, s.workers[i].pc;
              && next.answered == (fate.answered || (own && Answering(pc)))
              && next.late == (!(own && Refusing(pc))
                               && (fate.late || (BetweenMarks(pc) && MarksLate(s, last, s.workers[i].run))))
              && (!(own && pc.Loop?) ==> next.failed == fate.failed && next.rejected == fate.rejected)
              && fate.failed == LastChoice(front, i).Some?
              && fate.rejected == (RequestOf(front, i).Some? && !fate.failed)
  {
    hide NextState, SystemOk;
  }

  lemma OwnStepFits(steps: seq<Step>, i: WorkerId, k: MessageId)
    requires steps != [] && StateAfter(steps).Some? && StateAfter(steps[..|steps| - 1]).Some?
    requires steps[|steps| - 1].Act? && steps[|steps| - 1].worker == i
    requires i < |StateAfter(steps[..|steps| - 1]).value.workers| && k in Waiting(steps, i)
    requires k in Waiting(steps[..|steps| - 1], i) ==>
               CellFits(StateAfter(steps[..|steps| - 1]).value, i, k, FateOf(steps[..|steps| - 1], i))
    ensures CellFits(StateAfter(steps).value, i, k, FateOf(steps, i))
  {
    hide StateAfter, NextState, CanStep, SystemOk, CellFits, WorkerStep, FateOf, HasAnswered, LateMark, MovesStatus,
      EmptyCells, LastChoice, RequestOf, Settled, TablesOk, WorkerOk;
    LastOf(steps);
    var front, last := steps[..|steps| - 1], steps[|steps| - 1];
    var s := StateAfter(front).value;
    FateUnfolds(steps, i);
    if FateOf(front, i).answered { AnsweredSettles(front, i); }
    WorkerActs(s, i, last.act);
    if MovesStatus(s.db, StateAfter(steps).value.db, s.workers[i].run) {
      MovingKeepsCells(s.db, s.workers[i], last.act);
      WinnerFindsCells(s, i, last.act, k, FateOf(steps, i));
    } else {
      ChoicesFit(front, i);
      WaysFit(front, i);
      OwnStepKeepsCell(s, i, last.act, k, FateOf(front, i), FateOf(steps, i));
    }
  }

  lemma AnsweredSettles(steps: seq<Step>, i: WorkerId)
    requires StateAfter(steps).Some? && FateOf(steps, i).answered
    ensures i < |StateAfter(steps).value.workers| && Retired(StateAfter(steps).value.workers[i].pc)
    ensures Settled(StateAfter(steps).value, i)
  {
    AnsweredIsSettled(steps, i);
  }

  lemma OtherStepFits(steps: seq<Step>, i: WorkerId, k: MessageId)
    requires steps != [] && StateAfter(steps).Some? && StateAfter(steps[..|steps| - 1]).Some?
    requires !(steps[|steps| - 1].Act? && steps[|steps| - 1].worker == i)
    requires i < |StateAfter(steps[..|steps| - 1]).value.workers|
    requires CellFits(StateAfter(steps[..|steps| - 1]).value, i, k, FateOf(steps[..|steps| - 1], i))
    ensures CellFits(StateAfter(steps).value, i, k, FateOf(steps, i))
  {
    hide StateAfter, NextState, CanStep, SystemOk, CellFits, WorkerStep, FateOf, HasAnswered, LateMark, Safe,
      LastChoice, RequestOf, Settled, Alone, TablesOk, WorkerOk, MarksLate;
    LastOf(steps);
    var front, last := steps[..|steps| - 1], steps[|steps| - 1];
    var s := StateAfter(front).value;
    AlwaysSafe(front);
    AlwaysSettled(front);
    FateUnfolds(steps, i);
    if FateOf(front, i).answered { AnsweredSettles(front, i); }
    if s.workers[i].pc.ApproveCells? { DriverIsAlone(s, i); }
    var fate, next := FateOf(front, i), FateOf(steps, i);
    OthersKeepCell(s, last, i, k, fate);
    var late := fate.late || (BetweenMarks(s.workers[i].pc) && MarksLate(s, last, s.workers[i].run));
    assert next == fate.(late := late);
  }

  lemma {:induction false} CellsFit(steps: seq<Step>, i: WorkerId, k: MessageId)
    requires StateAfter(steps).Some? && i < |StateAfter(steps).value.workers| && k in Waiting(steps, i)
    ensures CellFits(StateAfter(steps).value, i, k, FateOf(steps, i))
  {
    hide StateAfter, NextState, CanStep, SystemOk, CellFits, FateOf, MovesStatus, EmptyCells;
    LastOf(steps);
    var front, last := steps[..|steps| - 1], steps[|steps| - 1];
    if i >= |StateAfter(front).value.workers| {
      NothingWaitsYet(front, i);
      NothingWaitsStill(steps, i);
    } else if last.Act? && last.worker == i {
      if k in Waiting(front, i) { CellsFit(front, i, k); }
      OwnStepFits(steps, i, k);
    } else {
      CellsFit(front, i, k);
      OtherStepFits(steps, i, k);
    }
  }

  lemma NothingWaitsStill(steps: seq<Step>, i: WorkerId)
    requires steps != [] && StateAfter(steps).Some? && StateAfter(steps[..|steps| - 1]).Some?
    requires i >= |StateAfter(steps[..|steps| - 1]).value.workers| && Waiting(steps[..|steps| - 1], i) == {}
    ensures Waiting(steps, i) == {}
  {
    LastOf(steps);
    var front, last := steps[..|steps| - 1], steps[|steps| - 1];
    hide StateAfter, NextState, SystemOk, MovesStatus, EmptyCells;
    WorkersRemain(StateAfter(front).value, last);
  }

  // ---- main results ------------------------------------------------------

  /** Main result, for every interleaving: when a worker has turned a run down or stopped a paused one and
  has gone through with it, each cell that waited at its decision is answered with the marker for a
  rejection or an interruption and stays so, and it is marked as refused unless the worker that had
  paused the run came late to its own marking. */
  lemma {:induction false} RefusalReachesCells(steps: seq<Step>, i: WorkerId, k: MessageId)
    requires StateAfter(steps).Some? && HasAnswered(steps, i) && LastChoice(steps, i).None? && k in Waiting(steps, i)
    ensures i < |StateAfter(steps).value.workers| && k < |StateAfter(steps).value.db.messages|
    ensures var s := StateAfter(steps).value;
            && s.db.messages[k].run == s.workers[i].run < |s.db.runs| && Ended(s.db.runs[s.workers[i].run].status)
            && s.db.messages[k].result == Some(if RequestOf(steps, i).Some? then REJECTED_TOOL else INTERRUPTED_TOOL)
            && (s.db.messages[k].approval == Some(Refused) <==> !LateMark(steps, i))
            && (LateMark(steps, i) ==> s.db.messages[k].approval == Some(Pending))
  {
    hide StateAfter, HasAnswered, LateMark, LastChoice, RequestOf, Waiting, TablesOk;
    assert FateOf(steps, i).answered;
    AnsweredSettles(steps, i);
    CellsFit(steps, i, k);
  }

  /** Main result, for every interleaving: when a driver has failed its run, each cell that was empty then
  is answered with the marker for an interruption and stays so. */
  lemma {:induction false} FailureReachesCells(steps: seq<Step>, i: WorkerId, k: MessageId)
    requires StateAfter(steps).Some? && HasAnswered(steps, i) && LastChoice(steps, i).Some? && k in Waiting(steps, i)
    ensures i < |StateAfter(steps).value.workers| && k < |StateAfter(steps).value.db.messages|
    ensures var s := StateAfter(steps).value;
            && s.db.messages[k].run == s.workers[i].run < |s.db.runs| && Ended(s.db.runs[s.workers[i].run].status)
            && s.db.messages[k].result == Some(INTERRUPTED_TOOL)
  {
    hide StateAfter, HasAnswered, LateMark, LastChoice, RequestOf, Waiting, TablesOk;
    assert FateOf(steps, i).answered;
    AnsweredSettles(steps, i);
    CellsFit(steps, i, k);
  }

  /** Main result, for every interleaving: when an approved resume marks the cells of its run, each cell that
  waited at its claim is approved and stays empty, or refused with the marker if a selective approval
  left it out; only a sweep in between may have answered it. */
  lemma {:induction false} ApprovalReachesCells(steps: seq<Step>, i: WorkerId, act: Action, k: MessageId)
    requires StateAfter(steps).Some? && CanStep(StateAfter(steps).value, Act(i, act))
    requires StateAfter(steps).value.workers[i].pc.ApproveCells? && k in Waiting(steps, i)
    ensures k < |StateAfter(steps).value.db.messages|
    ensures k < |NextState(StateAfter(steps).value, Act(i, act)).db.messages|
    ensures var s, later := StateAfter(steps).value, NextState(StateAfter(steps).value, Act(i, act));
            var m, n := s.db.messages[k], later.db.messages[k];
            && (RequestOf(steps, i) == Some(Approve) <==> !act.Refuse?)
            && later.workers[i].pc.Loop?
            && if m.result.None?
               then n == if act.Refuse? && m.callId.Some? && m.callId.value in act.rejected
                         then m.(approval := Some(Refused), result := Some(REJECTED_TOOL))
                         else m.(approval := Some(Approved))
               else m.result == Some(INTERRUPTED_TOOL) && m.run < |s.db.runs| && s.db.runs[m.run].status.Error?
  {
    hide StateAfter, HasAnswered, LateMark, LastChoice, RequestOf, Found, Waiting, TablesOk, WorkerStep;
    var s := StateAfter(steps).value;
    WorkerActs(s, i, act);
    if FateOf(steps, i).answered { AnsweredSettles(steps, i); }
    CellsFit(steps, i, k);
    WaysFit(steps, i);
    Approving(s.db, s.workers[i], act, k);
  }

  lemma Approving(db: Db, w: Worker, act: Action, k: MessageId)
    requires TablesOk(db) && WorkerOk(db, w) && CanAct(w.pc, act) && w.pc.ApproveCells? && k < |db.messages|
    requires db.messages[k].run == w.run && db.messages[k].role.Tool?
    ensures var out, m := WorkerStep(db, w, act), db.messages[k];
            && k < |out.db.messages| && out.worker.pc.Loop?
            && (m.result.None? ==>
                  out.db.messages[k] == if act.Refuse? && m.callId.Some? && m.callId.value in act.rejected
                                        then m.(approval := Some(Refused), result := Some(REJECTED_TOOL))
                                        else m.(approval := Some(Approved)))
  {
    hide TablesOk;
  }

  // ---- what drivers do to the cells --------------------------------------

  /** The complete list of what a driver does to a cell of its run, besides marking after an approval. */
  lemma DriverTouches(db: Db, w: Worker, act: Action, k: MessageId)
    requires TablesOk(db) && WorkerOk(db, w) && CanAct(w.pc, act) && Drives(w.pc) && !w.pc.ApproveCells?
    requires k < |db.messages| && db.messages[k].run == w.run
    ensures var later, m := WorkerStep(db, w, act).db, db.messages[k];
            && k < |later.messages|
            && later.messages[k] == if w.pc.CancelCells? && Empty(m, w.run) then m.(result := Some(INTERRUPTED_TOOL))
                                    else if w.pc.StoreResult? && m.callId == Some(w.pc.callId)
                                    then m.(result := Some(w.pc.result)) else m
  {
    hide TablesOk;
  }

  ghost predicate NoneEmpty(db: Db, r: RunId) {
    forall k :: 0 <= k < |db.messages| ==> !Empty(db.messages[k], r)
  }

  /** A worker that does not drive the run adds no cell to it. */
  lemma InsertsOnlyDriving(db: Db, w: Worker, act: Action)
    requires TablesOk(db) && WorkerOk(db, w) && CanAct(w.pc, act)
    ensures var later := WorkerStep(db, w, act).db;
            && |db.messages| <= |later.messages| <= |db.messages| + 1
            && (|later.messages| > |db.messages| ==>
                  Drives(w.pc) && !w.pc.CancelCells? && later.messages[|db.messages|].run == w.run)
  {
    hide TablesOk, WorkerStep;
    StepInserts(db, w, act);
  }

  lemma OthersLeaveNoneEmpty(s: System, step: Step, i: WorkerId)
    requires SystemOk(s) && CanStep(s, step) && Alone(s, i) && !(step.Act? && step.worker == i)
    requires NoneEmpty(s.db, s.workers[i].run)
    ensures NoneEmpty(NextState(s, step).db, s.workers[i].run)
  {
    hide TablesOk, NextState, WorkerStep;
    var later, r := NextState(s, step), s.workers[i].run;
    OldRows(s, step);
    forall k: MessageId | k < |later.db.messages| ensures !Empty(later.db.messages[k], r) {
      if k < |s.db.messages| {
        if s.db.messages[k].run == r { OthersTouch(s, step, i, k); }
      } else if step.Act? {
        WorkerActs(s, step.worker, step.act);
        InsertsOnlyDriving(s.db, s.workers[step.worker], step.act);
      } else {
        QuietStep(s, step);
      }
    }
  }

  lemma OldRows(s: System, step: Step)
    requires SystemOk(s) && CanStep(s, step)
    ensures |s.db.messages| <= |NextState(s, step).db.messages|
    ensures forall k :: 0 <= k < |s.db.messages| ==> SameCell(s.db.messages[k], NextState(s, step).db.messages[k])
  {
    hide TablesOk, NextState;
    StepKeepsSystem(s, step);
  }

  lemma CancellingLeavesNoneEmpty(db: Db, w: Worker, act: Action)
    requires TablesOk(db) && WorkerOk(db, w) && CanAct(w.pc, act) && (w.pc.CancelCells? || w.pc.CancelCas?)
    requires w.pc.CancelCas? ==> NoneEmpty(db, w.run)
    ensures NoneEmpty(WorkerStep(db, w, act).db, w.run) && WorkerStep(db, w, act).worker.run == w.run
    ensures w.pc.CancelCells? <==> WorkerStep(db, w, act).worker.pc.CancelCas?
  {
    hide TablesOk;
  }

  lemma CancelComesFromCells(db: Db, w: Worker, act: Action)
    requires TablesOk(db) && WorkerOk(db, w) && CanAct(w.pc, act) && WorkerStep(db, w, act).worker.pc.CancelCas?
    ensures w.pc.CancelCells?
  {
    hide TablesOk;
  }

  lemma {:induction false} CancellingIsClosed(steps: seq<Step>, i: WorkerId)
    requires StateAfter(steps).Some? && i < |StateAfter(steps).value.workers|
              && StateAfter(steps).value.workers[i].pc.CancelCas?
    ensures NoneEmpty(StateAfter(steps).value.db, StateAfter(steps).value.workers[i].run)
  {
    hide StateAfter, NextState, CanStep, SystemOk, Safe, TablesOk, WorkerStep, WorkerOk, NoneEmpty, Alone;
    if steps == [] {
      Nobody();
    } else {
      LastOf(steps);
      var front, last := steps[..|steps| - 1], steps[|steps| - 1];
      var s := StateAfter(front).value;
      if last.Act? && last.worker == i {
        WorkerActs(s, i, last.act);
        CancelComesFromCells(s.db, s.workers[i], last.act);
        CancellingLeavesNoneEmpty(s.db, s.workers[i], last.act);
      } else if i < |s.workers| {
        OthersStand(s, last, i);
        CancellingIsClosed(front, i);
        AlwaysSafe(front);
        AlwaysSettled(front);
        DriverIsAlone(s, i);
        OthersLeaveNoneEmpty(s, last, i);
      } else {
        WorkerSpawned(s, last, i);
      }
    }
  }

  /** Main result, for every interleaving: when a driver's cancel ends its run, no tool cell of the run is
  left without a result. */
  lemma {:induction false} CancelReachesCells(steps: seq<Step>, i: WorkerId, act: Action)
    requires StateAfter(steps).Some? && CanStep(StateAfter(steps).value, Act(i, act))
    requires StateAfter(steps).value.workers[i].pc.CancelCas?
    ensures var s, later := StateAfter(steps).value, NextState(StateAfter(steps).value, Act(i, act));
            var r := s.workers[i].run;
            && r < |s.db.runs| && r < |later.db.runs| && LastChoice(steps, i) == Some(Cancel)
            && NoneEmpty(later.db, r)
            && var before := s.db.runs[r].status;
               later.db.runs[r].status.Interrupted? <==> before.Running? || before.Interrupted?
  {
    hide StateAfter, LastChoice, TablesOk, WorkerStep, NoneEmpty;
    var s := StateAfter(steps).value;
    WorkerActs(s, i, act);
    ChoicesFit(steps, i);
    CancellingIsClosed(steps, i);
    CancellingLeavesNoneEmpty(s.db, s.workers[i], act);
    StepMoves(s.db, s.workers[i], act);
    if !KindOf(s.db, s.workers[i]).Stays? { MoveGives(s.db, s.workers[i], act); }
  }
}
