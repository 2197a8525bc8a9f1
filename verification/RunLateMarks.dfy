/** A reachable history in which the marking of a pause comes late: the run is stopped between the two
writes of its pause, and its answered cell keeps the mark of a waiting one. */
module RunLateMarks {
  import opened Store
  import opened Forks
  import opened Runs
  import opened RunSafety
  import opened RunTerminals
  import opened RunWitnesses
  import opened RunChoices
  import opened RunRequests
  import opened RunCells

  /** One thread and one run with its driver `pc`, and a cell of the run as the last row. */
  ghost predicate Scene(s: System, status: Status, pc: Pc, cell: Message) {
    && SystemOk(s) && |s.db.runs| == 1 && s.db.runs[0].thread == 0 && s.db.runs[0].status == status
    && |s.workers| >= 1 && s.workers[0].run == 0 && s.workers[0].logRun == 0 && s.workers[0].thread == 0
    && s.workers[0].pc == pc && s.db.messages != [] && s.db.messages[|s.db.messages| - 1] == cell && cell.run == 0
  }

  ghost predicate Interrupter(s: System, pc: Pc) {
    |s.workers| == 2 && s.workers[1].run == 0 && s.workers[1].thread == 0 && s.workers[1].pc == pc
  }

  lemma Adds(steps: seq<Step>, step: Step)
    requires StateAfter(steps).Some? && CanStep(StateAfter(steps).value, step)
    ensures (steps + [step])[..|steps|] == steps && (steps + [step])[|steps|] == step
    ensures StateAfter(steps + [step]) == Some(NextState(StateAfter(steps).value, step))
    ensures SystemOk(NextState(StateAfter(steps).value, step))
  {
    hide SystemOk, NextState, CanStep;
  }

  lemma CallsTool(s: System) returns (cell: Message)
    requires SystemOk(s) && |s.db.runs| == 1 && s.db.runs[0].status.Running? && |s.workers| == 1
    requires s.workers[0] == Looping(0, Loop) && CanStep(s, Act(0, CallTool("c")))
    requires SystemOk(NextState(s, Act(0, CallTool("c"))))
    ensures cell.role.Tool? && cell.result.None? && cell.callId == Some("c")
    ensures var later := NextState(s, Act(0, CallTool("c")));
            Scene(later, Running, Log(ToolCall, cell.seqNo, ToLoop), cell) && |later.workers| == 1
  {
    hide TablesOk;
    var later := NextState(s, Act(0, CallTool("c"))).db;
    cell := later.messages[|later.messages| - 1];
  }

  /** The driver's steps from the logged call to its late marking. */
  lemma DriverGoes(s: System, status: Status, pc: Pc, cell: Message, act: Action)
    requires Scene(s, status, pc, cell) && CanStep(s, Act(0, act)) && SystemOk(NextState(s, Act(0, act)))
    requires (pc.Log? && act == GO) || (pc.Loop? && act.Pause?) || (pc.PauseStatus? && act == GO)
    ensures var later, to := NextState(s, Act(0, act)), if pc.PauseStatus? then AwaitingApproval else status;
            && Scene(later, to, if pc.Log? then After(pc.next) else if pc.Loop? then PauseStatus else PauseCells, cell)
            && |later.workers| == |s.workers|
  {
    hide TablesOk;
  }

  lemma Interrupts(s: System, cell: Message)
    requires Scene(s, AwaitingApproval, PauseCells, cell) && |s.workers| == 1
    requires CanStep(s, InterruptRun(0, false)) && SystemOk(NextState(s, InterruptRun(0, false)))
    ensures var later := NextState(s, InterruptRun(0, false));
            Scene(later, AwaitingApproval, PauseCells, cell) && Interrupter(later, InterruptPaused)
  {
    hide TablesOk;
  }

  lemma Decides(s: System, cell: Message)
    requires Scene(s, AwaitingApproval, PauseCells, cell) && Interrupter(s, InterruptPaused)
    requires CanStep(s, Act(1, GO)) && SystemOk(NextState(s, Act(1, GO)))
    ensures var later := NextState(s, Act(1, GO));
            Scene(later, Interrupted, PauseCells, cell) && Interrupter(later, InterruptCells)
            && |later.db.messages| == |s.db.messages|
  {
    hide TablesOk, AtBoundary, Emit, Conclude, ResumeStep, PumpStep, Leave;
  }

  lemma Refuses(s: System, cell: Message)
    requires Scene(s, Interrupted, PauseCells, cell) && Interrupter(s, InterruptCells) && Empty(cell, 0)
    requires CanStep(s, Act(1, GO)) && SystemOk(NextState(s, Act(1, GO)))
    ensures var later := NextState(s, Act(1, GO));
            Scene(later, Interrupted, PauseCells, cell.(approval := Some(Refused)))
            && Interrupter(later, InterruptOrphans) && |later.db.messages| == |s.db.messages|
  {
    hide TablesOk, AtBoundary, Emit, Conclude, ResumeStep, PumpStep, Leave;
  }

  lemma MarksCell(s: System, cell: Message)
    requires Scene(s, Interrupted, PauseCells, cell) && Interrupter(s, InterruptOrphans) && Empty(cell, 0)
    requires CanStep(s, Act(0, GO)) && SystemOk(NextState(s, Act(0, GO)))
    ensures var later := NextState(s, Act(0, GO));
            Scene(later, Interrupted, Draw(ApprovalRequested, ToPumpEnd), cell.(approval := Some(Pending)))
            && Interrupter(later, InterruptOrphans) && |later.db.messages| == |s.db.messages|
  {
    hide TablesOk, AtBoundary, Emit, Conclude, ResumeStep, PumpStep, InterruptStep;
  }

  lemma Answers(s: System, cell: Message)
    requires Scene(s, Interrupted, Draw(ApprovalRequested, ToPumpEnd), cell) && Interrupter(s, InterruptOrphans)
    requires Empty(cell, 0) && CanStep(s, Act(1, GO)) && SystemOk(NextState(s, Act(1, GO)))
    ensures var later := NextState(s, Act(1, GO));
            && |later.db.messages| == |s.db.messages|
            && later.db.messages[|s.db.messages| - 1] == cell.(result := Some(INTERRUPTED_TOOL))
  {
    hide TablesOk;
  }

  // ---- the history -------------------------------------------------------

  ghost predicate At(steps: seq<Step>, status: Status, pc: Pc, cell: Message) {
    StateAfter(steps).Some? && Scene(StateAfter(steps).value, status, pc, cell)
  }

  /** The driver has written its pause but not marked the cell of its one call. */
  lemma HalfPaused() returns (steps: seq<Step>, cell: Message)
    ensures At(steps, AwaitingApproval, PauseCells, cell) && |StateAfter(steps).value.workers| == 1 && Empty(cell, 0)
  {
    hide NextState, SystemOk, TablesOk, Reaches;
    var v;
    steps, v := StartsEmpty({});
    steps, v := Begins(steps, v, {});
    Started(steps, v);
    Adds(steps, Act(0, CallTool("c")));
    cell := CallsTool(StateAfter(steps).value);
    steps := steps + [Act(0, CallTool("c"))];
    steps := Goes(steps, Running, Log(ToolCall, cell.seqNo, ToLoop), cell, GO);
    steps := Goes(steps, Running, Loop, cell, Pause);
    steps := Goes(steps, Running, PauseStatus, cell, GO);
  }

  lemma Started(steps: seq<Step>, v: View)
    requires Reaches(steps, v, {}) && v.runs == [Run(0, Running, None, 0, 0)] && v.workers == [Looping(0, Loop)]
    ensures StateAfter(steps).Some? && SystemOk(StateAfter(steps).value)
    ensures StateAfter(steps).value.db.runs == v.runs && StateAfter(steps).value.workers == v.workers
    ensures CanStep(StateAfter(steps).value, Act(0, CallTool("c")))
  {
    hide TablesOk;
  }

  lemma Goes(steps: seq<Step>, status: Status, pc: Pc, cell: Message, act: Action) returns (more: seq<Step>)
    requires At(steps, status, pc, cell) && |StateAfter(steps).value.workers| == 1
    requires (pc.Log? && act == GO) || (pc.Loop? && act.Pause?) || (pc.PauseStatus? && act == GO)
    ensures At(more, if pc.PauseStatus? then AwaitingApproval else status,
               if pc.Log? then After(pc.next) else if pc.Loop? then PauseStatus else PauseCells, cell)
    ensures |StateAfter(more).value.workers| == 1
  {
    hide StateAfter, NextState, SystemOk, TablesOk;
    Adds(steps, Act(0, act));
    DriverGoes(StateAfter(steps).value, status, pc, cell, act);
    more := steps + [Act(0, act)];
  }

  /** The run is stopped, and its cell is refused but not answered yet. */
  lemma Stops(steps0: seq<Step>, cell: Message) returns (steps: seq<Step>)
    requires At(steps0, AwaitingApproval, PauseCells, cell) && |StateAfter(steps0).value.workers| == 1 && Empty(cell, 0)
    ensures At(steps, Interrupted, PauseCells, cell.(approval := Some(Refused)))
    ensures Interrupter(StateAfter(steps).value, InterruptOrphans)
    ensures |StateAfter(steps).value.db.messages| - 1 in Waiting(steps, 1)
  {
    hide StateAfter, NextState, SystemOk, TablesOk;
    Adds(steps0, InterruptRun(0, false));
    Interrupts(StateAfter(steps0).value, cell);
    var steps1 := steps0 + [InterruptRun(0, false)];
    Adds(steps1, Act(1, GO));
    Decides(StateAfter(steps1).value, cell);
    var steps2 := steps1 + [Act(1, GO)];
    Adds(steps2, Act(1, GO));
    Refuses(StateAfter(steps2).value, cell);
    steps := steps2 + [Act(1, GO)];
  }

  /** The driver comes to mark the cell. */
  lemma Marks(steps0: seq<Step>, cell: Message) returns (steps: seq<Step>)
    requires At(steps0, Interrupted, PauseCells, cell.(approval := Some(Refused))) && Empty(cell, 0)
    requires Interrupter(StateAfter(steps0).value, InterruptOrphans)
    requires |StateAfter(steps0).value.db.messages| - 1 in Waiting(steps0, 1)
    ensures At(steps, Interrupted, Draw(ApprovalRequested, ToPumpEnd), cell.(approval := Some(Pending)))
    ensures Interrupter(StateAfter(steps).value, InterruptOrphans)
    ensures |StateAfter(steps).value.db.messages| - 1 in Waiting(steps, 1) && LateMark(steps, 1)
  {
    hide StateAfter, NextState, SystemOk, TablesOk;
    Adds(steps0, Act(0, GO));
    MarksCell(StateAfter(steps0).value, cell.(approval := Some(Refused)));
    steps := steps0 + [Act(0, GO)];
  }

  /** Main result: a reachable history in which an interrupted run's answered cell is marked as waiting. */
  lemma MarkedLate() returns (steps: seq<Step>, k: MessageId)
    ensures StateAfter(steps).Some? && HasAnswered(steps, 1) && LastChoice(steps, 1).None? && k in Waiting(steps, 1)
    ensures LateMark(steps, 1) && k < |StateAfter(steps).value.db.messages|
    ensures var cell := StateAfter(steps).value.db.messages[k];
            cell.result == Some(INTERRUPTED_TOOL) && cell.approval == Some(Pending)
  {
    hide StateAfter, NextState, SystemOk, TablesOk, Waiting, LateMark, HasAnswered, LastChoice;
    var steps0, cell := HalfPaused();
    var steps1 := Stops(steps0, cell);
    var steps2 := Marks(steps1, cell);
    NeverChose(steps2);
    k := |StateAfter(steps2).value.db.messages| - 1;
    Adds(steps2, Act(1, GO));
    Answers(StateAfter(steps2).value, cell.(approval := Some(Pending)));
    steps := steps2 + [Act(1, GO)];
    StaysMarked(steps2, k);
  }

  lemma NeverChose(steps: seq<Step>)
    requires StateAfter(steps).Some? && Interrupter(StateAfter(steps).value, InterruptOrphans)
    ensures LastChoice(steps, 1).None?
  {
    hide StateAfter, LastChoice;
    ChoicesFit(steps, 1);
  }

  lemma StaysMarked(steps: seq<Step>, k: MessageId)
    requires StateAfter(steps).Some? && CanStep(StateAfter(steps).value, Act(1, GO))
    requires Interrupter(StateAfter(steps).value, InterruptOrphans)
    requires k in Waiting(steps, 1) && LateMark(steps, 1) && LastChoice(steps, 1).None?
    ensures var more := steps + [Act(1, GO)];
            && StateAfter(more).Some? && k in Waiting(more, 1) && LateMark(more, 1) && LastChoice(more, 1).None?
            && HasAnswered(more, 1)
  {
    hide SystemOk, TablesOk, NextState;
    Adds(steps, Act(1, GO));
    KeepsRuns(StateAfter(steps).value);
  }

  lemma KeepsRuns(s: System)
    requires SystemOk(s) && CanStep(s, Act(1, GO)) && Interrupter(s, InterruptOrphans)
    ensures NextState(s, Act(1, GO)).db.runs == s.db.runs
  {
    hide TablesOk;
  }
}
