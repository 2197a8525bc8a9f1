/** What a driver does is what its agent stream chose: how a run ends and what it reports follow the
last choice of its driver, and the ids of a finished answer are stored with it and stay citable. */
module RunChoices {
  import opened Store
  import opened Forks
  import opened Statements
  import opened Runs
  import opened RunSafety
  import opened RunCitations

  /** What worker `i` chose last at a chunk boundary. */
  function LastChoice(steps: seq<Step>, i: WorkerId): Option<Action>
    requires StateAfter(steps).Some?
  {
    if steps == [] then None
    else
      var front, last := steps[..|steps| - 1], steps[|steps| - 1];
      if last.Act? && last.worker == i && StateAfter(front).value.workers[i].pc.Loop?
      then Some(last.act) else LastChoice(front, i)
  }

  /** The event that reports a choice. */
  predicate EventFits(name: EventName, choice: Option<Action>) {
    match name
    case RunStarted => choice.None?
    case ToolCall => choice.Some? && choice.value.CallTool?
    case ToolResult => choice.Some? && (choice.value.Answer? || choice.value.Notice?)
    case CitationAdded => choice.Some? && choice.value.Freeze?
    case MessageCompleted => choice.Some? && choice.value.Finish?
    case ApprovalRequested => choice == Some(Pause)
    case RunDone => choice.None? || choice.value.Cancel? || choice.value.Finish?
    case ErrorEvent => true
  }

  /** Where the generator goes on after an event. */
  predicate LeadsOn(name: EventName, next: Next) {
    match next
    case ToUserMessage => name.RunStarted?
    case ToLoop => name.ToolCall? || name.ToolResult? || name.CitationAdded?
    case ToRunDone => name.MessageCompleted?
    case ToPumpEnd => name.ApprovalRequested? || Terminal(name)
    case ToGone => Terminal(name)
  }

  /** The places that a choice leads to. After a cancel, a pause, a failure or a finish there is no way
  back to the loop. */
  predicate PlaceFits(pc: Pc, choice: Option<Action>) {
    match pc
    case UserMessage => choice.None?
    case Loop => choice.None? || !(choice.value.Cancel? || choice.value.Pause? || choice.value.Raise?
        || choice.value.Finish?)
    case StoreResult(callId, result, _) => choice == Some(Answer(callId, result))
    case CancelCells => choice == Some(Cancel)
    case CancelCas => choice == Some(Cancel)
    case PauseStatus => choice == Some(Pause)
    case PauseCells => choice == Some(Pause)
    case FailCas => choice == Some(Raise) || choice == Some(Pause)
    case FailCells => choice == Some(Raise) || choice == Some(Pause)
    case Verify(cited) => choice == Some(Finish(cited))
    case ForgeCas => choice.Some? && choice.value.Finish?
    case CommitCas(cited) => choice == Some(Finish(cited))
    case Draw(name, next) => EventFits(name, choice) && LeadsOn(name, next)
    case Log(name, _, next) => EventFits(name, choice) && LeadsOn(name, next)
    case InterruptRunning => choice.None?
    case InterruptPaused => choice.None?
    case InterruptCells => choice.None?
    case InterruptOrphans => choice.None?
    case Lookup(_) => choice.None?
    case ReadPending(_) => choice.None?
    case ApproveCas(_) => choice.None?
    case ApproveCells(_) => choice.None?
    case RejectCas => choice.None?
    case RejectCells => choice.None?
    case RejectOrphans => choice.None?
    case _ => true
  }

  function Chosen(pc: Pc, act: Action, before: Option<Action>): Option<Action> {
    if pc.Loop? then Some(act) else before
  }

  lemma BoundaryFits(db: Db, w: Worker, act: Action)
    requires TablesOk(db) && WorkerOk(db, w) && CanAct(w.pc, act) && w.pc.Loop?
    ensures PlaceFits(AtBoundary(db, w, act).worker.pc, Some(act))
  {
    hide TablesOk;
  }

  lemma EmitFits(db: Db, w: Worker, choice: Option<Action>)
    requires TablesOk(db) && WorkerOk(db, w) && PlaceFits(w.pc, choice)
    requires w.pc.Draw? || w.pc.Log? || w.pc.UserMessage? || w.pc.StoreResult?
    ensures PlaceFits(Emit(db, w).worker.pc, choice)
  {
    hide TablesOk;
  }

  lemma LeaveFits(db: Db, w: Worker, choice: Option<Action>, now: int)
    requires TablesOk(db) && WorkerOk(db, w) && PlaceFits(w.pc, choice)
    requires w.pc.CancelCells? || w.pc.CancelCas? || w.pc.PauseStatus? || w.pc.PauseCells? || w.pc.FailCas?
             || w.pc.FailCells?
    ensures PlaceFits(Leave(db, w, now).worker.pc, choice)
  {
    hide TablesOk;
  }

  lemma ConcludeFits(db: Db, w: Worker, choice: Option<Action>, now: int)
    requires TablesOk(db) && WorkerOk(db, w) && PlaceFits(w.pc, choice)
    requires w.pc.Verify? || w.pc.ForgeCas? || w.pc.CommitCas?
    ensures PlaceFits(Conclude(db, w, now).worker.pc, choice)
  {
    hide TablesOk, ThreadCitations;
  }

  lemma ResumeFits(db: Db, w: Worker, choice: Option<Action>, act: Action)
    requires TablesOk(db) && WorkerOk(db, w) && CanAct(w.pc, act) && PlaceFits(w.pc, choice)
    requires w.pc.Lookup? || w.pc.ReadPending? || w.pc.ApproveCas? || w.pc.ApproveCells? || w.pc.RejectCas?
             || w.pc.RejectCells? || w.pc.RejectOrphans?
    ensures PlaceFits(ResumeStep(db, w, act).worker.pc, choice)
  {
    hide TablesOk, PausedRun, PendingCalls;
  }

  lemma InterruptFits(db: Db, w: Worker, choice: Option<Action>, now: int)
    requires TablesOk(db) && WorkerOk(db, w) && PlaceFits(w.pc, choice)
    requires w.pc.InterruptRunning? || w.pc.InterruptPaused? || w.pc.InterruptCells? || w.pc.InterruptOrphans?
    ensures PlaceFits(InterruptStep(db, w, now).worker.pc, choice)
  {
    hide TablesOk;
  }

  lemma StepFits(db: Db, w: Worker, act: Action, choice: Option<Action>)
    requires TablesOk(db) && WorkerOk(db, w) && CanAct(w.pc, act) && PlaceFits(w.pc, choice)
    ensures PlaceFits(WorkerStep(db, w, act).worker.pc, Chosen(w.pc, act, choice))
  {
    hide TablesOk, Leave, Conclude, ResumeStep, InterruptStep, Emit, AtBoundary;
    var now := if act.Go? then act.now else 0;
    match w.pc {
      case Loop => BoundaryFits(db, w, act);
      case Draw(_, _) => EmitFits(db, w, choice);
      case Log(_, _, _) => EmitFits(db, w, choice);
      case UserMessage => EmitFits(db, w, choice);
      case StoreResult(_, _, _) => EmitFits(db, w, choice);
      case CancelCells => LeaveFits(db, w, choice, now);
      case CancelCas => LeaveFits(db, w, choice, now);
      case PauseStatus => LeaveFits(db, w, choice, now);
      case PauseCells => LeaveFits(db, w, choice, now);
      case FailCas => LeaveFits(db, w, choice, now);
      case FailCells => LeaveFits(db, w, choice, now);
      case Verify(_) => ConcludeFits(db, w, choice, now);
      case ForgeCas => ConcludeFits(db, w, choice, now);
      case CommitCas(_) => ConcludeFits(db, w, choice, now);
      case InterruptRunning => InterruptFits(db, w, choice, now);
      case InterruptPaused => InterruptFits(db, w, choice, now);
      case InterruptCells => InterruptFits(db, w, choice, now);
      case InterruptOrphans => InterruptFits(db, w, choice, now);
      case PumpEnd =>
      case Gone =>
      case _ => ResumeFits(db, w, choice, act);
    }
  }

  // ---- every history -----------------------------------------------------

  lemma {:induction false} NoChoiceYet(steps: seq<Step>, i: WorkerId)
    requires StateAfter(steps).Some? && i >= |StateAfter(steps).value.workers|
    ensures LastChoice(steps, i).None?
  {
    hide StateAfter, NextState, CanStep, SystemOk;
    if steps != [] {
      LastOf(steps);
      WorkersRemain(StateAfter(steps[..|steps| - 1]).value, steps[|steps| - 1]);
      NoChoiceYet(steps[..|steps| - 1], i);
    }
  }

  lemma {:induction false} ChoicesFit(steps: seq<Step>, i: WorkerId)
    requires StateAfter(steps).Some? && i < |StateAfter(steps).value.workers|
    ensures PlaceFits(StateAfter(steps).value.workers[i].pc, LastChoice(steps, i))
  {
    hide StateAfter, NextState, CanStep, SystemOk, TablesOk, WorkerStep, WorkerOk;
    if steps == [] {
      Nobody();
    } else {
      LastOf(steps);
      var front, last := steps[..|steps| - 1], steps[|steps| - 1];
      var before := StateAfter(front).value;
      if last.Act? && last.worker == i {
        WorkerActs(before, i, last.act);
        ChoicesFit(front, i);
        StepFits(before.db, before.workers[i], last.act, LastChoice(front, i));
      } else if i < |before.workers| {
        OthersStand(before, last, i);
        ChoicesFit(front, i);
      } else {
        WorkerSpawned(before, last, i);
        NoChoiceYet(front, i);
      }
    }
  }

  lemma Nobody()
    ensures StateAfter([]).Some? && StateAfter([]).value.workers == []
  {
    hide NextState, CanStep, SystemOk;
  }

  /** Main result, for every interleaving: an event that a worker is about to log reports the last
  choice of its agent stream, and the start of a run comes before any choice. */
  lemma {:induction false} EventTellsChoice(steps: seq<Step>, i: WorkerId)
    requires StateAfter(steps).Some? && i < |StateAfter(steps).value.workers|
              && StateAfter(steps).value.workers[i].pc.Log?
    ensures EventFits(StateAfter(steps).value.workers[i].pc.name, LastChoice(steps, i))
  {
    hide StateAfter, LastChoice;
    ChoicesFit(steps, i);
  }

  // ---- how a running run ends --------------------------------------------

  /** The step is taken by worker `i` on run `r`, whose stream chose `choice` last. */
  ghost predicate ActsOn(steps: seq<Step>, step: Step, r: RunId, choice: Option<Action>)
    requires StateAfter(steps).Some?
  {
    step.Act? && step.worker < |StateAfter(steps).value.workers|
        && StateAfter(steps).value.workers[step.worker].run == r
    && LastChoice(steps, step.worker) == choice
  }

  /** The worker's guarded move gives exactly this status. */
  lemma MoveGives(db: Db, w: Worker, act: Action)
    requires TablesOk(db) && WorkerOk(db, w) && CanAct(w.pc, act) && !KindOf(db, w).Stays?
    ensures var later := WorkerStep(db, w, act).db;
            && |later.runs| == |db.runs|
            && (later.runs[w.run].status.Interrupted? <==>
                  w.pc.CancelCas? || w.pc.InterruptRunning? || w.pc.InterruptPaused?)
            && (later.runs[w.run].status.Error? <==> w.pc.FailCas? || w.pc.ForgeCas?)
            && (later.runs[w.run].status.Completed? <==> w.pc.CommitCas?)
            && (later.runs[w.run].status.Rejected? <==> w.pc.RejectCas?)
            && (later.runs[w.run].status.AwaitingApproval? <==> w.pc.PauseStatus?)
            && (later.runs[w.run].status.Running? <==> w.pc.ApproveCas?)
  {
    hide TablesOk;
  }

  /** Main result, for every interleaving: what a running run becomes is what its driver's stream chose
  last: paused by a pause, completed by a finish, cancelled by a cancel, and in error by a failure, a pause
  or a finish that was refused. Besides, an interrupting request or a sweep may end it. */
  lemma {:induction false} RunEndsAsChosen(steps: seq<Step>, step: Step, r: RunId)
    requires StateAfter(steps).Some? && CanStep(StateAfter(steps).value, step)
    requires r < |StateAfter(steps).value.db.runs| && StateAfter(steps).value.db.runs[r].status.Running?
    ensures r < |NextState(StateAfter(steps).value, step).db.runs|
    ensures var s, to := StateAfter(steps).value, NextState(StateAfter(steps).value, step).db.runs[r].status;
            && !to.Rejected?
            && (to.AwaitingApproval? ==> ActsOn(steps, step, r, Some(Pause)))
            && (to.Completed? ==> exists cited :: ActsOn(steps, step, r, Some(Finish(cited))))
            && (to.Interrupted? ==> ActsOn(steps, step, r, Some(Cancel))
                                    || (ActsOn(steps, step, r, None) && s.workers[step.worker].pc.InterruptRunning?))
            && (to.Error? ==> ActsOn(steps, step, r, Some(Raise)) || ActsOn(steps, step, r, Some(Pause))
                              || (exists cited :: ActsOn(steps, step, r, Some(Finish(cited))))
                              || (step.SweepRuns? && step.from.Running? && r in step.stale))
  {
    hide StateAfter, LastChoice, TablesOk, WorkerStep;
    var s := StateAfter(steps).value;
    match step {
      case Act(i, act) =>
        WorkerActs(s, i, act);
        StepMoves(s.db, s.workers[i], act);
        if !KindOf(s.db, s.workers[i]).Stays? { MoveGives(s.db, s.workers[i], act); }
        ChoicesFit(steps, i);
      case _ =>
    }
  }

  // ---- the ids of an answer ----------------------------------------------

  /** The worker has left its drive loop for good. */
  predicate Retired(pc: Pc) {
    match pc
    case Draw(_, next) => next.ToRunDone? || next.ToPumpEnd? || next.ToGone?
    case Log(_, _, next) => next.ToRunDone? || next.ToPumpEnd? || next.ToGone?
    case PumpEnd => true
    case Gone => true
    case _ => false
  }

  lemma RetiredForGood(db: Db, w: Worker, act: Action)
    requires TablesOk(db) && WorkerOk(db, w) && CanAct(w.pc, act) && Retired(w.pc)
    ensures var next := WorkerStep(db, w, act).worker; Retired(next.pc) && next.run == w.run
  {
    hide TablesOk;
  }

  /** The worker that commits an answer links what it was told to cite, and retires. */
  lemma CommitterRetires(db: Db, w: Worker, act: Action)
    requires TablesOk(db) && WorkerOk(db, w) && CanAct(w.pc, act)
    requires var later := WorkerStep(db, w, act).db;
             |later.messages| == |db.messages| + 1 && later.messages[|db.messages|].role.Agent?
    ensures var out := WorkerStep(db, w, act);
            && w.pc.CommitCas? && out.db.messages[|db.messages|].run == w.run == out.worker.run
            && out.db.messages[|db.messages|].cites == w.pc.cited && Retired(out.worker.pc)
  {
    hide TablesOk;
  }

  /** Worker `i` drove the run of answer `m` and finished it with exactly the ids that `m` links. */
  ghost predicate AnswerOf(steps: seq<Step>, m: MessageId, i: WorkerId)
    requires StateAfter(steps).Some?
  {
    var s := StateAfter(steps).value;
    m < |s.db.messages| && i < |s.workers| && Retired(s.workers[i].pc) && s.workers[i].run == s.db.messages[m].run
    && LastChoice(steps, i) == Some(Finish(s.db.messages[m].cites))
  }

  lemma AnswerStays(steps: seq<Step>, m: MessageId, i: WorkerId)
    requires steps != [] && StateAfter(steps).Some? && StateAfter(steps[..|steps| - 1]).Some?
    requires AnswerOf(steps[..|steps| - 1], m, i)
    ensures AnswerOf(steps, m, i)
  {
    hide StateAfter, NextState, CanStep, SystemOk, TablesOk, WorkerStep, WorkerOk;
    LastOf(steps);
    var front, last := steps[..|steps| - 1], steps[|steps| - 1];
    var before := StateAfter(front).value;
    StepKeepsSystem(before, last);
    assert SameCell(before.db.messages[m], StateAfter(steps).value.db.messages[m]);
    if last.Act? && last.worker == i {
      WorkerActs(before, i, last.act);
      RetiredForGood(before.db, before.workers[i], last.act);
    } else {
      OthersStand(before, last, i);
    }
  }

  lemma NewAnswer(s: System, step: Step)
    requires SystemOk(s) && CanStep(s, step)
    requires var later := NextState(s, step).db;
             |later.messages| > |s.db.messages| && later.messages[|s.db.messages|].role.Agent?
    ensures var later := NextState(s, step);
            && |later.db.messages| == |s.db.messages| + 1 && step.Act? && step.worker < |s.workers| == |later.workers|
            && var w, next, m := s.workers[step.worker], later.workers[step.worker], later.db.messages[|s.db.messages|];
               w.pc.CommitCas? && m.cites == w.pc.cited && m.run == next.run && Retired(next.pc)
  {
    hide TablesOk, WorkerStep, WorkerOk;
    match step {
      case Act(i, act) =>
        WorkerActs(s, i, act);
        AnswerIffCompletes(s.db, s.workers[i], act);
        CommitterRetires(s.db, s.workers[i], act);
      case _ => QuietStep(s, step);
    }
  }

  lemma CommitsItsChoice(steps: seq<Step>, i: WorkerId)
    requires StateAfter(steps).Some? && i < |StateAfter(steps).value.workers|
    requires StateAfter(steps).value.workers[i].pc.CommitCas?
    ensures LastChoice(steps, i) == Some(Finish(StateAfter(steps).value.workers[i].pc.cited))
  {
    hide StateAfter, LastChoice;
    ChoicesFit(steps, i);
  }

  lemma AnswerAppears(steps: seq<Step>)
    requires steps != [] && StateAfter(steps).Some? && StateAfter(steps[..|steps| - 1]).Some?
    requires var before, later := StateAfter(steps[..|steps| - 1]).value.db, StateAfter(steps).value.db;
             |later.messages| > |before.messages| && later.messages[|before.messages|].role.Agent?
    ensures steps[|steps| - 1].Act?
    ensures AnswerOf(steps, |StateAfter(steps[..|steps| - 1]).value.db.messages|, steps[|steps| - 1].worker)
  {
    hide StateAfter, LastChoice, NextState, CanStep, SystemOk, Retired, PlaceFits;
    LastOf(steps);
    var front, last := steps[..|steps| - 1], steps[|steps| - 1];
    NewAnswer(StateAfter(front).value, last);
    CommitsItsChoice(front, last.worker);
    KeepsChoice(steps);
  }

  lemma KeepsChoice(steps: seq<Step>)
    requires steps != [] && StateAfter(steps).Some? && steps[|steps| - 1].Act?
    ensures var front, i := steps[..|steps| - 1], steps[|steps| - 1].worker;
            && StateAfter(front).Some? && i < |StateAfter(front).value.workers|
            && (!StateAfter(front).value.workers[i].pc.Loop? ==> LastChoice(steps, i) == LastChoice(front, i))
  {
    hide NextState, SystemOk;
  }

  lemma {:induction false} AnswersAreFinished(steps: seq<Step>, m: MessageId) returns (i: WorkerId)
    requires StateAfter(steps).Some? && m < |StateAfter(steps).value.db.messages|
    requires StateAfter(steps).value.db.messages[m].role.Agent?
    ensures AnswerOf(steps, m, i)
  {
    hide StateAfter, NextState, CanStep, SystemOk, TablesOk, AnswerOf;
    NothingStored();
    LastOf(steps);
    var front, last := steps[..|steps| - 1], steps[|steps| - 1];
    var before := StateAfter(front).value;
    StepKeepsSystem(before, last);
    if m < |before.db.messages| {
      assert SameCell(before.db.messages[m], StateAfter(steps).value.db.messages[m]);
      i := AnswersAreFinished(front, m);
      AnswerStays(steps, m, i);
    } else {
      OneRow(before, last);
      AnswerAppears(steps);
      i := last.worker;
    }
  }

  lemma OneRow(s: System, step: Step)
    requires SystemOk(s) && CanStep(s, step)
    ensures |NextState(s, step).db.messages| <= |s.db.messages| + 1
  {
    hide TablesOk, WorkerStep, WorkerOk;
    match step {
      case Act(i, act) =>
        WorkerActs(s, i, act);
        AnswerIffCompletes(s.db, s.workers[i], act);
      case _ => QuietStep(s, step);
    }
  }

  lemma NothingStored()
    ensures StateAfter([]).Some? && StateAfter([]).value.db.messages == []
  {
    hide NextState, CanStep, SystemOk;
  }

  /** Main result, for every interleaving: a completed run has an answer that links exactly the ids its
  driver finished with, and each of them resolves in every thread, fork or not, that sees the answer. */
  lemma {:induction false} CitedIdsAreKept(steps: seq<Step>, r: RunId) returns (m: MessageId, i: WorkerId)
    requires StateAfter(steps).Some? && r < |StateAfter(steps).value.db.runs|
    requires StateAfter(steps).value.db.runs[r].status.Completed?
    ensures var s := StateAfter(steps).value;
            && m < |s.db.messages| && Answers(s.db, m, r) && i < |s.workers| && s.workers[i].run == r
            && LastChoice(steps, i) == Some(Finish(s.db.messages[m].cites))
            && TablesOk(s.db)
            && forall t :: 0 <= t < |s.db.threads| && m in ThreadMessages(s.db, t) ==>
                 s.db.messages[m].cites <= ThreadCitations(s.db, t)
  {
    hide StateAfter, LastChoice, TablesOk, ThreadMessages, ThreadCitations;
    var s := StateAfter(steps).value;
    AlwaysSafe(steps);
    m :| 0 <= m < |s.db.messages| && Answers(s.db, m, r);
    i := AnswersAreFinished(steps, m);
    forall t | 0 <= t < |s.db.threads| && m in ThreadMessages(s.db, t)
      ensures s.db.messages[m].cites <= ThreadCitations(s.db, t)
    {
      forall c | c in s.db.messages[m].cites ensures c in ThreadCitations(s.db, t) {
        CitationResolvesWhereSeen(steps, t, m, c);
      }
    }
  }

  /** Main result: a finished answer is accepted exactly when each cited id was frozen by its driver or is
  linked to a message that the thread sees, and refused as forged otherwise. */
  lemma VerifyAcceptsKnown(db: Db, w: Worker, now: int)
    requires TablesOk(db) && WorkerOk(db, w) && w.pc.Verify?
    ensures var out := WorkerStep(db, w, Go(now));
            && out.db == db
            && (out.worker.pc == CommitCas(w.pc.cited) <==>
                  forall c :: c in w.pc.cited ==> c in w.frozen || (c in db.citations && Linked(db, w.thread, c)))
            && (out.worker.pc != CommitCas(w.pc.cited) ==> out.worker.pc.ForgeCas?)
  {
    hide TablesOk, ThreadCitations, Linked;
    forall c | c in w.pc.cited
      ensures c in ThreadCitations(db, w.thread) <==> Linked(db, w.thread, c) && c in db.citations
    {
      ThreadCitationsAreLinked(db, w.thread, c);
    }
  }

  /** So an id of an answer that the thread sees is accepted when it is cited again. */
  lemma {:induction false} CitedAgainIsAccepted(steps: seq<Step>, i: WorkerId, m: MessageId, now: int)
    requires StateAfter(steps).Some? && i < |StateAfter(steps).value.workers|
    requires m < |StateAfter(steps).value.db.messages|
    requires var s := StateAfter(steps).value;
             && TablesOk(s.db) && WorkerOk(s.db, s.workers[i]) && s.workers[i].pc.Verify?
             && m in ThreadMessages(s.db, s.workers[i].thread)
             && s.workers[i].pc.cited <= s.workers[i].frozen + s.db.messages[m].cites
    ensures var s := StateAfter(steps).value;
            WorkerStep(s.db, s.workers[i], Go(now)).worker.pc == CommitCas(s.workers[i].pc.cited)
  {
    hide StateAfter, TablesOk, ThreadMessages, ThreadCitations;
    var s := StateAfter(steps).value;
    forall c | c in s.workers[i].pc.cited && c !in s.workers[i].frozen
      ensures c in ThreadCitations(s.db, s.workers[i].thread)
    {
      CitationResolvesWhereSeen(steps, s.workers[i].thread, m, c);
    }
  }

  // ---- what a worker stores ----------------------------------------------

  /** The complete list of the cells a worker inserts: the user's message, a called tool, an answer. */
  lemma StepInserts(db: Db, w: Worker, act: Action)
    requires TablesOk(db) && WorkerOk(db, w) && CanAct(w.pc, act)
    ensures var later, n, q := WorkerStep(db, w, act).db, |db.messages|, db.threads[w.thread].lastSeq + 1;
            var told, called := w.pc.UserMessage?, w.pc.Loop? && act.CallTool?;
            var answered := w.pc.CommitCas? && db.runs[w.run].status.Running? && w.pc.cited <= db.citations.Keys;
            && |later.messages| == n + (if told || called || answered then 1 else 0)
            && (told ==> later.messages[n] == Message(w.thread, w.run, q, User, "", None, None, None, {}))
            && (called ==>
                  later.messages[n] == Message(w.thread, w.run, q, Tool, "", Some(act.callId), None, None, {}))
            && (answered ==> later.messages[n] == Message(w.thread, w.run, q, Agent, "", None, None, None, w.pc.cited))
  {
    hide TablesOk;
  }

  /** Freezing stores a citation, and the first snapshot stays. */
  lemma FreezeStores(db: Db, w: Worker, act: Action)
    requires TablesOk(db) && WorkerOk(db, w) && CanAct(w.pc, act) && act.Freeze?
    ensures var out, c := WorkerStep(db, w, act), act.citation;
            && out.db.citations == (if c in w.frozen || c in db.citations then db.citations
                                    else db.citations[c := act.snapshot])
            && out.worker.frozen == w.frozen + {c}
            && out.worker.pc == if c in w.frozen then Loop else Draw(CitationAdded, ToLoop)
  {
    hide TablesOk;
  }

  /** Nothing else stores or drops one. */
  lemma OnlyFreezeStores(db: Db, w: Worker, act: Action)
    requires TablesOk(db) && WorkerOk(db, w) && CanAct(w.pc, act) && !act.Freeze?
    ensures WorkerStep(db, w, act).db.citations == db.citations && WorkerStep(db, w, act).worker.frozen == w.frozen
  {
    hide TablesOk, Leave, Conclude, ResumeStep, InterruptStep, Emit, AtBoundary;
    var now := if act.Go? then act.now else 0;
    if w.pc.Loop? { BoundaryFreezesNothing(db, w, act); }
    EmitFreezesNothing(db, w);
    LeaveFreezesNothing(db, w, act, now);
  }

  predicate SameCitations(db: Db, w: Worker, out: Outcome) {
    out.db.citations == db.citations && out.worker.frozen == w.frozen
  }

  lemma BoundaryFreezesNothing(db: Db, w: Worker, act: Action)
    requires TablesOk(db) && WorkerOk(db, w) && w.pc.Loop? && CanAct(w.pc, act) && !act.Freeze?
    ensures SameCitations(db, w, AtBoundary(db, w, act))
  {
    hide TablesOk;
  }

  lemma EmitFreezesNothing(db: Db, w: Worker)
    requires TablesOk(db) && WorkerOk(db, w)
    ensures SameCitations(db, w, Emit(db, w))
  {
    hide TablesOk;
  }

  lemma LeaveFreezesNothing(db: Db, w: Worker, act: Action, now: int)
    requires TablesOk(db) && WorkerOk(db, w) && CanAct(w.pc, act)
    ensures SameCitations(db, w, Leave(db, w, now)) && SameCitations(db, w, Conclude(db, w, now))
    ensures SameCitations(db, w, ResumeStep(db, w, act)) && SameCitations(db, w, InterruptStep(db, w, now))
  {
    hide TablesOk, ThreadCitations, PendingCalls, PausedRun;
  }
}
