/** What holds when pauses are written while the run is still running and resumes do not
overlap: ended runs stay ended, and no log ever holds two terminal events. */
module RunTerminals {
  import opened Store
  import opened Forks
  import opened Runs
  import opened RunSafety
  import opened RunCitations

  // ---- the hypotheses ----------------------------------------------------

  /** The pause is written while the run is still running. */
  predicate GuardedPause(s: System, step: Step)
    requires SystemOk(s) && CanStep(s, step)
  {
    step.Act? && s.workers[step.worker].pc.PauseStatus? ==>
      s.db.runs[s.workers[step.worker].run].status.Running?
  }

  /** The places from which a resume may still claim the pause. */
  predicate Resumes(pc: Pc) {
    pc.Lookup? || pc.ReadPending? || pc.ApproveCas? || pc.RejectCas?
  }

  /** A resume is accepted only while no other resume of that run is on its way to its claim. */
  predicate OneResume(s: System, step: Step)
    requires SystemOk(s) && CanStep(s, step)
  {
    step.ResumeRun? ==>
      var found := PausedRun(s.db, step.thread);
      found.Some? ==> forall j :: 0 <= j < |s.workers| && Resumes(s.workers[j].pc) ==>
          s.workers[j].logRun != found.value
  }

  /** When the generator of a resume looks the paused run up again, it finds the run the resume
  was accepted for, or none. */
  predicate SamePause(s: System, step: Step)
    requires SystemOk(s) && CanStep(s, step)
  {
    step.Act? && s.workers[step.worker].pc.Lookup? ==>
      var found := PausedRun(s.db, s.workers[step.worker].thread);
      found.Some? ==> found.value == s.workers[step.worker].logRun
  }

  datatype Hypothesis = PausesGuarded | ResumesApart | PausesMatch

  predicate Meets(s: System, step: Step, h: Hypothesis)
    requires SystemOk(s) && CanStep(s, step)
  {
    match h
    case PausesGuarded => GuardedPause(s, step)
    case ResumesApart => OneResume(s, step)
    case PausesMatch => SamePause(s, step)
  }

  /** Every step met the hypothesis in the state it was taken in. */
  predicate Along(steps: seq<Step>, h: Hypothesis)
    requires StateAfter(steps).Some?
  {
    steps == []
    || (Along(steps[..|steps| - 1], h) && Meets(StateAfter(steps[..|steps| - 1]).value, steps[|steps| - 1], h))
  }

  predicate Disciplined(steps: seq<Step>)
    requires StateAfter(steps).Some?
  {
    Along(steps, PausesGuarded) && Along(steps, ResumesApart) && Along(steps, PausesMatch)
  }

  // ---- ended runs stay ended ---------------------------------------------

  ghost predicate EndTimesOk(db: Db) {
    forall r :: 0 <= r < |db.runs| ==> (db.runs[r].endedAt.Some? <==> Ended(db.runs[r].status))
  }

  lemma StepKeepsEndTimes(s: System, step: Step)
    requires Safe(s) && EndTimesOk(s.db) && CanStep(s, step) && GuardedPause(s, step)
    ensures EndTimesOk(NextState(s, step).db)
  {
    match step {
      case Act(i, act) => StepMoves(s.db, s.workers[i], act);
      case _ =>
    }
  }

  /** A pause written by a driver that was outrun: its run has ended behind its back. */
  predicate OutrunPause(s: System, step: Step, r: RunId)
    requires SystemOk(s) && CanStep(s, step) && r < |s.db.runs|
  {
    step.Act? && s.workers[step.worker].run == r && WritesPause(s.db, s.workers[step.worker])
        && Ended(s.db.runs[r].status)
  }

  /** Main result: an ended run is left exactly by an outrun pause, and then it had been
  interrupted or swept. */
  lemma EndedLeftOnlyByOutrunPause(s: System, step: Step, r: RunId)
    requires Safe(s) && CanStep(s, step) && r < |s.db.runs| && Ended(s.db.runs[r].status)
    requires r < |NextState(s, step).db.runs|
    ensures NextState(s, step).db.runs[r].status != s.db.runs[r].status <==> OutrunPause(s, step, r)
    ensures OutrunPause(s, step, r) ==> s.db.runs[r].status.Interrupted? || s.db.runs[r].status.Error?
  {
    match step {
      case Act(i, act) => StepMoves(s.db, s.workers[i], act);
      case _ =>
    }
  }

  lemma {:induction false} GuardedEndTimes(steps: seq<Step>)
    requires StateAfter(steps).Some? && Along(steps, PausesGuarded)
    ensures EndTimesOk(StateAfter(steps).value.db)
  {
    if steps != [] {
      GuardedEndTimes(steps[..|steps| - 1]);
      AlwaysSafe(steps[..|steps| - 1]);
      StepKeepsEndTimes(StateAfter(steps[..|steps| - 1]).value, steps[|steps| - 1]);
    }
  }

  /** Main result: with guarded pauses every ended run stays as it is, the end time is set exactly
  for ended runs, and event collection keeps every event of an active run. */
  lemma EndedIsAbsorbing(steps: seq<Step>, step: Step, r: RunId)
    requires StateAfter(steps).Some? && Along(steps, PausesGuarded)
    requires CanStep(StateAfter(steps).value, step) && GuardedPause(StateAfter(steps).value, step)
    requires r < |StateAfter(steps).value.db.runs|
    ensures var db, later := StateAfter(steps).value.db, NextState(StateAfter(steps).value, step).db;
            && (db.runs[r].endedAt.Some? <==> Ended(db.runs[r].status))
            && r < |later.runs|
            && (Ended(db.runs[r].status) ==> later.runs[r].status == db.runs[r].status)
            && (step.CollectEvents? && Active(db.runs[r].status) ==>
                  forall q: nat :: (r, q) in db.events ==> (r, q) in later.events)
  {
    AlwaysSafe(steps);
    GuardedEndTimes(steps);
    StepKeepsSystem(StateAfter(steps).value, step);
    if Ended(StateAfter(steps).value.db.runs[r].status) {
      EndedLeftOnlyByOutrunPause(StateAfter(steps).value, step, r);
    }
  }

  // ---- terminal events ---------------------------------------------------

  /** The worker still has a terminal event to log. */
  predicate Owes(pc: Pc) {
    match pc
    case Draw(name, next) => Terminal(name) || next.ToRunDone?
    case Log(name, _, next) => Terminal(name) || next.ToRunDone?
    case FailCells => true
    case RejectCells => true
    case RejectOrphans => true
    case InterruptCells => true
    case InterruptOrphans => true
    case _ => false
  }

  predicate LogsTerminal(db: Db, r: RunId, q: nat) {
    (r, q) in db.events && Terminal(db.events[(r, q)])
  }

  /** What the program text says of a place: which events lead where, and what the pump has noted. */
  predicate PlaceOk(w: Worker) {
    match w.pc
    case Draw(name, next) =>
      && (Terminal(name) <==> (next.ToPumpEnd? && name != ApprovalRequested) || next.ToGone?)
      && (name.ApprovalRequested? ==> next.ToPumpEnd?)
    case Log(name, _, next) =>
      && (Terminal(name) <==> (next.ToPumpEnd? && name != ApprovalRequested) || next.ToGone?)
      && (name.ApprovalRequested? ==> next.ToPumpEnd?)
      && w.last == Some(name) && (Terminal(name) ==> w.sawTerminal)
    case _ => true
  }

  /** The pump is at its end without a terminal event and without a pause. */
  predicate EndsSilently(w: Worker) {
    w.pc.PumpEnd? && !w.sawTerminal && w.last != Some(ApprovalRequested)
  }

  predicate Synthesizes(pc: Pc) {
    (pc.Draw? && pc.name.ErrorEvent? && pc.next.ToGone?) || (pc.Log? && pc.name.ErrorEvent? && pc.next.ToGone?)
  }

  predicate WorkerTidy(db: Db, w: Worker)
    requires WorkerOk(db, w)
  {
    && PlaceOk(w) && w.logRun == w.run && !Synthesizes(w.pc)
    && (EndsSilently(w) || Owes(w.pc) ==> Ended(StatusOf(db, w.run)))
    && (Resumes(w.pc) ==> !StatusOf(db, w.run).Running?)
  }

  ghost predicate AllTidy(s: System)
    requires SystemOk(s)
  {
    forall i :: 0 <= i < |s.workers| ==> WorkerTidy(s.db, s.workers[i])
  }

  /** Two workers of one run do not both owe a terminal event, nor both resume. */
  ghost predicate Apart(workers: seq<Worker>) {
    forall i, j :: 0 <= i < j < |workers| && workers[i].run == workers[j].run ==>
      !(Owes(workers[i].pc) && Owes(workers[j].pc)) && !(Resumes(workers[i].pc) && Resumes(workers[j].pc))
  }

  ghost predicate LogsOk(s: System)
    requires SystemOk(s)
  {
    && (forall r: RunId, p: nat, q: nat :: LogsTerminal(s.db, r, p) && LogsTerminal(s.db, r, q) ==> p == q)
    && (forall r: RunId, q: nat :: LogsTerminal(s.db, r, q) ==> r < |s.db.runs| && Ended(StatusOf(s.db, r)))
    && (forall r: RunId, q: nat, i :: LogsTerminal(s.db, r, q) && 0 <= i < |s.workers| && s.workers[i].run == r ==>
          !Owes(s.workers[i].pc))
  }

  ghost predicate Tidy(s: System) {
    SystemOk(s) && AllTidy(s) && Apart(s.workers) && LogsOk(s)
  }

  // ---- one worker step ---------------------------------------------------

  lemma PlaceStaysOk(db: Db, w: Worker, act: Action)
    requires TablesOk(db) && WorkerOk(db, w) && CanAct(w.pc, act) && PlaceOk(w)
    ensures PlaceOk(WorkerStep(db, w, act).worker)
  {
  }

  /** A terminal event becomes owed only by winning the move that ends the run. */
  lemma OwingIsWon(db: Db, w: Worker, act: Action)
    requires TablesOk(db) && WorkerOk(db, w) && CanAct(w.pc, act) && PlaceOk(w)
    requires EndsSilently(w) ==> Ended(StatusOf(db, w.logRun))
    ensures Owes(WorkerStep(db, w, act).worker.pc) ==> Owes(w.pc) || KindOf(db, w).Ends? || KindOf(db, w).Dropped?
  {
    hide TablesOk;
  }

  /** No worker starts to resume later, and none synthesizes while silent pumps belong to ended runs. */
  lemma NeitherResumesNorSynthesizes(db: Db, w: Worker, act: Action)
    requires TablesOk(db) && WorkerOk(db, w) && CanAct(w.pc, act) && PlaceOk(w)
    requires EndsSilently(w) ==> Ended(StatusOf(db, w.logRun))
    ensures Resumes(WorkerStep(db, w, act).worker.pc) ==> Resumes(w.pc)
    ensures Synthesizes(WorkerStep(db, w, act).worker.pc) ==> Synthesizes(w.pc)
  {
    hide TablesOk;
  }

  /** The log changes only by the event that a worker has drawn; logging a terminal event pays it. */
  lemma LoggedIsPaid(db: Db, w: Worker, act: Action)
    requires TablesOk(db) && WorkerOk(db, w) && CanAct(w.pc, act) && PlaceOk(w)
    ensures var out := WorkerStep(db, w, act);
            forall r: RunId, q: nat :: LogsTerminal(out.db, r, q) && !LogsTerminal(db, r, q) ==>
              w.pc.Log? && r == w.logRun && q == w.pc.seqNo && Owes(w.pc) && !Owes(out.worker.pc)
    ensures forall r: RunId, q: nat :: LogsTerminal(db, r, q) ==> LogsTerminal(WorkerStep(db, w, act).db, r, q)
  {
  }

  /** A pump ends silently only when it lost a claim or a guarded move, and then the run has ended. */
  lemma SilentEndIsLost(db: Db, w: Worker, act: Action)
    requires TablesOk(db) && WorkerOk(db, w) && CanAct(w.pc, act) && PlaceOk(w)
    requires Drives(w.pc) ==> MayDrive(StatusOf(db, w.run))
    requires w.pc.CommitCas? ==> w.pc.cited <= db.citations.Keys
    requires Resumes(w.pc) ==> !StatusOf(db, w.run).Running?
    requires w.pc.Lookup? ==> (PausedRun(db, w.thread).None? ==> Ended(StatusOf(db, w.run)))
    ensures var out := WorkerStep(db, w, act);
            EndsSilently(out.worker) ==> Ended(StatusOf(db, w.run)) && out.worker.run == w.run && out.db.runs == db.runs
  {
    hide TablesOk;
  }

  /** A lookup that finds nothing paused: the run it was accepted for has ended. */
  lemma NothingPaused(s: System, r: RunId)
    requires SystemOk(s) && OneActive(s.db) && r < |s.db.runs| && !StatusOf(s.db, r).Running?
    requires PausedRun(s.db, s.db.runs[r].thread).None?
    ensures Ended(StatusOf(s.db, r))
  {
  }

  lemma ActorStaysTidy(s: System, i: WorkerId, act: Action)
    requires Safe(s) && CitesOk(s) && Tidy(s) && CanStep(s, Act(i, act)) && SystemOk(ActStep(s, i, act))
    requires SamePause(s, Act(i, act)) && GuardedPause(s, Act(i, act))
    ensures WorkerTidy(ActStep(s, i, act).db, ActStep(s, i, act).workers[i])
  {
    var w := s.workers[i];
    assert WorkerTidy(s.db, w);
    PlaceStaysOk(s.db, w, act);
    OwingIsWon(s.db, w, act);
    NeitherResumesNorSynthesizes(s.db, w, act);
    assert WorkerCites(s, w);
    if w.pc.Lookup? && PausedRun(s.db, w.thread).None? { NothingPaused(s, w.run); }
    SilentEndIsLost(s.db, w, act);
    StepMoves(s.db, w, act);
    WorkerKeepsPlace(s.db, w, act);
  }

  lemma OtherStaysTidy(s: System, i: WorkerId, j: WorkerId, later: Db, next: Worker)
    requires Safe(s) && Tidy(s) && 0 <= i < |s.workers| && 0 <= j < |s.workers| && i != j
    requires Moves(s.db, s.workers[i], later, next, KindOf(s.db, s.workers[i])) && WorkerOk(later, s.workers[j])
    requires s.workers[i].pc.PauseStatus? ==> StatusOf(s.db, s.workers[i].run).Running?
    ensures WorkerTidy(later, s.workers[j])
  {
    assert WorkerTidy(s.db, s.workers[j]) && WorkerTidy(s.db, s.workers[i]);
  }

  lemma OthersStayTidy(s: System, i: WorkerId, later: Db, next: Worker)
    requires Safe(s) && Tidy(s) && 0 <= i < |s.workers|
    requires Moves(s.db, s.workers[i], later, next, KindOf(s.db, s.workers[i])) && Follows(s.db, later)
    requires s.workers[i].pc.PauseStatus? ==> StatusOf(s.db, s.workers[i].run).Running?
    ensures forall j :: 0 <= j < |s.workers| && j != i ==>
              WorkerOk(later, s.workers[j]) && WorkerTidy(later, s.workers[j])
  {
    WorkersStayOk(s, later);
    forall j | 0 <= j < |s.workers| && j != i ensures WorkerTidy(later, s.workers[j]) {
      OtherStaysTidy(s, i, j, later, next);
    }
  }

  lemma ActKeepsApart(s: System, i: WorkerId, act: Action)
    requires Safe(s) && Tidy(s) && CanStep(s, Act(i, act)) && SystemOk(ActStep(s, i, act)) && SamePause(s, Act(i, act))
    ensures Apart(ActStep(s, i, act).workers)
  {
    hide TablesOk;
    var w := s.workers[i];
    assert WorkerTidy(s.db, w);
    OwingIsWon(s.db, w, act);
    NeitherResumesNorSynthesizes(s.db, w, act);
    StepMoves(s.db, w, act);
    WorkerKeepsPlace(s.db, w, act);
    forall j | 0 <= j < |s.workers| && j != i && s.workers[j].run == w.run
      ensures !(Owes(s.workers[j].pc) && (KindOf(s.db, w).Ends? || KindOf(s.db, w).Dropped?))
    {
      assert WorkerTidy(s.db, s.workers[j]);
    }
  }

  lemma ActKeepsLogs(s: System, i: WorkerId, act: Action)
    requires Safe(s) && Tidy(s) && CanStep(s, Act(i, act)) && SystemOk(ActStep(s, i, act)) && SamePause(s, Act(i, act))
    requires GuardedPause(s, Act(i, act))
    ensures LogsOk(ActStep(s, i, act))
  {
    hide TablesOk;
    var w, later := s.workers[i], ActStep(s, i, act);
    assert WorkerTidy(s.db, w);
    OwingIsWon(s.db, w, act);
    LoggedIsPaid(s.db, w, act);
    StepMoves(s.db, w, act);
    WorkerKeepsPlace(s.db, w, act);
  }

  lemma ActKeepsTidy(s: System, i: WorkerId, act: Action)
    requires Safe(s) && CitesOk(s) && Tidy(s) && CanStep(s, Act(i, act)) && SystemOk(ActStep(s, i, act))
    requires SamePause(s, Act(i, act)) && GuardedPause(s, Act(i, act))
    ensures Tidy(ActStep(s, i, act))
  {
    hide TablesOk, Extends, WorkerOk;
    ActorStaysTidy(s, i, act);
    StepMoves(s.db, s.workers[i], act);
    WorkerStepFollows(s.db, s.workers[i], act);
    OthersStayTidy(s, i, WorkerStep(s.db, s.workers[i], act).db, WorkerStep(s.db, s.workers[i], act).worker);
    ActKeepsApart(s, i, act);
    ActKeepsLogs(s, i, act);
  }

  lemma QuietKeepsTidy(s: System, step: Step, later: System)
    requires Tidy(s) && SystemOk(later) && CanStep(s, step) && Quiet(s, step, later) && OneResume(s, step)
    ensures Tidy(later)
  {
    hide TablesOk;
    forall i | 0 <= i < |s.workers| ensures WorkerTidy(later.db, later.workers[i]) {
      assert WorkerTidy(s.db, s.workers[i]);
    }
    QuietKeepsApart(s, step, later);
    assert forall r: RunId, q: nat :: LogsTerminal(later.db, r, q) ==> LogsTerminal(s.db, r, q);
  }

  lemma QuietKeepsApart(s: System, step: Step, later: System)
    requires Tidy(s) && SystemOk(later) && CanStep(s, step) && Quiet(s, step, later) && OneResume(s, step)
    ensures Apart(later.workers)
  {
    hide TablesOk;
    forall i | 0 <= i < |s.workers| ensures s.workers[i].logRun == s.workers[i].run < |s.db.runs| {
      assert WorkerTidy(s.db, s.workers[i]);
    }
  }

  lemma StepKeepsTidy(s: System, step: Step)
    requires Safe(s) && CitesOk(s) && Tidy(s) && CanStep(s, step)
    requires GuardedPause(s, step) && OneResume(s, step) && SamePause(s, step)
    ensures Tidy(NextState(s, step))
  {
    StepKeepsSystem(s, step);
    if step.Act? {
      ActKeepsTidy(s, step.worker, step.act);
    } else {
      StepIsQuiet(s, step);
      QuietKeepsTidy(s, step, NextState(s, step));
    }
  }

  lemma LastStep(steps: seq<Step>)
    requires steps != [] && StateAfter(steps).Some? && Disciplined(steps)
    ensures var front, last := steps[..|steps| - 1], steps[|steps| - 1];
            && StateAfter(front).Some? && Disciplined(front)
            && CanStep(StateAfter(front).value, last)
            && GuardedPause(StateAfter(front).value, last) && OneResume(StateAfter(front).value, last)
            && SamePause(StateAfter(front).value, last)
            && StateAfter(steps).value == NextState(StateAfter(front).value, last)
  {
  }

  lemma InitIsTidy()
    ensures StateAfter([]).Some? && Tidy(StateAfter([]).value)
  {
    InitIsOk();
    EmptyIsTidy(INIT);
    hide Tidy, NextState, CanStep, SystemOk;
  }

  lemma InitIsOk()
    ensures SystemOk(INIT)
  {
    assert TablesOk(EMPTY);
  }

  lemma EmptyIsTidy(s: System)
    requires SystemOk(s) && s.workers == [] && s.db.events == map[]
    ensures Tidy(s)
  {
    hide SystemOk;
  }

  lemma {:induction false} DisciplinedIsTidy(steps: seq<Step>)
    requires StateAfter(steps).Some? && Disciplined(steps)
    ensures Tidy(StateAfter(steps).value)
  {
    hide *;
    if steps == [] {
      InitIsTidy();
    } else {
      LastStep(steps);
      DisciplinedIsTidy(steps[..|steps| - 1]);
      AlwaysSafe(steps[..|steps| - 1]);
      AlwaysCites(steps[..|steps| - 1]);
      StepKeepsTidy(StateAfter(steps[..|steps| - 1]).value, steps[|steps| - 1]);
    }
  }

  /** Main result: in a disciplined run of the system no log ever holds two terminal events, a
  logged terminal event means that the run has ended, and the pump's synthetic event is never drawn. */
  lemma SingleTerminal(steps: seq<Step>, r: RunId, p: nat, q: nat)
    requires StateAfter(steps).Some? && Disciplined(steps)
    requires LogsTerminal(StateAfter(steps).value.db, r, p) && LogsTerminal(StateAfter(steps).value.db, r, q)
    ensures p == q
    ensures r < |StateAfter(steps).value.db.runs| && Ended(StateAfter(steps).value.db.runs[r].status)
  {
    DisciplinedIsTidy(steps);
  }

  lemma {:induction false} NoSyntheticTerminal(steps: seq<Step>, i: WorkerId)
    requires StateAfter(steps).Some? && Disciplined(steps) && i < |StateAfter(steps).value.workers|
    ensures !Synthesizes(StateAfter(steps).value.workers[i].pc)
  {
    DisciplinedIsTidy(steps);
    assert WorkerTidy(StateAfter(steps).value.db, StateAfter(steps).value.workers[i]);
  }
}
