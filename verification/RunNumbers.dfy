/** Sequence numbers under every interleaving: each is drawn once, and whatever is yielded is logged. */
module RunNumbers {
  import opened Store
  import opened Forks
  import opened Runs
  import opened RunSafety

  /** The number of an event that a worker has drawn and not yet logged. */
  function Drawn(w: Worker): Option<nat> {
    match w.pc
    case Log(_, seqNo, _) => Some(seqNo)
    case StoreResult(_, _, seqNo) => Some(seqNo)
    case _ => None
  }

  /** What one step of a worker does to the counter of its thread, to the log and to its own number. */
  ghost predicate NumberMove(db: Db, w: Worker, later: Db, next: Worker)
    requires TablesOk(db) && WorkerOk(db, w)
  {
    && |later.threads| == |db.threads|
    && (forall t :: 0 <= t < |db.threads| && t != w.thread ==> later.threads[t].lastSeq == db.threads[t].lastSeq)
    && var old_, new_ := db.threads[w.thread].lastSeq, later.threads[w.thread].lastSeq;
       old_ <= new_
       && (if w.pc.Log?
           then Drawn(next) == None && later.events == AppendEvent(db, w.logRun, w.pc.seqNo, w.pc.name).events
           else later.events == db.events && Drawn(next) in {None, Drawn(w), Some(new_)}
                && (Drawn(next).Some? && Drawn(next) != Drawn(w) ==> old_ < new_))
  }

  lemma BoundaryNumbers(db: Db, w: Worker, act: Action)
    requires TablesOk(db) && WorkerOk(db, w) && w.pc.Loop? && CanAct(w.pc, act)
    ensures NumberMove(db, w, AtBoundary(db, w, act).db, AtBoundary(db, w, act).worker)
  {
  }

  lemma EmitNumbers(db: Db, w: Worker)
    requires TablesOk(db) && WorkerOk(db, w) && (w.pc.Draw? || w.pc.Log? || w.pc.UserMessage? || w.pc.StoreResult?)
    ensures NumberMove(db, w, Emit(db, w).db, Emit(db, w).worker)
  {
  }

  lemma LeaveNumbers(db: Db, w: Worker, now: int)
    requires TablesOk(db) && WorkerOk(db, w) && Drawn(w).None?
    ensures NumberMove(db, w, Leave(db, w, now).db, Leave(db, w, now).worker)
  {
    hide TablesOk;
  }

  lemma InterruptNumbers(db: Db, w: Worker, now: int)
    requires TablesOk(db) && WorkerOk(db, w) && Drawn(w).None?
    ensures NumberMove(db, w, InterruptStep(db, w, now).db, InterruptStep(db, w, now).worker)
  {
    hide TablesOk;
  }

  lemma ConcludeNumbers(db: Db, w: Worker, now: int)
    requires TablesOk(db) && WorkerOk(db, w) && (w.pc.Verify? || w.pc.ForgeCas? || w.pc.CommitCas?)
    ensures NumberMove(db, w, Conclude(db, w, now).db, Conclude(db, w, now).worker)
  {
  }

  lemma ResumeNumbers(db: Db, w: Worker, act: Action)
    requires TablesOk(db) && WorkerOk(db, w) && CanAct(w.pc, act) && Drawn(w).None?
    ensures NumberMove(db, w, ResumeStep(db, w, act).db, ResumeStep(db, w, act).worker)
    ensures NumberMove(db, w, PumpStep(db, w).db, PumpStep(db, w).worker)
  {
    hide TablesOk;
  }

  lemma StepNumbers(db: Db, w: Worker, act: Action)
    requires TablesOk(db) && WorkerOk(db, w) && CanAct(w.pc, act)
    ensures NumberMove(db, w, WorkerStep(db, w, act).db, WorkerStep(db, w, act).worker)
  {
    hide TablesOk, NumberMove, AtBoundary, Emit, Leave, Conclude, ResumeStep, InterruptStep, PumpStep;
    var now := if act.Go? then act.now else 0;
    match w.pc {
      case Loop => BoundaryNumbers(db, w, act);
      case Draw(_, _) => EmitNumbers(db, w);
      case Log(_, _, _) => EmitNumbers(db, w);
      case UserMessage => EmitNumbers(db, w);
      case StoreResult(_, _, _) => EmitNumbers(db, w);
      case Verify(_) => ConcludeNumbers(db, w, now);
      case ForgeCas => ConcludeNumbers(db, w, now);
      case CommitCas(_) => ConcludeNumbers(db, w, now);
      case Gone =>
      case _ =>
        LeaveNumbers(db, w, now);
        InterruptNumbers(db, w, now);
        ResumeNumbers(db, w, act);
    }
  }

  // ---- the invariant -----------------------------------------------------

  ghost predicate LoggedBelow(db: Db)
    requires TablesOk(db)
  {
    forall r: RunId, q: nat :: (r, q) in db.events ==> r < |db.runs| && q <= db.threads[db.runs[r].thread].lastSeq
  }

  predicate SameThread(db: Db, r: RunId, p: RunId) {
    r < |db.runs| && p < |db.runs| && db.runs[r].thread == db.runs[p].thread
  }

  /** No two logs of a thread hold the same number. */
  ghost predicate LoggedApart(db: Db) {
    forall r: RunId, p: RunId, q: nat :: (r, q) in db.events && (p, q) in db.events && SameThread(db, r, p) ==> r == p
  }

  /** The worker's number was drawn from its thread and is in none of the thread's logs. */
  ghost predicate PendingOk(db: Db, w: Worker)
    requires WorkerOk(db, w)
  {
    Drawn(w).Some? ==>
      && Drawn(w).value <= db.threads[w.thread].lastSeq
      && forall r: RunId :: r < |db.runs| && db.runs[r].thread == w.thread ==> (r, Drawn(w).value) !in db.events
  }

  ghost predicate PendingApart(workers: seq<Worker>) {
    forall i, j :: 0 <= i < j < |workers| && workers[i].thread == workers[j].thread && Drawn(workers[i]).Some? ==>
      Drawn(workers[i]) != Drawn(workers[j])
  }

  ghost predicate NumbersOk(s: System) {
    && SystemOk(s) && LoggedBelow(s.db) && LoggedApart(s.db) && PendingApart(s.workers)
    && forall i :: 0 <= i < |s.workers| ==> PendingOk(s.db, s.workers[i])
  }

  lemma MoveKeepsLog(db: Db, w: Worker, later: Db, next: Worker)
    requires TablesOk(db) && TablesOk(later) && WorkerOk(db, w) && LoggedBelow(db) && LoggedApart(db)
              && PendingOk(db, w)
    requires NumberMove(db, w, later, next) && Extends(db, later) && |later.runs| == |db.runs|
    ensures LoggedBelow(later) && LoggedApart(later)
  {
    hide TablesOk;
    assert forall r :: 0 <= r < |db.runs| ==> later.runs[r].thread == db.runs[r].thread < |db.threads| by {
      RunThreads(db);
    }
  }

  lemma RunThreads(db: Db)
    requires TablesOk(db)
    ensures forall r :: 0 <= r < |db.runs| ==> db.runs[r].thread < |db.threads|
  {
  }

  lemma MoveKeepsPending(db: Db, w: Worker, later: Db, next: Worker, v: Worker)
    requires TablesOk(db) && WorkerOk(db, w) && LoggedBelow(db) && PendingOk(db, w)
    requires NumberMove(db, w, later, next) && Extends(db, later) && |later.runs| == |db.runs|
    requires WorkerOk(db, v) && WorkerOk(later, v) && PendingOk(db, v)
    requires v.thread == w.thread && Drawn(v).Some? ==> Drawn(v) != Drawn(w)
    ensures PendingOk(later, v)
    ensures v.thread == w.thread && Drawn(v).Some? ==> Drawn(v) != Drawn(next)
  {
    hide TablesOk;
  }

  lemma MoveKeepsOwn(db: Db, w: Worker, later: Db, next: Worker)
    requires TablesOk(db) && WorkerOk(db, w) && LoggedBelow(db) && PendingOk(db, w)
    requires NumberMove(db, w, later, next) && Extends(db, later) && |later.runs| == |db.runs|
    requires WorkerOk(later, next) && next.thread == w.thread
    ensures PendingOk(later, next)
  {
    hide TablesOk;
  }

  lemma ActKeepsNumbers(s: System, i: WorkerId, act: Action)
    requires NumbersOk(s) && CanStep(s, Act(i, act))
    ensures NumbersOk(ActStep(s, i, act))
  {
    hide TablesOk, Extends, NumberMove, PendingOk, Drawn, LoggedBelow, LoggedApart, WorkerStep, WorkerOk;
    var later, w := ActStep(s, i, act), s.workers[i];
    var next := WorkerStep(s.db, w, act).worker;
    ActKeepsSystem(s, i, act);
    StepNumbers(s.db, w, act);
    WorkerStepRuns(s.db, w, act);
    WorkerKeepsPlace(s.db, w, act);
    MoveKeepsLog(s.db, w, later.db, next);
    assert later.workers[i] == next && WorkerOk(later.db, later.workers[i]);
    MoveKeepsOwn(s.db, w, later.db, next);
    forall j | 0 <= j < |s.workers| && j != i
      ensures WorkerOk(later.db, s.workers[j]) && PendingOk(later.db, s.workers[j])
      ensures s.workers[j].thread == w.thread && Drawn(s.workers[j]).Some? ==> Drawn(s.workers[j]) != Drawn(next)
    {
      assert later.workers[j] == s.workers[j] && WorkerOk(later.db, later.workers[j]);
      MoveKeepsPending(s.db, w, later.db, next, s.workers[j]);
    }
  }

  lemma QuietKeepsLogs(s: System, step: Step, later: System)
    requires NumbersOk(s) && Quiet(s, step, later) && SystemOk(later) && Extends(s.db, later.db)
    ensures LoggedBelow(later.db) && LoggedApart(later.db)
  {
    RunThreads(s.db);
    hide TablesOk;
  }

  lemma QuietKeepsPending(s: System, step: Step, later: System, i: WorkerId)
    requires NumbersOk(s) && Quiet(s, step, later) && SystemOk(later) && Extends(s.db, later.db)
    requires i < |later.workers|
    ensures PendingOk(later.db, later.workers[i])
    ensures Drawn(later.workers[i]).Some? ==> i < |s.workers| && later.workers[i] == s.workers[i]
  {
    RunThreads(s.db);
    hide TablesOk, LoggedApart, PendingApart;
    if i < |s.workers| { assert PendingOk(s.db, s.workers[i]); }
  }

  lemma QuietKeepsNumbers(s: System, step: Step, later: System)
    requires NumbersOk(s) && Quiet(s, step, later) && SystemOk(later) && Extends(s.db, later.db)
    ensures NumbersOk(later)
  {
    hide Quiet, TablesOk, Extends, PendingOk, LoggedBelow, LoggedApart, Drawn;
    QuietKeepsLogs(s, step, later);
    forall i | 0 <= i < |later.workers|
      ensures PendingOk(later.db, later.workers[i])
      ensures Drawn(later.workers[i]).Some? ==> i < |s.workers| && later.workers[i] == s.workers[i]
    {
      QuietKeepsPending(s, step, later, i);
    }
  }

  lemma {:induction false} AlwaysNumbered(steps: seq<Step>)
    requires StateAfter(steps).Some?
    ensures NumbersOk(StateAfter(steps).value)
  {
    hide TablesOk, NumbersOk, Quiet, CanStep, Extends;
    if steps == [] {
      NothingNumbered();
    } else {
      var before, last := StateAfter(steps[..|steps| - 1]).value, steps[|steps| - 1];
      AlwaysNumbered(steps[..|steps| - 1]);
      StepKeepsSystem(before, last);
      if last.Act? {
        ActKeepsNumbers(before, last.worker, last.act);
      } else {
        StepIsQuiet(before, last);
        QuietKeepsNumbers(before, last, StateAfter(steps).value);
      }
    }
  }

  lemma NothingNumbered()
    ensures NumbersOk(INIT)
  {
  }

  /** Main result, for every interleaving: a number of a thread is held by one log or by one pending
  event, never by two, and none lies above the thread's counter. */
  lemma {:induction false} NumbersNeverClash(steps: seq<Step>)
    requires StateAfter(steps).Some?
    ensures var s := StateAfter(steps).value;
            && (forall r: RunId, q: nat :: (r, q) in s.db.events ==>
                  r < |s.db.runs| && s.db.runs[r].thread < |s.db.threads|
                      && q <= s.db.threads[s.db.runs[r].thread].lastSeq)
            && LoggedApart(s.db)
            && PendingApart(s.workers)
            && forall i :: 0 <= i < |s.workers| ==> WorkerOk(s.db, s.workers[i]) && PendingOk(s.db, s.workers[i])
  {
    hide StateAfter, PendingOk, PendingApart;
    AlwaysNumbered(steps);
    RunThreads(StateAfter(steps).value.db);
  }

  /** Main result, for every interleaving: an event that a worker has yielded enters the log of its
  pump under its own name, and nothing in the log is touched. */
  lemma {:induction false} YieldedIsLogged(steps: seq<Step>, i: WorkerId, now: int)
    requires StateAfter(steps).Some? && i < |StateAfter(steps).value.workers|
              && StateAfter(steps).value.workers[i].pc.Log?
    ensures var s := StateAfter(steps).value;
            var w := s.workers[i];
            && CanStep(s, Act(i, Go(now))) && (w.logRun, w.pc.seqNo) !in s.db.events
            && NextState(s, Act(i, Go(now))).db.events == s.db.events[(w.logRun, w.pc.seqNo) := w.pc.name]
  {
    hide StateAfter, TablesOk;
    AlwaysNumbered(steps);
    var s := StateAfter(steps).value;
    assert PendingOk(s.db, s.workers[i]);
  }
}
