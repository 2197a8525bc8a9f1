/** When a log is appended in the order of its numbers: while one writer at a time has drawn a number
for it. An interrupt from outside is a second writer. */
module RunOrder {
  import opened Store
  import opened Forks
  import opened Runs
  import opened RunSafety
  import opened RunNumbers
  import opened RunTerminals
  import opened RunWitnesses

  /** No other worker holds a number for the same log. */
  predicate OnlyWriter(workers: seq<Worker>, i: WorkerId)
    requires i < |workers|
  {
    forall j :: 0 <= j < |workers| && j != i && workers[j].logRun == workers[i].logRun ==> Drawn(workers[j]).None?
  }

  /** A number for a log is drawn only while no other one is pending for it. */
  predicate WritesAlone(s: System, step: Step)
    requires SystemOk(s) && CanStep(s, step)
  {
    step.Act? ==>
      var w := s.workers[step.worker];
      Drawn(w).None? && Drawn(WorkerStep(s.db, w, step.act).worker).Some? ==> OnlyWriter(s.workers, step.worker)
  }

  predicate AlwaysAlone(steps: seq<Step>)
    requires StateAfter(steps).Some?
  {
    steps == []
    || (AlwaysAlone(steps[..|steps| - 1]) && WritesAlone(StateAfter(steps[..|steps| - 1]).value, steps[|steps| - 1]))
  }

  /** The number lies above everything in the log. */
  ghost predicate Above(db: Db, r: RunId, seqNo: nat) {
    forall q: nat :: (r, q) in db.events ==> q < seqNo
  }

  /** No two numbers are drawn for one log. */
  ghost predicate OneWriterEach(workers: seq<Worker>) {
    forall i, j :: 0 <= i < j < |workers| && Drawn(workers[i]).Some? && Drawn(workers[j]).Some? ==>
      workers[i].logRun != workers[j].logRun
  }

  /** Each drawn number lies above its log. */
  ghost predicate AllAbove(s: System) {
    forall i :: 0 <= i < |s.workers| && Drawn(s.workers[i]).Some? ==>
      Above(s.db, s.workers[i].logRun, Drawn(s.workers[i]).value)
  }

  ghost predicate InOrder(s: System) {
    AllAbove(s) && OneWriterEach(s.workers)
  }

  lemma DrawnIsAbove(db: Db, w: Worker, later: Db, next: Worker)
    requires TablesOk(db) && WorkerOk(db, w) && LoggedBelow(db) && NumberMove(db, w, later, next)
    requires Drawn(w).Some? ==> Above(db, w.logRun, Drawn(w).value)
    ensures Drawn(next).Some? ==> Above(later, w.logRun, Drawn(next).value)
  {
    hide TablesOk;
  }

  lemma ActKeepsOrder(s: System, i: WorkerId, act: Action)
    requires NumbersOk(s) && InOrder(s) && CanStep(s, Act(i, act)) && WritesAlone(s, Act(i, act))
    ensures InOrder(ActStep(s, i, act))
  {
    hide TablesOk, Drawn, WorkerStep, PendingOk, LoggedBelow, LoggedApart, WorkerOk, PendingApart;
    var later, w := ActStep(s, i, act), s.workers[i];
    var next := WorkerStep(s.db, w, act).worker;
    StepNumbers(s.db, w, act);
    WorkerKeepsPlace(s.db, w, act);
    DrawnIsAbove(s.db, w, later.db, next);
    assert !w.pc.Log? ==> later.db.events == s.db.events;
    if w.pc.Log? { LogIsPending(w); }
    forall j | 0 <= j < |s.workers| && j != i && Drawn(s.workers[j]).Some?
      ensures Above(later.db, s.workers[j].logRun, Drawn(s.workers[j]).value)
      ensures Drawn(next).Some? ==> s.workers[j].logRun != w.logRun
    {
      assert Drawn(w).Some? ==> s.workers[j].logRun != w.logRun;
    }
  }

  lemma LogIsPending(w: Worker)
    requires w.pc.Log?
    ensures Drawn(w) == Some(w.pc.seqNo)
  {
  }

  lemma QuietKeepsOrder(s: System, step: Step, later: System)
    requires NumbersOk(s) && InOrder(s) && Quiet(s, step, later) && SystemOk(later) && Extends(s.db, later.db)
    ensures InOrder(later)
  {
    forall i | 0 <= i < |later.workers|
      ensures Drawn(later.workers[i]).Some? ==> i < |s.workers| && later.workers[i] == s.workers[i]
    {
      QuietKeepsPending(s, step, later, i);
    }
    forall k | k in later.db.events ensures k in s.db.events {
    }
    hide Quiet, TablesOk, Extends, Drawn, NumbersOk;
  }

  lemma {:induction false} AloneIsInOrder(steps: seq<Step>)
    requires StateAfter(steps).Some? && AlwaysAlone(steps)
    ensures InOrder(StateAfter(steps).value)
  {
    hide TablesOk, NumbersOk, Quiet, CanStep, Extends, WritesAlone, InOrder;
    if steps == [] {
      NothingPending();
    } else {
      var before, last := StateAfter(steps[..|steps| - 1]).value, steps[|steps| - 1];
      AloneIsInOrder(steps[..|steps| - 1]);
      AlwaysNumbered(steps[..|steps| - 1]);
      StepKeepsSystem(before, last);
      if last.Act? {
        ActKeepsOrder(before, last.worker, last.act);
      } else {
        StepIsQuiet(before, last);
        QuietKeepsOrder(before, last, StateAfter(steps).value);
      }
    }
  }

  lemma NothingPending()
    ensures InOrder(INIT)
  {
  }

  /** Main result: with one writer at a time, whatever enters a log has a number above all that the
  log holds, so that `Tail.Stream` reads a log that grows at its end. */
  lemma {:induction false} AppendsAtTheEnd(steps: seq<Step>, i: WorkerId)
    requires StateAfter(steps).Some? && AlwaysAlone(steps)
    requires i < |StateAfter(steps).value.workers| && StateAfter(steps).value.workers[i].pc.Log?
    ensures var s := StateAfter(steps).value;
            Above(s.db, s.workers[i].logRun, s.workers[i].pc.seqNo)
  {
    hide StateAfter, AlwaysAlone, Above;
    AloneIsInOrder(steps);
    LogIsPending(StateAfter(steps).value.workers[i]);
  }

  // ---- one writer is what it takes -----------------------------------------

  /** The step draws no number. */
  predicate DrawsNothing(s: System, step: Step)
    requires SystemOk(s) && CanStep(s, step)
  {
    step.Act? ==>
      var w := s.workers[step.worker];
      Drawn(WorkerStep(s.db, w, step.act).worker) in {None, Drawn(w)}
  }

  /** The system can take these steps, and none of them draws a number. */
  ghost predicate Continues(s: System, more: seq<Step>)
    requires SystemOk(s)
    decreases |more|
  {
    more == []
    || (CanStep(s, more[0]) && DrawsNothing(s, more[0])
        && (StepKeepsSystem(s, more[0]); Continues(NextState(s, more[0]), more[1..])))
  }

  /** What the step appends to a log lies above all that the log holds. */
  ghost predicate AppendsAbove(s: System, step: Step)
    requires SystemOk(s) && CanStep(s, step)
  {
    step.Act? && s.workers[step.worker].pc.Log? ==>
      Above(s.db, s.workers[step.worker].logRun, s.workers[step.worker].pc.seqNo)
  }

  ghost predicate AppendsInOrder(s: System, more: seq<Step>)
    requires SystemOk(s) && Continues(s, more)
    decreases |more|
  {
    more == []
    || (AppendsAbove(s, more[0])
        && (StepKeepsSystem(s, more[0]); AppendsInOrder(NextState(s, more[0]), more[1..])))
  }

  lemma StepKeepsNumbers(s: System, step: Step)
    requires NumbersOk(s) && CanStep(s, step)
    ensures NumbersOk(NextState(s, step))
  {
    hide TablesOk, NumbersOk, Quiet, Extends;
    NumbersAreOk(s);
    StepKeepsSystem(s, step);
    if step.Act? {
      ActKeepsNumbers(s, step.worker, step.act);
    } else {
      StepIsQuiet(s, step);
      QuietKeepsNumbers(s, step, NextState(s, step));
    }
  }

  lemma NumbersAreOk(s: System)
    requires NumbersOk(s)
    ensures SystemOk(s)
  {
  }

  lemma StepKeepsOrder(s: System, step: Step)
    requires NumbersOk(s) && InOrder(s) && CanStep(s, step) && DrawsNothing(s, step)
    ensures InOrder(NextState(s, step)) && AppendsAbove(s, step)
  {
    hide TablesOk, NumbersOk, Quiet, Extends, WorkerStep, Above;
    NumbersAreOk(s);
    StepKeepsSystem(s, step);
    if step.Act? {
      ActKeepsOrder(s, step.worker, step.act);
      if s.workers[step.worker].pc.Log? { LogIsPending(s.workers[step.worker]); }
    } else {
      StepIsQuiet(s, step);
      QuietKeepsOrder(s, step, NextState(s, step));
    }
  }

  lemma {:induction false} OneWriterAppendsInOrder(s: System, more: seq<Step>)
    requires NumbersOk(s) && InOrder(s) && Continues(s, more)
    ensures AppendsInOrder(s, more)
    decreases |more|
  {
    hide TablesOk, NumbersOk, InOrder, NextState, CanStep, DrawsNothing, AppendsAbove;
    NumbersAreOk(s);
    if more != [] {
      StepKeepsNumbers(s, more[0]);
      StepKeepsOrder(s, more[0]);
      OneWriterAppendsInOrder(NextState(s, more[0]), more[1..]);
    }
  }

  /** Steps that break the order after one step break it together with that step. */
  lemma Before(s: System, step: Step, rest: seq<Step>)
    requires SystemOk(s) && CanStep(s, step) && DrawsNothing(s, step) && SystemOk(NextState(s, step))
    requires Continues(NextState(s, step), rest) && !AppendsInOrder(NextState(s, step), rest)
    ensures Continues(s, [step] + rest) && !AppendsInOrder(s, [step] + rest)
  {
    hide TablesOk, NextState, CanStep, DrawsNothing, AppendsAbove;
    assert ([step] + rest)[1..] == rest;
  }

  /** A worker that has drawn a number can go on, and does no more than log it or get ready to. */
  lemma Goes(s: System, i: WorkerId)
    requires NumbersOk(s) && i < |s.workers| && Drawn(s.workers[i]).Some?
    ensures SystemOk(s) && CanStep(s, Act(i, Go(0))) && DrawsNothing(s, Act(i, Go(0)))
    ensures var later, w := NextState(s, Act(i, Go(0))), s.workers[i];
            && NumbersOk(later) && |later.workers| == |s.workers|
            && (forall j :: 0 <= j < |s.workers| && j != i ==> later.workers[j] == s.workers[j])
            && (if w.pc.Log? then (w.logRun, w.pc.seqNo) in later.db.events
                else later.workers[i].pc.Log? && later.workers[i].pc.seqNo == Drawn(w).value
                     && later.workers[i].logRun == w.logRun && later.db.events == s.db.events)
  {
    hide TablesOk, NumbersOk;
    NumbersAreOk(s);
    StepKeepsNumbers(s, Act(i, Go(0)));
  }

  lemma BreaksNow(s: System, i: WorkerId) returns (more: seq<Step>)
    requires NumbersOk(s) && i < |s.workers| && Drawn(s.workers[i]).Some?
    requires !Above(s.db, s.workers[i].logRun, Drawn(s.workers[i]).value)
    ensures SystemOk(s) && Continues(s, more) && !AppendsInOrder(s, more)
    decreases s.workers[i].pc.StoreResult?
  {
    hide TablesOk, NumbersOk, NextState, Above, DrawsNothing;
    Goes(s, i);
    var step := Act(i, Go(0));
    if s.workers[i].pc.Log? {
      LogIsPending(s.workers[i]);
      StepKeepsSystem(s, step);
      more := [step];
      assert !AppendsAbove(s, step);
    } else {
      LogIsPending(NextState(s, step).workers[i]);
      AboveSame(s.db, NextState(s, step).db, s.workers[i].logRun, Drawn(s.workers[i]).value);
      var rest := BreaksNow(NextState(s, step), i);
      Before(s, step, rest);
      more := [step] + rest;
    }
  }

  lemma AboveSame(db: Db, later: Db, r: RunId, seqNo: nat)
    requires later.events == db.events
    ensures Above(later, r, seqNo) == Above(db, r, seqNo)
  {
  }

  lemma NotAbove(db: Db, r: RunId, q: nat, seqNo: nat)
    requires (r, q) in db.events && q >= seqNo
    ensures !Above(db, r, seqNo)
  {
  }

  /** Of two numbers drawn for one log, the larger may be logged first. */
  lemma PairBreaks(s: System, i: WorkerId, j: WorkerId) returns (more: seq<Step>)
    requires NumbersOk(s) && i < |s.workers| && j < |s.workers| && i != j
    requires Drawn(s.workers[i]).Some? && Drawn(s.workers[j]).Some? && s.workers[i].logRun == s.workers[j].logRun
    requires Drawn(s.workers[i]).value < Drawn(s.workers[j]).value
    ensures SystemOk(s) && Continues(s, more) && !AppendsInOrder(s, more)
    decreases s.workers[j].pc.StoreResult?
  {
    hide TablesOk, NumbersOk, NextState, Above, DrawsNothing, Continues, AppendsInOrder;
    Goes(s, j);
    var step := Act(j, Go(0));
    var later := NextState(s, step);
    var rest;
    if s.workers[j].pc.Log? {
      LogIsPending(s.workers[j]);
      NotAbove(later.db, s.workers[j].logRun, s.workers[j].pc.seqNo, Drawn(s.workers[i]).value);
      rest := BreaksNow(later, i);
    } else {
      LogIsPending(later.workers[j]);
      rest := PairBreaks(later, i, j);
    }
    StepKeepsSystem(s, step);
    Before(s, step, rest);
    more := [step] + rest;
  }

  lemma DrawnDiffer(s: System, i: WorkerId, j: WorkerId)
    requires NumbersOk(s) && i < j < |s.workers| && Drawn(s.workers[i]).Some?
    requires s.workers[i].logRun == s.workers[j].logRun
    ensures Drawn(s.workers[i]) != Drawn(s.workers[j])
  {
    hide TablesOk;
    assert WorkerOk(s.db, s.workers[i]) && WorkerOk(s.db, s.workers[j]);
  }

  /** Main result: in every history at a point where the drawn numbers lie above their logs, whatever the
  workers do next without drawing, they append in order, if and only if no two numbers are drawn for
  one log. */
  lemma {:induction false} OrderSurvives(steps: seq<Step>)
    requires StateAfter(steps).Some? && AllAbove(StateAfter(steps).value)
    ensures (forall more: seq<Step> :: Continues(StateAfter(steps).value, more) ==>
               AppendsInOrder(StateAfter(steps).value, more))
            <==> OneWriterEach(StateAfter(steps).value.workers)
  {
    hide StateAfter, TablesOk, NumbersOk, Continues, AppendsInOrder, Drawn, Above;
    AlwaysNumbered(steps);
    var s := StateAfter(steps).value;
    if OneWriterEach(s.workers) {
      forall more: seq<Step> | Continues(s, more) ensures AppendsInOrder(s, more) {
        OneWriterAppendsInOrder(s, more);
      }
    } else {
      var i, j :| 0 <= i < j < |s.workers| && Drawn(s.workers[i]).Some? && Drawn(s.workers[j]).Some?
        && s.workers[i].logRun == s.workers[j].logRun;
      DrawnDiffer(s, i, j);
      var more;
      if Drawn(s.workers[i]).value < Drawn(s.workers[j]).value {
        more := PairBreaks(s, i, j);
      } else {
        more := PairBreaks(s, j, i);
      }
    }
  }

  /** Main result: numbers are drawn by one writer at a time exactly when at no point of the history two
  are drawn for one log. */
  lemma {:induction false} AloneMeansOneWriter(steps: seq<Step>)
    requires StateAfter(steps).Some?
    ensures AlwaysAlone(steps)
            <==> forall n :: 0 <= n <= |steps| && StateAfter(steps[..n]).Some? ==>
                OneWriterEach(StateAfter(steps[..n]).value.workers)
  {
    hide StateAfter, AlwaysAlone, OneWriterEach, AllAbove;
    if AlwaysAlone(steps) {
      forall n | 0 <= n <= |steps| && StateAfter(steps[..n]).Some?
          ensures OneWriterEach(StateAfter(steps[..n]).value.workers) {
        AlonePrefix(steps, n);
        AloneIsInOrder(steps[..n]);
      }
    } else {
      var n := NotAloneShows(steps);
    }
  }

  lemma {:induction false} AlonePrefix(steps: seq<Step>, n: nat)
    requires StateAfter(steps).Some? && AlwaysAlone(steps) && n <= |steps| && StateAfter(steps[..n]).Some?
    ensures AlwaysAlone(steps[..n])
    decreases |steps|
  {
    hide NextState, CanStep, SystemOk, WritesAlone;
    if n < |steps| {
      assert steps[..|steps| - 1][..n] == steps[..n];
      AlonePrefix(steps[..|steps| - 1], n);
    } else {
      assert steps[..n] == steps;
    }
  }

  /** A draw beside another pending number leaves two. */
  lemma DrawsSecond(s: System, step: Step)
    requires SystemOk(s) && CanStep(s, step) && !WritesAlone(s, step)
    ensures !OneWriterEach(NextState(s, step).workers)
  {
    hide TablesOk, WorkerStep;
    var i, w := step.worker, s.workers[step.worker];
    var next := WorkerStep(s.db, w, step.act).worker;
    WorkerKeepsPlace(s.db, w, step.act);
    var j :| 0 <= j < |s.workers| && j != i && s.workers[j].logRun == w.logRun && Drawn(s.workers[j]).Some?;
    var later := NextState(s, step).workers;
    assert later[i] == next && later[j] == s.workers[j];
    assert Drawn(later[i]).Some? && Drawn(later[j]).Some? && later[i].logRun == later[j].logRun;
  }

  lemma {:induction false} NotAloneShows(steps: seq<Step>) returns (n: nat)
    requires StateAfter(steps).Some? && !AlwaysAlone(steps)
    ensures n <= |steps| && StateAfter(steps[..n]).Some? && !OneWriterEach(StateAfter(steps[..n]).value.workers)
  {
    hide NextState, CanStep, SystemOk, WritesAlone, OneWriterEach;
    var front, last := steps[..|steps| - 1], steps[|steps| - 1];
    if AlwaysAlone(front) {
      DrawsSecond(StateAfter(front).value, last);
      n := |steps|;
      assert steps[..n] == steps;
    } else {
      n := NotAloneShows(front);
      assert steps[..n] == front[..n];
    }
  }

  /** Another instance interrupts a run between the draw and the append of one of its events. The end of
  the run is logged first, and the event enters the log below it. */
  lemma InterruptBreaksOrder() returns (steps: seq<Step>, i: WorkerId)
    ensures StateAfter(steps).Some? && i < |StateAfter(steps).value.workers|
    ensures var s := StateAfter(steps).value;
            s.workers[i].pc.Log? && !Above(s.db, s.workers[i].logRun, s.workers[i].pc.seqNo)
  {
    var but := {PausesGuarded};
    var v;
    steps, v := InterruptsBeforeAppend(but);
    i := 0;
    assert (0, 4) in v.events;
  }

  lemma InterruptsBeforeAppend(but: set<Hypothesis>) returns (steps: seq<Step>, v: View)
    ensures Reaches(steps, v, but) && |v.workers| == 2 && (0, 4) in v.events
    ensures v.workers[0].pc == Log(ToolResult, 3, ToLoop) && v.workers[0].logRun == 0
  {
    hide Reaches;
    steps, v := StartsEmpty(but);
    steps, v := Begins(steps, v, but);
    steps, v := Chooses(steps, v, but, 0, Notice);
    steps, v := DrawsNumber(steps, v, but, 0);
    steps, v := Asks(steps, v, but, InterruptRun(0, false), Fresh(0, 0, InterruptRunning));
    steps, v := WinsMove(steps, v, but, 1);
    steps, v := Emits(steps, v, but, 1, 0, RunDone, ToGone);
  }

  /** So does the same instance, when a run is interrupted after its pause has been written and before
  the request for approval is logged. */
  lemma EarlyInterruptBreaksOrder() returns (steps: seq<Step>, i: WorkerId)
    ensures StateAfter(steps).Some? && i < |StateAfter(steps).value.workers|
    ensures var s := StateAfter(steps).value;
            && s.workers[i].pc.Log? && s.workers[i].pc.name.ApprovalRequested?
            && !Above(s.db, s.workers[i].logRun, s.workers[i].pc.seqNo)
  {
    var v;
    steps, v := InterruptsBeforeRequest({PausesGuarded});
    i := 0;
    assert (0, 4) in v.events;
  }

  lemma InterruptsBeforeRequest(but: set<Hypothesis>) returns (steps: seq<Step>, v: View)
    ensures Reaches(steps, v, but) && |v.workers| == 2 && (0, 4) in v.events
    ensures v.workers[0].pc == Log(ApprovalRequested, 3, ToPumpEnd) && v.workers[0].logRun == 0
  {
    hide Reaches;
    steps, v := StartsEmpty(but);
    steps, v := Begins(steps, v, but);
    steps, v := Chooses(steps, v, but, 0, Pause);
    steps, v := WritesPauseRow(steps, v, but, 0);
    steps, v := SetsCells(steps, v, but, 0);
    steps, v := DrawsNumber(steps, v, but, 0);
    steps, v := InterruptsPaused(steps, v, but, 0);
  }
}
