/** What the state records beside the tables is what the history says. */
module RunRecords {
  import opened Store
  import opened Forks
  import opened Runs
  import opened RunSafety

  // ---- pauses, freezes and crashes ---------------------------------------

  predicate IsPaused(s: System, r: RunId) {
    r < |s.db.runs| && s.db.runs[r].status.AwaitingApproval?
  }

  /** How often the run came to wait, and how often it ceased to wait. */
  function Entries(steps: seq<Step>, r: RunId): nat
    requires StateAfter(steps).Some?
  {
    if steps == [] then 0
    else
      var front := steps[..|steps| - 1];
      Entries(front, r) + if !IsPaused(StateAfter(front).value, r) && IsPaused(StateAfter(steps).value, r) then 1 else 0
  }

  function Exits(steps: seq<Step>, r: RunId): nat
    requires StateAfter(steps).Some?
  {
    if steps == [] then 0
    else
      var front := steps[..|steps| - 1];
      Exits(front, r) + if IsPaused(StateAfter(front).value, r) && !IsPaused(StateAfter(steps).value, r) then 1 else 0
  }

  /** A driver of the run took the citation from a tool artifact. */
  predicate Froze(steps: seq<Step>, r: RunId, c: CitationId)
    requires StateAfter(steps).Some?
  {
    steps != []
    && var front, last := steps[..|steps| - 1], steps[|steps| - 1];
       Froze(front, r, c)
       || (last.Act? && last.act.Freeze? && last.act.citation == c
           && StateAfter(front).value.workers[last.worker].run == r)
  }

  predicate LostDriver(steps: seq<Step>, r: RunId)
    requires StateAfter(steps).Some?
  {
    steps != []
    && var front, last := steps[..|steps| - 1], steps[|steps| - 1];
       LostDriver(front, r) || (last.Crash? && StateAfter(front).value.workers[last.worker].run == r)
  }

  lemma ActCountsPauses(s: System, i: WorkerId, act: Action, r: RunId)
    requires SystemOk(s) && Driven(s) && CanStep(s, Act(i, act)) && r < |s.db.runs|
    ensures var later := NextState(s, Act(i, act));
            && r < |later.db.runs| == |s.db.runs| && r < |later.pauses| && r < |later.consumed|
            && later.pauses[r] == s.pauses[r] + (if !IsPaused(s, r) && IsPaused(later, r) then 1 else 0)
            && later.consumed[r] == s.consumed[r] + (if IsPaused(s, r) && !IsPaused(later, r) then 1 else 0)
  {
    hide TablesOk, WorkerStep;
    StepMoves(s.db, s.workers[i], act);
    WorkerStepRuns(s.db, s.workers[i], act);
  }

  lemma StepCountsPauses(s: System, step: Step, r: RunId)
    requires SystemOk(s) && Driven(s) && CanStep(s, step) && r < |NextState(s, step).db.runs|
    ensures var later := NextState(s, step);
            && |later.pauses| == |later.consumed| == |later.db.runs|
            && later.pauses[r] == (if r < |s.db.runs| then s.pauses[r] else 0)
                                  + (if !IsPaused(s, r) && IsPaused(later, r) then 1 else 0)
            && later.consumed[r] == (if r < |s.db.runs| then s.consumed[r] else 0)
                                    + (if IsPaused(s, r) && !IsPaused(later, r) then 1 else 0)
  {
    StepKeepsSystem(s, step);
    hide TablesOk;
    match step {
      case Act(i, act) => WorkerStepRuns(s.db, s.workers[i], act); ActCountsPauses(s, i, act, r);
      case _ =>
    }
  }

  lemma {:induction false} NoRunYet(steps: seq<Step>, r: RunId)
    requires StateAfter(steps).Some? && r >= |StateAfter(steps).value.db.runs|
    ensures Entries(steps, r) == 0 && Exits(steps, r) == 0
  {
    hide StateAfter, NextState, CanStep, SystemOk;
    if steps != [] {
      LastOf(steps);
      StepKeepsSystem(StateAfter(steps[..|steps| - 1]).value, steps[|steps| - 1]);
      NoRunYet(steps[..|steps| - 1], r);
    }
  }

  /** Main result, for every interleaving: the two counters of a run count how often it came to wait and
  how often it ceased to. */
  lemma {:induction false} PausesAreCounted(steps: seq<Step>, r: RunId)
    requires StateAfter(steps).Some? && r < |StateAfter(steps).value.db.runs|
    ensures var s := StateAfter(steps).value;
            r < |s.pauses| && r < |s.consumed| && s.pauses[r] == Entries(steps, r) && s.consumed[r] == Exits(steps, r)
  {
    hide StateAfter, NextState, CanStep, SystemOk, IsPaused, Driven;
    if steps == [] {
      NoRuns();
    } else {
      LastOf(steps);
      var front, last := steps[..|steps| - 1], steps[|steps| - 1];
      AlwaysSafe(front);
      StepCountsPauses(StateAfter(front).value, last, r);
      if r < |StateAfter(front).value.db.runs| { PausesAreCounted(front, r); } else { NoRunYet(front, r); }
    }
  }

  lemma NoRuns()
    ensures StateAfter([]).Some? && StateAfter([]).value == INIT
  {
    hide NextState, CanStep, SystemOk;
  }

  lemma StepRecords(s: System, step: Step)
    requires SystemOk(s) && CanStep(s, step)
    ensures step.Crash? || step.Act? ==> step.worker < |s.workers|
    ensures NextState(s, step).frozenBy ==
            s.frozenBy + if step.Act? && step.act.Freeze? then {(s.workers[step.worker].run, step.act.citation)} else {}
    ensures NextState(s, step).crashed == s.crashed + if step.Crash? then {s.workers[step.worker].run} else {}
  {
    hide TablesOk;
  }

  /** Main result, for every interleaving: the recorded freezes and crashes are those of the history. */
  lemma {:induction false} RecordsAreHistory(steps: seq<Step>, r: RunId, c: CitationId)
    requires StateAfter(steps).Some?
    ensures (r, c) in StateAfter(steps).value.frozenBy <==> Froze(steps, r, c)
    ensures r in StateAfter(steps).value.crashed <==> LostDriver(steps, r)
  {
    hide StateAfter, NextState, CanStep, SystemOk;
    if steps == [] {
      NoRuns();
    } else {
      LastOf(steps);
      RecordsAreHistory(steps[..|steps| - 1], r, c);
      StepRecords(StateAfter(steps[..|steps| - 1]).value, steps[|steps| - 1]);
    }
  }

  // ---- steps that no worker takes ----------------------------------------

  /** New threads are roots, or forks at one of their parent's own messages, which number them. */
  lemma ThreadsOfStep(s: System, step: Step)
    requires SystemOk(s) && CanStep(s, step) && !step.Act?
    ensures NextState(s, step).db.threads == s.db.threads +
            match step
            case NewThread => [Thread(None, 0)]
            case NewFork(parent, point) =>
              if point < |s.db.messages| && s.db.messages[point].thread == parent
              then [Thread(Some(Fork(parent, point)), s.db.messages[point].seqNo)] else []
            case _ => []
  {
    hide TablesOk;
  }

  /** Some run of the thread runs or waits. */
  ghost predicate Busy(db: Db, t: ThreadId) {
    exists o :: 0 <= o < |db.runs| && db.runs[o].thread == t
                && (db.runs[o].status.Running? || db.runs[o].status.AwaitingApproval?)
  }

  /** A run is opened unless its thread has one that runs or waits; sweeps and heartbeats change the runs
  they name, and nothing else does. */
  lemma RunsOfStep(s: System, step: Step, r: RunId)
    requires SystemOk(s) && CanStep(s, step) && !step.Act?
    ensures var later := NextState(s, step).db;
            var busy := step.StartRun? && Busy(s.db, step.thread);
            && |later.runs| == |s.db.runs| + (if step.StartRun? && !busy then 1 else 0)
            && (r == |s.db.runs| < |later.runs| ==>
                  step.StartRun? && later.runs[r] == Run(step.thread, Running, None, step.now, step.now))
            && (r < |s.db.runs| ==>
                  later.runs[r] ==
                  if step.SweepRuns? && r in step.stale && s.db.runs[r].status == step.from
                  then s.db.runs[r].(status := Error, endedAt := Some(step.now))
                  else if step.Beat? && r in step.alive && s.db.runs[r].status.Running?
                  then s.db.runs[r].(heartbeat := step.now) else s.db.runs[r])
  {
    hide TablesOk;
  }

  /** Cells change only by a sweep, events only by collection, and stored citations never. */
  lemma RowsOfStep(s: System, step: Step, k: MessageId, r: RunId, q: nat)
    requires SystemOk(s) && CanStep(s, step) && !step.Act?
    ensures var later := NextState(s, step).db;
            && |later.messages| == |s.db.messages| && later.citations == s.db.citations
            && (k < |s.db.messages| ==>
                  var m := s.db.messages[k];
                  later.messages[k] ==
                  if step.SweepRuns? && m.run < |s.db.runs| && m.run in step.stale
                     && s.db.runs[m.run].status == step.from && m.role.Tool? && m.result.None?
                  then m.(result := Some(INTERRUPTED_TOOL)) else m)
            && ((r, q) in later.events <==>
                  (r, q) in s.db.events
                  && !(step.CollectEvents? && r in step.expired && r < |s.db.runs| && s.db.runs[r].endedAt.Some?))
            && ((r, q) in later.events ==> later.events[(r, q)] == s.db.events[(r, q)])
  {
    hide TablesOk;
  }
}
