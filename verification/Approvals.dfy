/** When a run that waits for approval expires: by the age of the run, not by how long it has waited. */
module Approvals {
  import opened Store
  import opened Forks
  import opened Runs
  import opened RunSafety
  import opened Heartbeats
  import opened RunTerminals
  import opened RunWitnesses

  /** When a run was opened, as its history tells. */
  function StartTime(steps: seq<Step>, r: RunId): int
    requires StateAfter(steps).Some?
  {
    if steps == [] then 0
    else
      var front, last := steps[..|steps| - 1], steps[|steps| - 1];
      if Opened(StateAfter(front).value, last) == Some(r) then last.now else StartTime(front, r)
  }

  /** The step writes a pause of the run. */
  predicate PausesRun(s: System, step: Step, r: RunId)
    requires SystemOk(s) && CanStep(s, step)
  {
    step.Act? && s.workers[step.worker].run == r && WritesPause(s.db, s.workers[step.worker])
  }

  /** When a run was last paused, as its history tells. */
  function PauseTime(steps: seq<Step>, r: RunId): int
    requires StateAfter(steps).Some?
  {
    if steps == [] then 0
    else
      var front, last := steps[..|steps| - 1], steps[|steps| - 1];
      if PausesRun(StateAfter(front).value, last, r) then Clock(last).value else PauseTime(front, r)
  }

  /** The time a step reads, if it reads one. */
  function Clock(step: Step): Option<int> {
    match step
    case StartRun(_, now) => Some(now)
    case SweepRuns(_, _, now) => Some(now)
    case Beat(_, now) => Some(now)
    case Act(_, act) => if act.Go? then Some(act.now) else None
    case _ => None
  }

  /** All instances read one clock, which does not go back. */
  predicate OneClock(steps: seq<Step>) {
    forall i, j :: 0 <= i < j < |steps| && Clock(steps[i]).Some? && Clock(steps[j]).Some? ==>
      Clock(steps[i]).value <= Clock(steps[j]).value
  }

  // ---- the row holds the time of the start --------------------------------

  lemma WorkerKeepsStarts(db: Db, w: Worker, act: Action)
    requires TablesOk(db) && WorkerOk(db, w) && CanAct(w.pc, act)
    ensures |WorkerStep(db, w, act).db.runs| == |db.runs|
    ensures forall r :: 0 <= r < |db.runs| ==> WorkerStep(db, w, act).db.runs[r].startedAt == db.runs[r].startedAt
  {
    hide TablesOk;
  }

  lemma StepKeepsStarts(s: System, step: Step, r: RunId)
    requires SystemOk(s) && CanStep(s, step) && r < |NextState(s, step).db.runs|
    ensures r < |s.db.runs| ==> NextState(s, step).db.runs[r].startedAt == s.db.runs[r].startedAt
    ensures r < |s.db.runs| ==> Opened(s, step) != Some(r)
    ensures r >= |s.db.runs| ==> Opened(s, step) == Some(r) && NextState(s, step).db.runs[r].startedAt == step.now
  {
    hide TablesOk;
    if step.Act? { WorkerKeepsStarts(s.db, s.workers[step.worker], step.act); }
  }

  lemma {:induction false} StartIsStartTime(steps: seq<Step>, r: RunId)
    requires StateAfter(steps).Some? && r < |StateAfter(steps).value.db.runs|
    ensures StateAfter(steps).value.db.runs[r].startedAt == StartTime(steps, r)
    ensures exists i :: 0 <= i < |steps| && Clock(steps[i]) == Some(StartTime(steps, r))
  {
    hide CanStep, NextState, SystemOk, Opened;
    if steps != [] {
      var front, last := steps[..|steps| - 1], steps[|steps| - 1];
      var before := StateAfter(front).value;
      StepKeepsStarts(before, last, r);
      if r < |before.db.runs| {
        StartIsStartTime(front, r);
        var i :| 0 <= i < |front| && Clock(front[i]) == Some(StartTime(front, r));
        assert steps[i] == front[i];
      } else {
        OpenedStarts(before, last);
        assert Clock(steps[|steps| - 1]) == Some(StartTime(steps, r));
      }
    }
  }

  lemma OpenedStarts(s: System, step: Step)
    requires SystemOk(s) && CanStep(s, step) && Opened(s, step).Some?
    ensures step.StartRun?
  {
  }

  // ---- a pause comes after the start --------------------------------------

  lemma PauseCount(s: System, step: Step, r: RunId)
    requires SystemOk(s) && CanStep(s, step) && SystemOk(NextState(s, step)) && r < |NextState(s, step).db.runs|
    ensures if r < |s.db.runs| then NextState(s, step).pauses[r] == s.pauses[r] + if PausesRun(s, step, r) then 1 else 0
            else NextState(s, step).pauses[r] == 0
    ensures PausesRun(s, step, r) ==> r < |s.db.runs| && Clock(step).Some?
  {
    hide TablesOk;
    if step.Act? { WorkerStepRuns(s.db, s.workers[step.worker], step.act); }
  }

  lemma {:induction false} PausedAfterStart(steps: seq<Step>, r: RunId)
    requires StateAfter(steps).Some? && OneClock(steps) && r < |StateAfter(steps).value.db.runs|
    ensures StateAfter(steps).value.pauses[r] > 0 ==> StartTime(steps, r) <= PauseTime(steps, r)
  {
    hide CanStep, NextState, SystemOk, Opened, PausesRun;
    if steps != [] {
      var front, last := steps[..|steps| - 1], steps[|steps| - 1];
      var before := StateAfter(front).value;
      StepKeepsSystem(before, last);
      PauseCount(before, last, r);
      StepKeepsStarts(before, last, r);
      if r < |before.db.runs| {
        assert OneClock(front);
        PausedAfterStart(front, r);
        StartIsStartTime(front, r);
        var i :| 0 <= i < |front| && Clock(front[i]) == Some(StartTime(front, r));
        assert steps[i] == front[i] && steps[|steps| - 1] == last;
      }
    }
  }

  // ---- main results ------------------------------------------------------

  /** Main result: in every history the sweep of waiting runs ends a run if and only if it waits and
  was started more than `ttl` ago. */
  lemma {:induction false} ExpiresByAge(steps: seq<Step>, r: RunId, now: int, ttl: int)
    requires StateAfter(steps).Some? && r < |StateAfter(steps).value.db.runs|
    ensures var db := StateAfter(steps).value.db;
            && (ExpireApprovals(db, now, ttl).runs[r] != db.runs[r]
                <==> db.runs[r].status.AwaitingApproval? && StartTime(steps, r) < now - ttl)
            && (ExpireApprovals(db, now, ttl).runs[r] != db.runs[r] ==>
                ExpireApprovals(db, now, ttl).runs[r].status.Error?)
  {
    hide StateAfter, StartTime, TablesOk;
    StartIsStartTime(steps, r);
  }

  /** Main result: by one clock, a waiting run expires when it has waited longer than `ttl`, and
  besides exactly when it was started before and paused within that time. So age and waiting time
  agree if and only if the limit does not fall between start and pause. */
  lemma {:induction false} AgeAgainstWaiting(steps: seq<Step>, r: RunId, now: int, ttl: int)
    requires StateAfter(steps).Some? && OneClock(steps) && r < |StateAfter(steps).value.db.runs|
    requires StateAfter(steps).value.db.runs[r].status.AwaitingApproval?
    ensures var db := StateAfter(steps).value.db;
            var expires, waited := ExpireApprovals(db, now, ttl).runs[r].status.Error?, PauseTime(steps, r) < now - ttl;
            && (waited ==> expires)
            && ((expires <==> waited) <==> !(StartTime(steps, r) < now - ttl <= PauseTime(steps, r)))
  {
    hide StateAfter, StartTime, PauseTime, TablesOk, OneClock;
    AlwaysSafe(steps);
    StartIsStartTime(steps, r);
    PausedAfterStart(steps, r);
    WaitingWasPaused(StateAfter(steps).value, r);
  }

  lemma WaitingWasPaused(s: System, r: RunId)
    requires Safe(s) && r < |s.db.runs| && s.db.runs[r].status.AwaitingApproval?
    ensures s.pauses[r] > 0
  {
    hide TablesOk, Driven;
  }

  // ---- reachable histories -------------------------------------------------

  lemma Extended(steps: seq<Step>, step: Step)
    requires StateAfter(steps).Some? && CanStep(StateAfter(steps).value, step)
    ensures StateAfter(steps + [step]) == Some(NextState(StateAfter(steps).value, step))
    ensures (steps + [step])[..|steps|] == steps && (steps + [step])[|steps|] == step
  {
  }

  /** A run started at time 0 whose driver is about to write its pause. */
  lemma AboutToPause() returns (steps: seq<Step>, v: View)
    ensures Reaches(steps, v, {PausesGuarded}) && v.runs == [Run(0, Running, None, 0, 0)]
    ensures v.workers == [Looping(0, PauseStatus)]
  {
    hide Reaches;
    steps, v := StartsEmpty({PausesGuarded});
    steps, v := Begins(steps, v, {PausesGuarded});
    steps, v := Chooses(steps, v, {PausesGuarded}, 0, Pause);
  }

  lemma PausesLate(steps: seq<Step>, v: View)
    requires Reaches(steps, v, {PausesGuarded}) && v.runs == [Run(0, Running, None, 0, 0)]
    requires v.workers == [Looping(0, PauseStatus)]
    ensures StateAfter(steps + [Act(0, Go(1000))]).Some? && PausesRun(StateAfter(steps).value, Act(0, Go(1000)), 0)
    ensures StateAfter(steps + [Act(0, Go(1000))]).value.db.runs == [Run(0, AwaitingApproval, None, 0, 0)]
    ensures PauseTime(steps + [Act(0, Go(1000))], 0) == 1000
  {
    hide TablesOk;
    InSight(StateAfter(steps).value, v, 0);
    Extended(steps, Act(0, Go(1000)));
  }

  /** Main result: a reachable run that is paused at time 1000, has waited for 1 at time 1001, and is
  expired by a limit of 500. */
  lemma ExpiresWithoutWaiting() returns (steps: seq<Step>)
    ensures StateAfter(steps).Some? && |StateAfter(steps).value.db.runs| == 1
    ensures StateAfter(steps).value.db.runs[0].status.AwaitingApproval? && PauseTime(steps, 0) == 1000
    ensures var step := SweepRuns(AwaitingApproval, OldRuns(StateAfter(steps).value.db, 1001, 500), 1001);
            CanStep(StateAfter(steps).value, step)
            && NextState(StateAfter(steps).value, step).db == ExpireApprovals(StateAfter(steps).value.db, 1001, 500)
            && NextState(StateAfter(steps).value, step).db.runs[0].status.Error?
  {
    hide TablesOk, StateAfter, PauseTime, Reaches, PausesRun;
    var v;
    steps, v := AboutToPause();
    PausesLate(steps, v);
    steps := steps + [Act(0, Go(1000))];
  }

  /** A run started and paused at time 0 whose approval is about to claim the pause. */
  lemma AboutToApprove() returns (steps: seq<Step>, v: View)
    ensures Reaches(steps, v, {PausesGuarded}) && v.runs == [Run(0, AwaitingApproval, None, 0, 0)] && |v.workers| == 2
    ensures v.workers[1] == Fresh(0, 0, ApproveCas(None))
  {
    hide Reaches;
    steps, v := StartsPaused({PausesGuarded});
    steps, v := Asks(steps, v, {PausesGuarded}, ResumeRun(0, Approve), Fresh(0, 0, Lookup(Approve)));
    steps, v := LooksUp(steps, v, {PausesGuarded}, 1, 0);
  }

  lemma ApprovesLate(steps: seq<Step>, v: View)
    requires Reaches(steps, v, {PausesGuarded}) && v.runs == [Run(0, AwaitingApproval, None, 0, 0)] && |v.workers| == 2
    requires v.workers[1] == Fresh(0, 0, ApproveCas(None))
    ensures var more := steps + [Act(1, Go(1000))];
            && StateAfter(more).Some? && StateAfter(more).value.db.runs == [Run(0, Running, None, 0, 0)]
            && 1 < |StateAfter(more).value.workers| && Drives(StateAfter(more).value.workers[1].pc)
  {
    hide TablesOk;
    InSight(StateAfter(steps).value, v, 1);
    Extended(steps, Act(1, Go(1000)));
  }

  /** Main result: a reachable run that waits from time 0, is approved at time 1000, and is swept at
  time 1001 for a silence of 30, while its driver has only just started. */
  lemma SweptAfterApproval() returns (steps: seq<Step>)
    ensures steps != [] && steps[|steps| - 1] == Act(1, Go(1000)) && StateAfter(steps).Some?
    ensures var s := StateAfter(steps).value;
            var step := SweepRuns(Running, StaleRuns(s.db, 1001, 30), 1001);
            && |s.db.runs| == 1 && s.db.runs[0].status.Running? && 1 < |s.workers| && Drives(s.workers[1].pc)
            && CanStep(s, step) && NextState(s, step).db == Reconcile(s.db, 1001, 30)
            && NextState(s, step).db.runs[0].status.Error?
    ensures StateAfter(steps[..|steps| - 1]).Some?
            && StateAfter(steps[..|steps| - 1]).value.db.runs == [Run(0, AwaitingApproval, None, 0, 0)]
  {
    hide TablesOk, StateAfter;
    var v;
    steps, v := AboutToApprove();
    ApprovesLate(steps, v);
    assert (steps + [Act(1, Go(1000))])[..|steps|] == steps;
    steps := steps + [Act(1, Go(1000))];
  }
}
