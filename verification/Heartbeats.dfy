/** Which runs a sweep takes: heartbeats against the clock, under every interleaving. */
module Heartbeats {
  import opened Store
  import opened Forks
  import opened Runs
  import opened RunSafety

  /** The runs whose last heartbeat is more than `secs` back. */
  function StaleRuns(db: Db, now: int, secs: int): set<RunId> {
    set r: nat | r < |db.runs| && db.runs[r].heartbeat < now - secs
  }

  /** The periodic sweep of runs that nobody keeps alive. */
  function Reconcile(db: Db, now: int, secs: int): Db {
    Sweep(db, Running, StaleRuns(db, now, secs), INTERRUPTED_TOOL, now)
  }

  /** The runs that were started more than `ttl` ago. */
  function OldRuns(db: Db, now: int, ttl: int): set<RunId> {
    set r: nat | r < |db.runs| && db.runs[r].startedAt < now - ttl
  }

  /** The sweep of waiting runs. */
  function ExpireApprovals(db: Db, now: int, ttl: int): Db {
    Sweep(db, AwaitingApproval, OldRuns(db, now, ttl), INTERRUPTED_TOOL, now)
  }

  /** The run opened by a step, if it opened one. */
  function Opened(s: System, step: Step): Option<RunId>
    requires SystemOk(s) && CanStep(s, step)
  {
    if step.StartRun? && OpenRun(s.db, step.thread, step.now).Some? then Some(|s.db.runs|) else None
  }

  /** When a run was opened or, later, last had a heartbeat, as its history tells. */
  function LastBeat(steps: seq<Step>, r: RunId): int
    requires StateAfter(steps).Some?
  {
    if steps == [] then 0
    else
      var front, last := steps[..|steps| - 1], steps[|steps| - 1];
      if last.Beat? && r in last.alive then last.now
      else if Opened(StateAfter(front).value, last) == Some(r) then last.now
      else LastBeat(front, r)
  }

  /** As long as a run has not been paused, its row holds the time of its last heartbeat. */
  predicate BeatOk(s: System, r: RunId, beat: int)
    requires SystemOk(s) && r < |s.db.runs|
  {
    s.pauses[r] == 0 ==>
      && !s.db.runs[r].status.AwaitingApproval?
      && (s.db.runs[r].status.Running? ==> s.db.runs[r].heartbeat == beat)
  }

  lemma ActKeepsBeat(s: System, i: WorkerId, act: Action, r: RunId, beat: int)
    requires SystemOk(s) && CanStep(s, Act(i, act)) && r < |s.db.runs| && SystemOk(ActStep(s, i, act))
    requires BeatOk(s, r, beat) && r < |ActStep(s, i, act).db.runs|
    ensures BeatOk(ActStep(s, i, act), r, beat)
  {
    hide TablesOk;
    StepMoves(s.db, s.workers[i], act);
  }

  /** The time of a run's last heartbeat after one more step. */
  function NextBeat(s: System, step: Step, r: RunId, beat: int): int
    requires SystemOk(s) && CanStep(s, step)
  {
    if step.Beat? && r in step.alive then step.now
    else if Opened(s, step) == Some(r) then step.now
    else beat
  }

  lemma StepKeepsBeat(s: System, step: Step, r: RunId, beat: int)
    requires SystemOk(s) && CanStep(s, step) && SystemOk(NextState(s, step)) && r < |NextState(s, step).db.runs|
    requires r < |s.db.runs| ==> BeatOk(s, r, beat)
    ensures BeatOk(NextState(s, step), r, NextBeat(s, step, r, beat))
  {
    hide TablesOk;
    match step {
      case Act(i, act) =>
        WorkerStepRuns(s.db, s.workers[i], act);
        ActKeepsBeat(s, i, act, r, beat);
      case _ =>
    }
  }

  lemma {:induction false} HeartbeatIsLastBeat(steps: seq<Step>, r: RunId)
    requires StateAfter(steps).Some? && r < |StateAfter(steps).value.db.runs|
    ensures BeatOk(StateAfter(steps).value, r, LastBeat(steps, r))
  {
    hide BeatOk, CanStep, NextState, SystemOk, Opened;
    if steps != [] {
      var front, last := steps[..|steps| - 1], steps[|steps| - 1];
      var before := StateAfter(front).value;
      if r < |before.db.runs| { HeartbeatIsLastBeat(front, r); }
      StepKeepsBeat(before, last, r, LastBeat(front, r));
    }
  }

  /** Main result: a run that was never paused is changed by a sweep exactly when it is running and
  its last heartbeat, counted from its start, lies more than `secs` back. So a run whose owner
  keeps the beat survives every sweep of every instance. */
  lemma SweptExactlyWhenSilent(steps: seq<Step>, r: RunId, now: int, secs: int)
    requires StateAfter(steps).Some? && r < |StateAfter(steps).value.db.runs|
    requires StateAfter(steps).value.pauses[r] == 0
    ensures var db := StateAfter(steps).value.db;
            Reconcile(db, now, secs).runs[r] != db.runs[r]
            <==> db.runs[r].status.Running? && LastBeat(steps, r) < now - secs
  {
    hide StateAfter, TablesOk, LastBeat;
    HeartbeatIsLastBeat(steps, r);
  }

  /** A sweep leaves a run alone together with its tool cells. */
  predicate LeavesAlone(db: Db, later: Db, r: RunId) {
    && r < |db.runs| && r < |later.runs| && later.runs[r] == db.runs[r]
    && |later.messages| == |db.messages|
    && forall m :: 0 <= m < |db.messages| && db.messages[m].run == r ==> later.messages[m] == db.messages[m]
  }

  /** Every sweep for silent runs so far came within `secs` of the run's last heartbeat. */
  ghost predicate KeepsTheBeat(steps: seq<Step>, r: RunId, secs: int)
    requires StateAfter(steps).Some?
  {
    forall i :: 0 <= i < |steps| && steps[i].SweepRuns? && steps[i].from.Running? && StateAfter(steps[..i]).Some?
                && r < |StateAfter(steps[..i]).value.db.runs| ==>
      && steps[i].stale == StaleRuns(StateAfter(steps[..i]).value.db, steps[i].now, secs)
      && steps[i].now - secs <= LastBeat(steps[..i], r)
  }

  lemma {:induction false} PrefixRan(steps: seq<Step>, i: nat)
    requires StateAfter(steps).Some? && i <= |steps|
    ensures StateAfter(steps[..i]).Some?
    decreases |steps|
  {
    if i < |steps| {
      assert steps[..|steps| - 1][..i] == steps[..i];
      PrefixRan(steps[..|steps| - 1], i);
    } else {
      assert steps[..i] == steps;
    }
  }

  /** Main result: over a whole history, no sweep for silent runs ever changes a run, or its tool
  cells, while it keeps the beat and has not been paused. */
  lemma LiveRunIsNeverSwept(steps: seq<Step>, r: RunId, secs: int, i: nat)
    requires StateAfter(steps).Some? && KeepsTheBeat(steps, r, secs)
    requires i < |steps| && steps[i].SweepRuns? && steps[i].from.Running?
    ensures StateAfter(steps[..i]).Some? && StateAfter(steps[..i + 1]).Some?
    ensures var before, later := StateAfter(steps[..i]).value, StateAfter(steps[..i + 1]).value;
            r < |before.db.runs| && before.pauses[r] == 0 ==> LeavesAlone(before.db, later.db, r)
  {
    hide TablesOk, LastBeat;
    PrefixRan(steps, i);
    PrefixRan(steps, i + 1);
    assert steps[..i + 1][..i] == steps[..i];
    var before := StateAfter(steps[..i]).value;
    if r < |before.db.runs| && before.pauses[r] == 0 {
      HeartbeatIsLastBeat(steps[..i], r);
    }
  }

  /** A sweep for silent runs never touches a paused or ended run, nor its cells. */
  lemma PausedAndEndedAreLeftAlone(db: Db, r: RunId, now: int, secs: int)
    requires r < |db.runs|
    ensures !db.runs[r].status.Running? ==> LeavesAlone(db, Reconcile(db, now, secs), r)
  {
  }

  /** Why pauses are excluded: approving does not count as a heartbeat. A run that
  waited longer than `secs` is swept right after its approval, unless a heartbeat comes first. */
  lemma ApprovedRunMustBeatFirst(db: Db, r: RunId, approved: int, now: int, secs: int, beat: int)
    requires r < |db.runs| && db.runs[r].status.AwaitingApproval? && beat >= now - secs
    ensures var running := TryTransition(db, r, AwaitingApproval, Running, false, approved);
            && (Reconcile(running, now, secs).runs[r].status.Error? <==> db.runs[r].heartbeat < now - secs)
            && Reconcile(Store.Heartbeat(running, {r}, beat), now, secs).runs[r].status.Running?
  {
  }
}
