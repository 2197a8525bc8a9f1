/** The user's decision about a paused run: which way a resume goes follows from its request and from
what waits in the run, and the decision reaches the waiting cells. */
module RunRequests {
  import opened Store
  import opened Forks
  import opened Statements
  import opened Runs
  import opened RunSafety
  import opened RunChoices

  /** The request that worker `i` was started to serve; None for a new run's driver and an interrupter. */
  function RequestOf(steps: seq<Step>, i: WorkerId): Option<Request>
    requires StateAfter(steps).Some?
  {
    if steps == [] then None
    else
      var front, last := steps[..|steps| - 1], steps[|steps| - 1];
      if i < |StateAfter(front).value.workers| then RequestOf(front, i)
      else if i < |StateAfter(steps).value.workers| && last.ResumeRun? then Some(last.request)
      else None
  }

  /** A tool cell of the run that has no result yet. */
  predicate Empty(m: Message, r: RunId) {
    m.run == r && m.role.Tool? && m.result.None?
  }

  /** A call with that id waits for a decision. */
  ghost predicate Waits(db: Db, r: RunId, callId: string) {
    exists k :: 0 <= k < |db.messages| && Empty(db.messages[k], r) && db.messages[k].callId == Some(callId)
  }

  ghost function WaitingOf(db: Db, r: RunId, ids: set<string>): set<string> {
    set c | c in ids && Waits(db, r, c)
  }

  /** Which ids of its request still waited when worker `i` read the cells of its run. */
  ghost function Found(steps: seq<Step>, i: WorkerId): Option<set<string>>
    requires StateAfter(steps).Some?
  {
    if steps == [] then None
    else
      var front, last := steps[..|steps| - 1], steps[|steps| - 1];
      if last.Act? && last.worker == i && StateAfter(front).value.workers[i].pc.ReadPending?
      then var before := StateAfter(front).value;
           Some(WaitingOf(before.db, before.workers[i].run, before.workers[i].pc.ids))
      else Found(front, i)
  }

  /** The request lets the run go on: an approval, or a choice of ids of which one waits. */
  predicate Grants(request: Option<Request>, found: Option<set<string>>) {
    request.Some? && match request.value
                     case Approve => true
                     case Reject => false
                     case Select(_) => found.Some? && found.value != {}
  }

  /** The request turns the run down: a rejection, or a choice of ids none of which waits. */
  predicate Denies(request: Option<Request>, found: Option<set<string>>) {
    request.Some? && match request.value
                     case Approve => false
                     case Reject => true
                     case Select(_) => found == Some({})
  }

  /** The places that a request leads to. */
  predicate WayFits(pc: Pc, request: Option<Request>, found: Option<set<string>>) {
    match pc
    case Lookup(asked) => request == Some(asked)
    case ReadPending(ids) => request == Some(Select(ids))
    case ApproveCas(selected) => Grants(request, found) && SelectedFits(selected, request, found)
    case ApproveCells(selected) => Grants(request, found) && SelectedFits(selected, request, found)
    case RejectCas => Denies(request, found)
    case RejectCells => Denies(request, found)
    case RejectOrphans => Denies(request, found)
    case InterruptRunning => request.None?
    case InterruptPaused => request.None?
    case InterruptCells => request.None?
    case InterruptOrphans => request.None?
    case _ => true
  }

  predicate SelectedFits(selected: Option<set<string>>, request: Option<Request>, found: Option<set<string>>) {
    selected == if request == Some(Approve) then None else found
  }

  lemma PendingAreWaiting(db: Db, r: RunId, ids: set<string>)
    ensures ids * PendingCalls(db, r) == WaitingOf(db, r, ids)
  {
    forall c | c in PendingCalls(db, r) ensures Waits(db, r, c) {
      var k :| 0 <= k < |db.messages| && Empty(db.messages[k], r) && db.messages[k].callId == Some(c);
    }
  }

  lemma WayStep(db: Db, w: Worker, act: Action, request: Option<Request>, found: Option<set<string>>)
    requires TablesOk(db) && WorkerOk(db, w) && CanAct(w.pc, act) && WayFits(w.pc, request, found)
    ensures WayFits(WorkerStep(db, w, act).worker.pc, request,
                    if w.pc.ReadPending? then Some(WaitingOf(db, w.run, w.pc.ids)) else found)
  {
    hide TablesOk, PendingCalls, PausedRun, WaitingOf, ThreadCitations;
    if w.pc.ReadPending? { PendingAreWaiting(db, w.run, w.pc.ids); }
  }

  lemma {:induction false} NoRequestYet(steps: seq<Step>, i: WorkerId)
    requires StateAfter(steps).Some? && i >= |StateAfter(steps).value.workers|
    ensures RequestOf(steps, i).None? && Found(steps, i).None?
  {
    hide StateAfter, NextState, CanStep, SystemOk, WaitingOf;
    if steps != [] {
      LastOf(steps);
      WorkersRemain(StateAfter(steps[..|steps| - 1]).value, steps[|steps| - 1]);
      NoRequestYet(steps[..|steps| - 1], i);
    }
  }

  lemma {:induction false} WaysFit(steps: seq<Step>, i: WorkerId)
    requires StateAfter(steps).Some? && i < |StateAfter(steps).value.workers|
    ensures WayFits(StateAfter(steps).value.workers[i].pc, RequestOf(steps, i), Found(steps, i))
  {
    hide StateAfter, NextState, CanStep, SystemOk, TablesOk, WorkerStep, WorkerOk, WaitingOf, Grants, Denies;
    if steps == [] {
      Nobody();
    } else {
      LastOf(steps);
      var front, last := steps[..|steps| - 1], steps[|steps| - 1];
      var before := StateAfter(front).value;
      if last.Act? && last.worker == i {
        WorkerActs(before, i, last.act);
        WaysFit(front, i);
        WayStep(before.db, before.workers[i], last.act, RequestOf(front, i), Found(front, i));
      } else if i < |before.workers| {
        OthersStand(before, last, i);
        WaysFit(front, i);
      } else {
        WorkerSpawned(before, last, i);
        NoRequestYet(front, i);
      }
    }
  }

  // ---- the decision ------------------------------------------------------

  /** The step is a claim on run `r` by worker `i`. */
  predicate ClaimsRun(s: System, step: Step, r: RunId) {
    step.Act? && step.worker < |s.workers| && s.workers[step.worker].run == r && Claims(s.workers[step.worker].pc)
  }

  /** Main result, for every interleaving: a paused run goes on exactly when a resume claims it whose
  request grants that, it is rejected exactly when one claims it whose request denies it, it is
  interrupted exactly when an interrupter claims it, and it ends in error exactly when it is swept. */
  lemma {:induction false} DecisionFollowsRequest(steps: seq<Step>, step: Step, r: RunId)
    requires StateAfter(steps).Some? && CanStep(StateAfter(steps).value, step)
    requires r < |StateAfter(steps).value.db.runs| && StateAfter(steps).value.db.runs[r].status.AwaitingApproval?
    ensures r < |NextState(StateAfter(steps).value, step).db.runs|
    ensures var s, to := StateAfter(steps).value, NextState(StateAfter(steps).value, step).db.runs[r].status;
            var claimed := ClaimsRun(s, step, r);
            && (to.Running? <==> claimed && Grants(RequestOf(steps, step.worker), Found(steps, step.worker)))
            && (to.Rejected? <==> claimed && Denies(RequestOf(steps, step.worker), Found(steps, step.worker)))
            && (to.Interrupted? <==> claimed && RequestOf(steps, step.worker).None?)
            && (to.Error? <==> step.SweepRuns? && step.from.AwaitingApproval? && r in step.stale)
            && !to.Completed?
  {
    hide StateAfter, RequestOf, Found, TablesOk, WorkerStep, WorkerOk;
    var s := StateAfter(steps).value;
    AlwaysSafe(steps);
    match step {
      case Act(i, act) =>
        WorkerActs(s, i, act);
        StepMoves(s.db, s.workers[i], act);
        if !KindOf(s.db, s.workers[i]).Stays? { MoveGives(s.db, s.workers[i], act); }
        WaysFit(steps, i);
      case _ =>
    }
  }

  /** A resume that still finds its run paused goes on to claim it, after reading the cells if it has to. */
  lemma ResumeComesToClaim(db: Db, w: Worker, now: int)
    requires TablesOk(db) && WorkerOk(db, w) && (w.pc.Lookup? || w.pc.ReadPending?)
    ensures var out := WorkerStep(db, w, Go(now));
            && out.db == db
            && (w.pc.Lookup? && PausedRun(db, w.thread).Some? ==>
                  PausedRun(db, w.thread) == Some(out.worker.run)
                      && (Claims(out.worker.pc) || out.worker.pc.ReadPending?))
            && (w.pc.ReadPending? ==> Claims(out.worker.pc) && out.worker.run == w.run)
  {
    hide TablesOk, PendingCalls, PausedRun;
  }
}
