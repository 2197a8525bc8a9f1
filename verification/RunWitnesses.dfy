/** None of the hypotheses of the single terminal event can be dropped: for each there is a run
of the system that meets the others and ends with two terminal events in one log. */
module RunWitnesses {
  import opened Store
  import opened Forks
  import opened Runs
  import opened RunTerminals

  /** What the witnesses follow of a state: one thread, its runs, the workers and the log. */
  datatype View = View(lastSeq: nat, runs: seq<Run>, workers: seq<Worker>, events: map<(RunId, nat), EventName>)

  ghost predicate Shows(s: System, v: View) {
    s.db.threads == [Thread(None, v.lastSeq)] && s.db.runs == v.runs && s.workers == v.workers
        && s.db.events == v.events
  }

  /** The steps lead to a state that looks like `v`, and all of them met the hypotheses other than `but`. */
  ghost predicate Reaches(steps: seq<Step>, v: View, but: set<Hypothesis>) {
    && StateAfter(steps).Some? && Shows(StateAfter(steps).value, v) && Uncrashed(steps)
    && forall h :: h !in but ==> Along(steps, h)
  }

  ghost predicate Uncrashed(steps: seq<Step>) {
    forall i :: 0 <= i < |steps| ==> !steps[i].Crash?
  }

  const GO := Go(0)

  lemma Then(steps: seq<Step>, v: View, step: Step, but: set<Hypothesis>)
    requires Reaches(steps, v, but) && CanStep(StateAfter(steps).value, step) && !step.Crash?
    requires forall h :: h !in but ==> Meets(StateAfter(steps).value, step, h)
    ensures StateAfter(steps + [step]) == Some(NextState(StateAfter(steps).value, step))
    ensures Uncrashed(steps + [step]) && forall h :: h !in but ==> Along(steps + [step], h)
  {
    assert (steps + [step])[..|steps|] == steps;
  }

  lemma InSight(s: System, v: View, i: nat)
    requires SystemOk(s) && Shows(s, v) && i < |v.workers|
    ensures WorkerOk(s.db, v.workers[i]) && v.workers[i].thread == 0 && v.workers[i] == s.workers[i]
  {
  }

  /** A worker's step whose effect in view is known. */
  lemma Does(steps: seq<Step>, v: View, but: set<Hypothesis>, i: nat, act: Action, u: View)
    requires Reaches(steps, v, but) && i < |v.workers| && CanAct(v.workers[i].pc, act)
    requires forall h :: h !in but ==> Meets(StateAfter(steps).value, Act(i, act), h)
    requires WorkerOk(StateAfter(steps).value.db, v.workers[i])
    requires var out := WorkerStep(StateAfter(steps).value.db, v.workers[i], act);
             && out.db.threads == [Thread(None, u.lastSeq)] && out.db.runs == u.runs && out.db.events == u.events
             && u.workers == v.workers[i := out.worker]
    ensures Reaches(steps + [Act(i, act)], u, but)
  {
    hide TablesOk;
    Then(steps, v, Act(i, act), but);
  }

  function Moved(v: View, i: nat, pc: Pc): View
    requires i < |v.workers|
  {
    v.(workers := v.workers[i := v.workers[i].(pc := pc)])
  }

  lemma DrawsNumber(steps: seq<Step>, v: View, but: set<Hypothesis>, i: nat) returns (more: seq<Step>, u: View)
    requires Reaches(steps, v, but) && i < |v.workers| && v.workers[i].pc.Draw?
    ensures steps <= more && Reaches(more, u, but)
    ensures var w := v.workers[i];
            var next := Yielded(w, w.pc.name, v.lastSeq + 1, w.pc.next);
            u == v.(lastSeq := v.lastSeq + 1, workers := v.workers[i := next])
  {
    hide TablesOk;
    var w := v.workers[i];
    InSight(StateAfter(steps).value, v, i);
    u := v.(lastSeq := v.lastSeq + 1, workers := v.workers[i := Yielded(w, w.pc.name, v.lastSeq + 1, w.pc.next)]);
    Does(steps, v, but, i, GO, u);
    more := steps + [Act(i, GO)];
  }

  lemma LogsEvent(steps: seq<Step>, v: View, but: set<Hypothesis>, i: nat) returns (more: seq<Step>, u: View)
    requires Reaches(steps, v, but) && i < |v.workers| && v.workers[i].pc.Log?
    requires (v.workers[i].logRun, v.workers[i].pc.seqNo) !in v.events
    ensures steps <= more && Reaches(more, u, but)
    ensures var w := v.workers[i];
            u == Moved(v, i, After(w.pc.next)).(events := v.events[(w.logRun, w.pc.seqNo) := w.pc.name])
  {
    hide TablesOk;
    var w := v.workers[i];
    InSight(StateAfter(steps).value, v, i);
    u := Moved(v, i, After(w.pc.next)).(events := v.events[(w.logRun, w.pc.seqNo) := w.pc.name]);
    Does(steps, v, but, i, GO, u);
    more := steps + [Act(i, GO)];
  }

  /** A worker draws a number and then logs its event under it. */
  lemma Emits(steps: seq<Step>, v: View, but: set<Hypothesis>, i: nat, logRun: RunId, name: EventName, next: Next)
    returns (more: seq<Step>, u: View)
    requires Reaches(steps, v, but) && i < |v.workers| && v.workers[i].pc == Draw(name, next)
    requires v.workers[i].logRun == logRun && (logRun, v.lastSeq + 1) !in v.events
    ensures steps <= more && Reaches(more, u, but)
    ensures u.lastSeq == v.lastSeq + 1 && u.runs == v.runs && u.events == v.events[(logRun, v.lastSeq + 1) := name]
    ensures u.workers == v.workers[i := Yielded(v.workers[i], name, v.lastSeq + 1, next).(pc := After(next))]
  {
    hide Reaches;
    more, u := DrawsNumber(steps, v, but, i);
    more, u := LogsEvent(more, u, but, i);
  }

  function ChosenPc(act: Action): Pc {
    match act
    case Pause => PauseStatus
    case Notice => Draw(ToolResult, ToLoop)
    case _ => FailCas
  }

  /** The agent stream pauses, reports something or raises. */
  lemma Chooses(steps: seq<Step>, v: View, but: set<Hypothesis>, i: nat, act: Action) returns (more: seq<Step>, u: View)
    requires Reaches(steps, v, but) && i < |v.workers| && v.workers[i].pc.Loop?
    requires act.Pause? || act.Notice? || act.Raise?
    ensures steps <= more && Reaches(more, u, but) && u == Moved(v, i, ChosenPc(act))
  {
    hide TablesOk;
    InSight(StateAfter(steps).value, v, i);
    u := Moved(v, i, ChosenPc(act));
    Does(steps, v, but, i, act, u);
    more := steps + [Act(i, act)];
  }

  function AfterCells(pc: Pc): Pc {
    match pc
    case PauseCells => Draw(ApprovalRequested, ToPumpEnd)
    case FailCells => Draw(ErrorEvent, ToPumpEnd)
    case InterruptCells => InterruptOrphans
    case InterruptOrphans => Draw(RunDone, ToGone)
    case _ => Loop
  }

  lemma SetsCells(steps: seq<Step>, v: View, but: set<Hypothesis>, i: nat) returns (more: seq<Step>, u: View)
    requires Reaches(steps, v, but) && i < |v.workers|
    requires v.workers[i].pc.PauseCells? || v.workers[i].pc.FailCells? || v.workers[i].pc.InterruptCells?
             || v.workers[i].pc.InterruptOrphans? || v.workers[i].pc == ApproveCells(None)
    ensures steps <= more && Reaches(more, u, but) && u == Moved(v, i, AfterCells(v.workers[i].pc))
  {
    hide TablesOk;
    InSight(StateAfter(steps).value, v, i);
    u := Moved(v, i, AfterCells(v.workers[i].pc));
    Does(steps, v, but, i, GO, u);
    more := steps + [Act(i, GO)];
  }

  function FromOf(pc: Pc): Status {
    if pc.FailCas? || pc.InterruptRunning? then Running else AwaitingApproval
  }

  function WonOf(pc: Pc): Pc {
    match pc
    case FailCas => FailCells
    case InterruptRunning => Draw(RunDone, ToGone)
    case InterruptPaused => InterruptCells
    case _ => ApproveCells(None)
  }

  function ToOf(pc: Pc): Status {
    match pc
    case FailCas => Error
    case InterruptRunning => Interrupted
    case InterruptPaused => Interrupted
    case _ => Running
  }

  /** A guarded move is won. */
  lemma WinsMove(steps: seq<Step>, v: View, but: set<Hypothesis>, i: nat) returns (more: seq<Step>, u: View)
    requires Reaches(steps, v, but) && i < |v.workers| && v.workers[i].run < |v.runs|
    requires v.workers[i].pc.FailCas? || v.workers[i].pc.InterruptRunning? || v.workers[i].pc.InterruptPaused?
             || v.workers[i].pc == ApproveCas(None)
    requires v.runs[v.workers[i].run].status == FromOf(v.workers[i].pc)
    ensures steps <= more && Reaches(more, u, but)
    ensures var w := v.workers[i];
            var row := WithStatus(v.runs[w.run], ToOf(w.pc), !w.pc.ApproveCas?, 0);
            u == Moved(v, i, WonOf(w.pc)).(runs := v.runs[w.run := row])
  {
    hide TablesOk;
    var w := v.workers[i];
    InSight(StateAfter(steps).value, v, i);
    var row := WithStatus(v.runs[w.run], ToOf(w.pc), !w.pc.ApproveCas?, 0);
    u := Moved(v, i, WonOf(w.pc)).(runs := v.runs[w.run := row]);
    Does(steps, v, but, i, GO, u);
    more := steps + [Act(i, GO)];
  }

  /** The pause is written; no other run of the thread is active. */
  lemma WritesPauseRow(steps: seq<Step>, v: View, but: set<Hypothesis>, i: nat) returns (more: seq<Step>, u: View)
    requires Reaches(steps, v, but) && i < |v.workers| && v.workers[i].run < |v.runs| && v.workers[i].pc.PauseStatus?
    requires forall o :: 0 <= o < |v.runs| && o != v.workers[i].run ==> !Active(v.runs[o].status)
    requires PausesGuarded in but || v.runs[v.workers[i].run].status.Running?
    ensures steps <= more && Reaches(more, u, but)
    ensures var w := v.workers[i];
            u == Moved(v, i, PauseCells).(runs := v.runs[w.run := v.runs[w.run].(status := AwaitingApproval)])
  {
    hide TablesOk;
    var w := v.workers[i];
    InSight(StateAfter(steps).value, v, i);
    u := Moved(v, i, PauseCells).(runs := v.runs[w.run := v.runs[w.run].(status := AwaitingApproval)]);
    Does(steps, v, but, i, GO, u);
    more := steps + [Act(i, GO)];
  }

  lemma OnlyPaused(db: Db, r: RunId)
    requires r < |db.runs| && db.runs[r].status.AwaitingApproval? && db.runs[r].thread == 0
    requires forall o :: 0 <= o < |db.runs| && o != r ==> !Active(db.runs[o].status)
    ensures PausedRun(db, 0) == Some(r)
  {
  }

  lemma FindsPaused(db: Db, w: Worker, r: RunId)
    requires TablesOk(db) && WorkerOk(db, w) && w.pc == Lookup(Approve) && PausedRun(db, w.thread) == Some(r)
    ensures WorkerStep(db, w, GO) == Outcome(db, w.(run := r, pc := ApproveCas(None)))
  {
    hide TablesOk, PausedRun;
  }

  /** The generator of a resume looks the paused run up. */
  lemma LooksUp(steps: seq<Step>, v: View, but: set<Hypothesis>, i: nat, r: RunId) returns (more: seq<Step>, u: View)
    requires Reaches(steps, v, but) && i < |v.workers| && v.workers[i].pc == Lookup(Approve)
    requires r < |v.runs| && v.runs[r].status.AwaitingApproval? && v.runs[r].thread == 0
    requires forall o :: 0 <= o < |v.runs| && o != r ==> !Active(v.runs[o].status)
    requires PausesMatch in but || v.workers[i].logRun == r
    ensures steps <= more && Reaches(more, u, but)
    ensures u == v.(workers := v.workers[i := v.workers[i].(run := r, pc := ApproveCas(None))])
  {
    hide TablesOk, PausedRun, WorkerStep, Uncrashed;
    InSight(StateAfter(steps).value, v, i);
    u := v.(workers := v.workers[i := v.workers[i].(run := r, pc := ApproveCas(None))]);
    OnlyPaused(StateAfter(steps).value.db, r);
    FindsPaused(StateAfter(steps).value.db, v.workers[i], r);
    Does(steps, v, but, i, GO, u);
    more := steps + [Act(i, GO)];
  }

  // ---- requests ----------------------------------------------------------

  lemma Asks(steps: seq<Step>, v: View, but: set<Hypothesis>, step: Step, w: Worker) returns (more: seq<Step>, u: View)
    requires Reaches(steps, v, but) && w.run < |v.runs| && v.runs[w.run].thread == 0
    requires forall o :: 0 <= o < |v.runs| && o != w.run ==> !Active(v.runs[o].status)
    requires var status := v.runs[w.run].status;
             || (step == InterruptRun(w.run, false) && status.Running? && w == Fresh(w.run, 0, InterruptRunning))
             || (step == InterruptRun(w.run, false) && status.AwaitingApproval?
                 && w == Fresh(w.run, 0, InterruptPaused))
             || (step == ResumeRun(0, Approve) && status.AwaitingApproval? && w == Fresh(w.run, 0, Lookup(Approve))
                 && (ResumesApart in but || forall j :: 0 <= j < |v.workers| ==> !Resumes(v.workers[j].pc)))
    ensures steps <= more && Reaches(more, u, but) && u == v.(workers := v.workers + [w])
  {
    hide TablesOk;
    if step.ResumeRun? { OnlyPaused(StateAfter(steps).value.db, w.run); }
    Then(steps, v, step, but);
    more, u := steps + [step], v.(workers := v.workers + [w]);
  }

  lemma Opens(steps: seq<Step>, v: View, but: set<Hypothesis>) returns (more: seq<Step>, u: View)
    requires Reaches(steps, v, but) && forall o :: 0 <= o < |v.runs| ==> !Active(v.runs[o].status)
    ensures steps <= more && Reaches(more, u, but)
    ensures u == v.(runs := v.runs + [Run(0, Running, None, 0, 0)],
                    workers := v.workers + [Fresh(|v.runs|, 0, Draw(RunStarted, ToUserMessage))])
  {
    hide TablesOk;
    Then(steps, v, StartRun(0, 0), but);
    more := steps + [StartRun(0, 0)];
    u := v.(runs := v.runs + [Run(0, Running, None, 0, 0)],
            workers := v.workers + [Fresh(|v.runs|, 0, Draw(RunStarted, ToUserMessage))]);
  }

  lemma Tells(steps: seq<Step>, v: View, but: set<Hypothesis>, i: nat) returns (more: seq<Step>, u: View)
    requires Reaches(steps, v, but) && i < |v.workers| && v.workers[i].pc.UserMessage?
    ensures steps <= more && Reaches(more, u, but) && u == Moved(v, i, Loop).(lastSeq := v.lastSeq + 1)
  {
    hide TablesOk;
    InSight(StateAfter(steps).value, v, i);
    u := Moved(v, i, Loop).(lastSeq := v.lastSeq + 1);
    Does(steps, v, but, i, GO, u);
    more := steps + [Act(i, GO)];
  }

  /** The driver of run `r` at the start of its loop. */
  function Looping(r: RunId, pc: Pc): Worker {
    Worker(r, r, 0, pc, false, Some(RunStarted), {})
  }

  /** A run is opened, logs its start and stores the user's message. */
  lemma Begins(steps: seq<Step>, v: View, but: set<Hypothesis>) returns (more: seq<Step>, u: View)
    requires Reaches(steps, v, but) && forall o :: 0 <= o < |v.runs| ==> !Active(v.runs[o].status)
    requires (|v.runs|, v.lastSeq + 1) !in v.events
    ensures steps <= more && Reaches(more, u, but)
    ensures u.lastSeq == v.lastSeq + 2 && u.runs == v.runs + [Run(0, Running, None, 0, 0)]
    ensures u.workers == v.workers + [Looping(|v.runs|, Loop)]
    ensures u.events == v.events[(|v.runs|, v.lastSeq + 1) := RunStarted]
  {
    hide Reaches;
    var r, i := |v.runs|, |v.workers|;
    more, u := Opens(steps, v, but);
    more, u := Emits(more, u, but, i, r, RunStarted, ToUserMessage);
    more, u := Tells(more, u, but, i);
  }

  /** The driver pauses its run and logs the request for approval. */
  lemma PausesRun(steps: seq<Step>, v: View, but: set<Hypothesis>, i: nat, r: RunId) returns (more: seq<Step>, u: View)
    requires Reaches(steps, v, but) && i < |v.workers| && r < |v.runs| && v.workers[i] == Looping(r, Loop)
    requires v.runs[r] == Run(0, Running, None, 0, 0) && (r, v.lastSeq + 1) !in v.events
    requires forall o :: 0 <= o < |v.runs| && o != r ==> !Active(v.runs[o].status)
    ensures steps <= more && Reaches(more, u, but)
    ensures u.lastSeq == v.lastSeq + 1 && u.runs == v.runs[r := Run(0, AwaitingApproval, None, 0, 0)]
    ensures |u.workers| == |v.workers| && (forall j :: 0 <= j < |v.workers| && j != i ==> u.workers[j] == v.workers[j])
    ensures u.workers[i].pc.PumpEnd? && u.events == v.events[(r, v.lastSeq + 1) := ApprovalRequested]
  {
    hide Reaches;
    more, u := Chooses(steps, v, but, i, Pause);
    more, u := WritesPauseRow(more, u, but, i);
    more, u := SetsCells(more, u, but, i);
    more, u := Emits(more, u, but, i, r, ApprovalRequested, ToPumpEnd);
  }

  /** A paused run is interrupted and its end is logged. */
  lemma InterruptsPaused(steps: seq<Step>, v: View, but: set<Hypothesis>, r: RunId) returns (more: seq<Step>, u: View)
    requires Reaches(steps, v, but) && r < |v.runs| && v.runs[r].status.AwaitingApproval? && v.runs[r].thread == 0
    requires forall o :: 0 <= o < |v.runs| && o != r ==> !Active(v.runs[o].status)
    requires (r, v.lastSeq + 1) !in v.events
    ensures steps <= more && Reaches(more, u, but)
    ensures u.lastSeq == v.lastSeq + 1 && u.runs == v.runs[r := WithStatus(v.runs[r], Interrupted, true, 0)]
    ensures |u.workers| == |v.workers| + 1 && u.workers[..|v.workers|] == v.workers && u.workers[|v.workers|].pc.Gone?
    ensures u.events == v.events[(r, v.lastSeq + 1) := RunDone]
  {
    hide Reaches;
    var i := |v.workers|;
    more, u := Asks(steps, v, but, InterruptRun(r, false), Fresh(r, 0, InterruptPaused));
    more, u := WinsMove(more, u, but, i);
    more, u := SetsCells(more, u, but, i);
    more, u := SetsCells(more, u, but, i);
    more, u := Emits(more, u, but, i, r, RunDone, ToGone);
  }

  /** The agent stream raises in run `r`; the pump logs the error in its own log. */
  lemma Fails(steps: seq<Step>, v: View, but: set<Hypothesis>, i: nat) returns (more: seq<Step>, u: View)
    requires Reaches(steps, v, but) && i < |v.workers| && v.workers[i].pc.Loop? && v.workers[i].run < |v.runs|
    requires v.runs[v.workers[i].run].status.Running? && (v.workers[i].logRun, v.lastSeq + 1) !in v.events
    ensures steps <= more && Reaches(more, u, but) && u.events ==
              v.events[(v.workers[i].logRun, v.lastSeq + 1) := ErrorEvent]
  {
    hide Reaches;
    more, u := Chooses(steps, v, but, i, Raise);
    more, u := WinsMove(more, u, but, i);
    more, u := SetsCells(more, u, but, i);
    more, u := Emits(more, u, but, i, v.workers[i].logRun, ErrorEvent, ToPumpEnd);
  }

  lemma StartsEmpty(but: set<Hypothesis>) returns (steps: seq<Step>, v: View)
    ensures Reaches(steps, v, but) && v == View(0, [], [], map[])
  {
    hide TablesOk;
    steps, v := [NewThread], View(0, [], [], map[]);
    assert steps[..0] == [];
    assert StateAfter([]) == Some(INIT);
    assert forall h :: h !in but ==> Along([], h);
  }

  /** Run 0 is started and paused. */
  lemma StartsPaused(but: set<Hypothesis>) returns (steps: seq<Step>, v: View)
    ensures Reaches(steps, v, but) && v.lastSeq == 3 && v.runs == [Run(0, AwaitingApproval, None, 0, 0)]
    ensures |v.workers| == 1 && v.workers[0].pc.PumpEnd?
    ensures v.events == map[(0, 1) := RunStarted, (0, 3) := ApprovalRequested]
  {
    hide Reaches;
    steps, v := StartsEmpty(but);
    steps, v := Begins(steps, v, but);
    steps, v := PausesRun(steps, v, but, 0, 0);
  }

  // ---- the three witnesses -----------------------------------------------

  ghost predicate TwoTerminals(steps: seq<Step>) {
    StateAfter(steps).Some?
    && exists r: RunId, p: nat, q: nat :: p != q
         && LogsTerminal(StateAfter(steps).value.db, r, p) && LogsTerminal(StateAfter(steps).value.db, r, q)
  }

  lemma ShowsTwoTerminals(steps: seq<Step>, v: View, but: set<Hypothesis>, p: nat, q: nat)
    requires Reaches(steps, v, but) && p != q && (0, p) in v.events && (0, q) in v.events
    requires Terminal(v.events[(0, p)]) && Terminal(v.events[(0, q)])
    ensures TwoTerminals(steps)
  {
    assert LogsTerminal(StateAfter(steps).value.db, 0, p) && LogsTerminal(StateAfter(steps).value.db, 0, q);
  }

  /** Another instance interrupts the run just before its driver writes the pause: the pause brings
  the ended run back, and interrupting it again logs a second end. */
  lemma UnguardedPause() returns (steps: seq<Step>, v: View)
    ensures Reaches(steps, v, {PausesGuarded}) && TwoTerminals(steps)
  {
    hide Reaches, TwoTerminals;
    steps, v := StartsEmpty({PausesGuarded});
    steps, v := Begins(steps, v, {PausesGuarded});
    steps, v := Chooses(steps, v, {PausesGuarded}, 0, Pause);
    steps, v := Asks(steps, v, {PausesGuarded}, InterruptRun(0, false), Fresh(0, 0, InterruptRunning));
    steps, v := WinsMove(steps, v, {PausesGuarded}, 1);
    steps, v := Emits(steps, v, {PausesGuarded}, 1, 0, RunDone, ToGone);
    steps, v := WritesPauseRow(steps, v, {PausesGuarded}, 0);
    assert v.runs == [Run(0, AwaitingApproval, Some(0), 0, 0)];
    steps, v := InterruptsPaused(steps, v, {PausesGuarded}, 0);
    ShowsTwoTerminals(steps, v, {PausesGuarded}, 3, 4);
  }

  lemma FindsNothing(steps: seq<Step>, v: View, but: set<Hypothesis>, i: nat) returns (more: seq<Step>, u: View)
    requires Reaches(steps, v, but) && i < |v.workers| && v.workers[i] == Fresh(0, 0, Lookup(Approve))
    requires |v.runs| == 1 && !v.runs[0].status.AwaitingApproval? && v.runs[0].thread == 0
    ensures steps <= more && Reaches(more, u, but) && u == Moved(v, i, PumpEnd)
  {
    hide TablesOk;
    InSight(StateAfter(steps).value, v, i);
    u := Moved(v, i, PumpEnd);
    Does(steps, v, but, i, GO, u);
    more := steps + [Act(i, GO)];
  }

  /** The pump of a resume that found nothing paused any more. */
  lemma LosesLookup(steps: seq<Step>, v: View, but: set<Hypothesis>, i: nat) returns (more: seq<Step>, u: View)
    requires Reaches(steps, v, but) && i < |v.workers| && v.workers[i] == Fresh(0, 0, Lookup(Approve))
    requires |v.runs| == 1 && v.runs[0].status.Running? && v.runs[0].thread == 0
    requires (0, v.lastSeq + 1) !in v.events
    ensures steps <= more && Reaches(more, u, but) && u.runs == v.runs && u.lastSeq == v.lastSeq + 1
    ensures |u.workers| == |v.workers| && (forall j :: 0 <= j < |v.workers| && j != i ==> u.workers[j] == v.workers[j])
    ensures u.events == v.events[(0, v.lastSeq + 1) := ErrorEvent]
  {
    hide Reaches;
    more, u := FindsNothing(steps, v, but, i);
    more, u := DrawsSynthetic(more, u, but, i);
    more, u := Emits(more, u, but, i, 0, ErrorEvent, ToGone);
  }

  /** The finally block finds the run of its log still running. */
  lemma DrawsSynthetic(steps: seq<Step>, v: View, but: set<Hypothesis>, i: nat) returns (more: seq<Step>, u: View)
    requires Reaches(steps, v, but) && i < |v.workers| && v.workers[i] == Fresh(0, 0, PumpEnd)
    requires |v.runs| == 1 && v.runs[0].status.Running?
    ensures steps <= more && Reaches(more, u, but) && u == Moved(v, i, Draw(ErrorEvent, ToGone))
  {
    hide TablesOk;
    InSight(StateAfter(steps).value, v, i);
    u := Moved(v, i, Draw(ErrorEvent, ToGone));
    Does(steps, v, but, i, GO, u);
    more := steps + [Act(i, GO)];
  }

  /** The finally block finds the run of its log ended. */
  lemma LeavesSilently(steps: seq<Step>, v: View, but: set<Hypothesis>, i: nat) returns (more: seq<Step>, u: View)
    requires Reaches(steps, v, but) && i < |v.workers| && v.workers[i] == Fresh(0, 0, PumpEnd)
    requires |v.runs| == 1 && Ended(v.runs[0].status)
    ensures steps <= more && Reaches(more, u, but) && u == Moved(v, i, Gone)
  {
    hide TablesOk;
    InSight(StateAfter(steps).value, v, i);
    u := Moved(v, i, Gone);
    Does(steps, v, but, i, GO, u);
    more := steps + [Act(i, GO)];
  }

  /** A sweep ends the one run. */
  lemma Sweeps(steps: seq<Step>, v: View, but: set<Hypothesis>) returns (more: seq<Step>, u: View)
    requires Reaches(steps, v, but) && |v.runs| == 1 && v.runs[0].status.Running?
    ensures steps <= more && Reaches(more, u, but)
    ensures u == v.(runs := [WithStatus(v.runs[0], Error, true, 0)])
  {
    hide TablesOk;
    var step := SweepRuns(Running, {0}, 0);
    Then(steps, v, step, but);
    more, u := steps + [step], v.(runs := [WithStatus(v.runs[0], Error, true, 0)]);
    assert StateAfter(more).value.db.runs == u.runs;
  }

  /** Two approvals of one pause: the pump of the loser sees the run running and logs an error,
  and the winner logs its own end later. */
  lemma OverlappingResumes() returns (steps: seq<Step>, v: View)
    ensures Reaches(steps, v, {ResumesApart}) && TwoTerminals(steps)
  {
    hide Reaches, TwoTerminals;
    steps, v := StartsPaused({ResumesApart});
    steps, v := Asks(steps, v, {ResumesApart}, ResumeRun(0, Approve), Fresh(0, 0, Lookup(Approve)));
    steps, v := Asks(steps, v, {ResumesApart}, ResumeRun(0, Approve), Fresh(0, 0, Lookup(Approve)));
    steps, v := LooksUp(steps, v, {ResumesApart}, 1, 0);
    steps, v := WinsMove(steps, v, {ResumesApart}, 1);
    steps, v := LosesLookup(steps, v, {ResumesApart}, 2);
    steps, v := SetsCells(steps, v, {ResumesApart}, 1);
    steps, v := Fails(steps, v, {ResumesApart}, 1);
    ShowsTwoTerminals(steps, v, {ResumesApart}, 4, 5);
  }

  /** A resume is accepted for run 0; before its generator looks again, run 0 is interrupted and the
  thread's next run pauses. */
  lemma AnotherRunPauses() returns (steps: seq<Step>, v: View)
    ensures Reaches(steps, v, {PausesMatch}) && v.lastSeq == 7 && |v.workers| > 1
    ensures |v.runs| == 2 && v.runs[0].status.Interrupted? && v.runs[1] == Run(0, AwaitingApproval, None, 0, 0)
    ensures v.workers[1] == Fresh(0, 0, Lookup(Approve))
    ensures (0, 4) in v.events && v.events[(0, 4)] == RunDone && (0, 8) !in v.events
  {
    hide Reaches;
    steps, v := StartsPaused({PausesMatch});
    steps, v := Asks(steps, v, {PausesMatch}, ResumeRun(0, Approve), Fresh(0, 0, Lookup(Approve)));
    steps, v := InterruptsPaused(steps, v, {PausesMatch}, 0);
    steps, v := Begins(steps, v, {PausesMatch});
    assert v.workers[3] == Looping(1, Loop) && v.workers[1] == Fresh(0, 0, Lookup(Approve));
    steps, v := PausesRun(steps, v, {PausesMatch}, 3, 1);
  }

  /** The generator then drives run 1, and its end goes to the log of run 0. */
  lemma ResumeOfAnotherPause() returns (steps: seq<Step>, v: View)
    ensures Reaches(steps, v, {PausesMatch}) && TwoTerminals(steps)
  {
    hide Reaches, TwoTerminals;
    steps, v := AnotherRunPauses();
    steps, v := LooksUp(steps, v, {PausesMatch}, 1, 1);
    steps, v := WinsMove(steps, v, {PausesMatch}, 1);
    steps, v := SetsCells(steps, v, {PausesMatch}, 1);
    steps, v := Fails(steps, v, {PausesMatch}, 1);
    ShowsTwoTerminals(steps, v, {PausesMatch}, 4, 8);
  }

  /** Main result: each hypothesis of the single terminal event is needed. */
  lemma EachHypothesisIsNeeded(but: Hypothesis)
    ensures exists steps :: StateAfter(steps).Some? && (forall h :: h != but ==> Along(steps, h)) && TwoTerminals(steps)
  {
    match but {
      case PausesGuarded => var steps, v := UnguardedPause();
      case ResumesApart => var steps, v := OverlappingResumes();
      case PausesMatch => var steps, v := ResumeOfAnotherPause();
    }
  }
}
