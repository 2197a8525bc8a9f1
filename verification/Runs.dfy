/** The run protocol as a state machine: one repository call is one step.

A worker is a thread of control: a pump that drives the generator of `run` or
`resume`, or a request that interrupts a run. Workers of any number of instances,
sweeps, heartbeats and event collection interleave freely; the agent stream may do
anything at a chunk boundary. The co-operative cancel flag is abstracted: at any chunk
boundary a driver may find it set. */
module Runs {
  import opened Store
  import opened Forks
  import opened Statements

  type WorkerId = nat

  const REJECTED_TOOL := "사용자가 이 도구 실행을 거부했습니다."
  const INTERRUPTED_TOOL := "실행이 중단되어 결과를 받지 못했습니다."

  datatype Request = Approve | Reject | Select(ids: set<string>)

  /** Where the generator goes on after the pump has logged the yielded event. */
  datatype Next = ToUserMessage | ToLoop | ToRunDone | ToPumpEnd | ToGone

  datatype Pc =
    // yielding an event: draw its number, then append it to the log
    | Draw(name: EventName, next: Next) | Log(name: EventName, seqNo: nat, next: Next)
    // the drive loop
    | UserMessage | Loop | StoreResult(callId: string, result: string, seqNo: nat)
    | CancelCells | CancelCas
    | PauseStatus | PauseCells
    | FailCas | FailCells
    // the end of an answer
    | Verify(cited: set<CitationId>) | ForgeCas | CommitCas(cited: set<CitationId>)
    // resuming a paused run
    | Lookup(request: Request) | ReadPending(ids: set<string>)
    | ApproveCas(selected: Option<set<string>>) | ApproveCells(selected: Option<set<string>>)
    | RejectCas | RejectCells | RejectOrphans
    // interrupting from outside
    | InterruptRunning | InterruptPaused | InterruptCells | InterruptOrphans
    // the pump's finally block
    | PumpEnd | Gone

  /** `logRun` is the run whose log the pump writes, `run` the run its generator drives. */
  datatype Worker = Worker(
    logRun: RunId, run: RunId, thread: ThreadId, pc: Pc,
    sawTerminal: bool, last: Option<EventName>, frozen: set<CitationId>)

  /** What a worker does next. `Go` is the only way on from most places; the rest are the
  choices of the agent stream at a chunk boundary, and the rejected ids that the
  checkpoint surgery reports. */
  datatype Action =
    | Go(now: int)
    | CallTool(callId: string) | Answer(callId: string, result: string)
    | Freeze(citation: CitationId, snapshot: string) | Notice
    | Cancel | Pause | Raise | Finish(cited: set<CitationId>)
    | Refuse(rejected: set<string>)

  predicate CanAct(pc: Pc, act: Action) {
    match pc
    case Gone => false
    case Loop => !act.Go? && !act.Refuse?
    case ApproveCells(selected) => if selected.Some? then act.Refuse? else act.Go?
    case _ => act.Go?
  }

  datatype Outcome = Outcome(db: Db, worker: Worker)

  predicate WorkerOk(db: Db, w: Worker) {
    && w.run < |db.runs| && w.logRun < |db.runs|
    && db.runs[w.run].thread == w.thread && db.runs[w.logRun].thread == w.thread
    && w.thread < |db.threads|
  }

  function After(next: Next): Pc {
    match next
    case ToUserMessage => UserMessage
    case ToLoop => Loop
    case ToRunDone => Draw(RunDone, ToPumpEnd)
    case ToPumpEnd => PumpEnd
    case ToGone => Gone
  }

  /** The event has been yielded: the pump notes its name before it appends it. */
  function Yielded(w: Worker, name: EventName, seqNo: nat, next: Next): Worker {
    w.(pc := Log(name, seqNo, next), sawTerminal := w.sawTerminal || Terminal(name), last := Some(name))
  }

  /** A guarded move of the worker's run, and where to go on winning and on losing. */
  function Cas(db: Db, w: Worker, from: Status, to: Status, ended: bool, now: int, won: Pc, lost: Pc): Outcome
    requires WorkerOk(db, w)
  {
    Outcome(TryTransition(db, w.run, from, to, ended, now), w.(pc := if Wins(db, w.run, from) then won else lost))
  }

  // ---- the drive loop ----------------------------------------------------

  function AtBoundary(db: Db, w: Worker, act: Action): Outcome
    requires TablesOk(db) && WorkerOk(db, w) && w.pc.Loop? && CanAct(w.pc, act)
  {
    match act
    case CallTool(callId) =>
      var later := AddMessage(db, w.thread, w.run, Tool, "", Some(callId), {});
      Outcome(later, Yielded(w, ToolCall, later.threads[w.thread].lastSeq, ToLoop))
    case Answer(callId, result) =>
      var later := NextSeq(db, w.thread);
      Outcome(later, w.(pc := StoreResult(callId, result, later.threads[w.thread].lastSeq)))
    case Freeze(c, snapshot) =>
      if c in w.frozen then Outcome(db, w)
      else Outcome(FreezeCitation(db, c, snapshot), w.(frozen := w.frozen + {c}, pc := Draw(CitationAdded, ToLoop)))
    case Notice => Outcome(db, w.(pc := Draw(ToolResult, ToLoop)))
    case Cancel => Outcome(db, w.(pc := CancelCells))
    case Pause => Outcome(db, w.(pc := PauseStatus))
    case Raise => Outcome(db, w.(pc := FailCas))
    case Finish(cited) => Outcome(db, w.(pc := Verify(cited)))
    case Go(_) => Outcome(db, w)
    case Refuse(_) => Outcome(db, w)
  }

  /** Yields, the user's message and stored tool results. */
  function Emit(db: Db, w: Worker): Outcome
    requires TablesOk(db) && WorkerOk(db, w)
  {
    match w.pc
    case Draw(name, next) =>
      var later := NextSeq(db, w.thread);
      Outcome(later, Yielded(w, name, later.threads[w.thread].lastSeq, next))
    case Log(name, seqNo, next) => Outcome(AppendEvent(db, w.logRun, seqNo, name), w.(pc := After(next)))
    case UserMessage => Outcome(AddMessage(db, w.thread, w.run, User, "", None, {}), w.(pc := Loop))
    case StoreResult(callId, result, seqNo) =>
      Outcome(SetToolResult(db, w.run, callId, result), Yielded(w, ToolResult, seqNo, ToLoop))
    case _ => Outcome(db, w)
  }

  /** Cancelling, pausing and failing. */
  function Leave(db: Db, w: Worker, now: int): Outcome
    requires TablesOk(db) && WorkerOk(db, w)
  {
    match w.pc
    case CancelCells => Outcome(ResolveOrphans(db, w.run, INTERRUPTED_TOOL), w.(pc := CancelCas))
    case CancelCas => Cas(db, w, Running, Interrupted, true, now, Draw(RunDone, ToPumpEnd), PumpEnd)
    case PauseStatus =>
      var paused := SetRunStatus(db, w.run, AwaitingApproval, false, now);
      if paused.Some? then Outcome(paused.value, w.(pc := PauseCells)) else Outcome(db, w.(pc := FailCas))
    case PauseCells => Outcome(SetPendingApproval(db, w.run, Pending), w.(pc := Draw(ApprovalRequested, ToPumpEnd)))
    case FailCas => Cas(db, w, Running, Error, true, now, FailCells, PumpEnd)
    case FailCells => Outcome(ResolveOrphans(db, w.run, INTERRUPTED_TOOL), w.(pc := Draw(ErrorEvent, ToPumpEnd)))
    case _ => Outcome(db, w)
  }

  /** The citations the thread may reuse: those joined to a message it sees. */
  function ThreadCitations(db: Db, t: ThreadId): set<CitationId>
    requires t < |db.threads| && TablesOk(db)
  {
    set i: nat, c | i in ThreadMessages(db, t) && i < |db.messages| && c in db.messages[i].cites
        && c in db.citations :: c
  }

  /** Checking the cited ids, then answering or refusing. */
  function Conclude(db: Db, w: Worker, now: int): Outcome
    requires TablesOk(db) && WorkerOk(db, w)
  {
    match w.pc
    case Verify(cited) =>
      if cited <= w.frozen + ThreadCitations(db, w.thread)
      then Outcome(db, w.(pc := CommitCas(cited)))
      else Outcome(db, w.(pc := ForgeCas))
    case ForgeCas => Cas(db, w, Running, Error, true, now, Draw(ErrorEvent, ToPumpEnd), PumpEnd)
    case CommitCas(cited) =>
      (match CommitAnswer(db, w.thread, w.run, "", cited, now)
       case Committed(later) => Outcome(later, Yielded(w, MessageCompleted, later.threads[w.thread].lastSeq, ToRunDone))
       case NotRunning => Outcome(db, w.(pc := PumpEnd))
       case ForeignKeyViolation => Outcome(db, w.(pc := PumpEnd)))
    case _ => Outcome(db, w)
  }

  // ---- resuming and interrupting -----------------------------------------

  function PendingCalls(db: Db, r: RunId): set<string> {
    set i | 0 <= i < |db.messages| && db.messages[i].run == r && Unanswered(db.messages[i])
            && db.messages[i].callId.Some? :: db.messages[i].callId.value
  }

  function PausedRun(db: Db, t: ThreadId): (r: Option<RunId>)
    ensures r.Some? ==> r.value < |db.runs| && db.runs[r.value].thread == t && db.runs[r.value].status.AwaitingApproval?
  {
    var active := ActiveRun(db, t);
    if active.Some? && db.runs[active.value].status.AwaitingApproval? then active else None
  }

  function ResumeStep(db: Db, w: Worker, act: Action): Outcome
    requires TablesOk(db) && WorkerOk(db, w) && CanAct(w.pc, act)
  {
    var now := if act.Go? then act.now else 0;
    match w.pc
    case Lookup(request) =>
      var found := PausedRun(db, w.thread);
      if found.None? then Outcome(db, w.(pc := PumpEnd))
      else Outcome(db, w.(run := found.value, pc := match request
                                                   case Approve => ApproveCas(None)
                                                   case Reject => RejectCas
                                                   case Select(ids) => ReadPending(ids)))
    case ReadPending(ids) =>
      var chosen := ids * PendingCalls(db, w.run);
      Outcome(db, w.(pc := if chosen == {} then RejectCas else ApproveCas(Some(chosen))))
    case ApproveCas(selected) => Cas(db, w, AwaitingApproval, Running, false, now, ApproveCells(selected), PumpEnd)
    case ApproveCells(selected) =>
      Outcome(if act.Refuse? then MarkPartialApproval(db, w.run, act.rejected, REJECTED_TOOL)
              else SetPendingApproval(db, w.run, Approved), w.(pc := Loop))
    case RejectCas => Cas(db, w, AwaitingApproval, Rejected, true, now, RejectCells, PumpEnd)
    case RejectCells => Outcome(SetPendingApproval(db, w.run, Refused), w.(pc := RejectOrphans))
    case RejectOrphans => Outcome(ResolveOrphans(db, w.run, REJECTED_TOOL), w.(pc := Draw(RunDone, ToPumpEnd)))
    case _ => Outcome(db, w)
  }

  function InterruptStep(db: Db, w: Worker, now: int): Outcome
    requires TablesOk(db) && WorkerOk(db, w)
  {
    match w.pc
    case InterruptRunning => Cas(db, w, Running, Interrupted, true, now, Draw(RunDone, ToGone), Gone)
    case InterruptPaused => Cas(db, w, AwaitingApproval, Interrupted, true, now, InterruptCells, Gone)
    case InterruptCells => Outcome(SetPendingApproval(db, w.run, Refused), w.(pc := InterruptOrphans))
    case InterruptOrphans => Outcome(ResolveOrphans(db, w.run, INTERRUPTED_TOOL), w.(pc := Draw(RunDone, ToGone)))
    case _ => Outcome(db, w)
  }

  /** The pump's finally block: without a terminal event or a pause it looks at the run of its
  log, and appends a synthetic error unless that run has ended. */
  function PumpStep(db: Db, w: Worker): Outcome
    requires TablesOk(db) && WorkerOk(db, w)
  {
    Outcome(db, w.(pc := if w.sawTerminal || w.last == Some(ApprovalRequested) || Ended(db.runs[w.logRun].status)
                         then Gone else Draw(ErrorEvent, ToGone)))
  }

  function WorkerStep(db: Db, w: Worker, act: Action): Outcome
    requires TablesOk(db) && WorkerOk(db, w) && CanAct(w.pc, act)
  {
    var now := if act.Go? then act.now else 0;
    match w.pc
    case Loop => AtBoundary(db, w, act)
    case Draw(_, _) => Emit(db, w)
    case Log(_, _, _) => Emit(db, w)
    case UserMessage => Emit(db, w)
    case StoreResult(_, _, _) => Emit(db, w)
    case CancelCells => Leave(db, w, now)
    case CancelCas => Leave(db, w, now)
    case PauseStatus => Leave(db, w, now)
    case PauseCells => Leave(db, w, now)
    case FailCas => Leave(db, w, now)
    case FailCells => Leave(db, w, now)
    case Verify(_) => Conclude(db, w, now)
    case ForgeCas => Conclude(db, w, now)
    case CommitCas(_) => Conclude(db, w, now)
    case Lookup(_) => ResumeStep(db, w, act)
    case ReadPending(_) => ResumeStep(db, w, act)
    case ApproveCas(_) => ResumeStep(db, w, act)
    case ApproveCells(_) => ResumeStep(db, w, act)
    case RejectCas => ResumeStep(db, w, act)
    case RejectCells => ResumeStep(db, w, act)
    case RejectOrphans => ResumeStep(db, w, act)
    case InterruptRunning => InterruptStep(db, w, now)
    case InterruptPaused => InterruptStep(db, w, now)
    case InterruptCells => InterruptStep(db, w, now)
    case InterruptOrphans => InterruptStep(db, w, now)
    case PumpEnd => PumpStep(db, w)
    case Gone => Outcome(db, w)
  }

  // ---- the whole system --------------------------------------------------

  /** Beside the tables and the workers, what has happened so far: which run took which citation
  from a tool artifact, which runs lost their driver to a crash, how often each run was paused,
  and how often a pause was consumed by a winner. */
  datatype System = System(
    db: Db, workers: seq<Worker>, frozenBy: set<(RunId, CitationId)>, crashed: set<RunId>,
    pauses: seq<nat>, consumed: seq<nat>)

  const INIT := System(EMPTY, [], {}, {}, [], [])

  datatype Step =
    | NewThread
    | NewFork(parent: ThreadId, point: MessageId)
    | StartRun(thread: ThreadId, now: int)
    | ResumeRun(thread: ThreadId, request: Request)
    | InterruptRun(run: RunId, local: bool)
    | SweepRuns(from: Status, stale: set<RunId>, now: int)
    | CollectEvents(expired: set<RunId>)
    | Beat(alive: set<RunId>, now: int)
    | Crash(worker: WorkerId)
    | Act(worker: WorkerId, act: Action)

  predicate SystemOk(s: System) {
    && TablesOk(s.db)
    && (forall i :: 0 <= i < |s.workers| ==> WorkerOk(s.db, s.workers[i]))
    && |s.pauses| == |s.db.runs| && |s.consumed| == |s.db.runs|
  }

  predicate CanStep(s: System, step: Step) {
    match step
    case NewThread => true
    case NewFork(_, _) => true
    case StartRun(t, _) => t < |s.db.threads|
    case ResumeRun(t, _) => t < |s.db.threads|
    case InterruptRun(r, _) => r < |s.db.runs|
    case SweepRuns(from, _, _) => Active(from)
    case CollectEvents(_) => true
    case Beat(_, _) => true
    case Crash(i) => i < |s.workers|
    case Act(i, act) => i < |s.workers| && CanAct(s.workers[i].pc, act)
  }

  function Fresh(r: RunId, t: ThreadId, pc: Pc): Worker {
    Worker(r, r, t, pc, false, None, {})
  }

  function Spawn(s: System, w: Worker): System {
    s.(workers := s.workers + [w])
  }

  /** The places where a pause is claimed. */
  predicate Claims(pc: Pc) {
    pc.ApproveCas? || pc.RejectCas? || pc.InterruptPaused?
  }

  predicate WritesPause(db: Db, w: Worker)
    requires WorkerOk(db, w)
  {
    w.pc.PauseStatus? && SetRunStatus(db, w.run, AwaitingApproval, false, 0).Some?
  }

  predicate ConsumesPause(db: Db, w: Worker)
    requires WorkerOk(db, w)
  {
    Claims(w.pc) && Wins(db, w.run, AwaitingApproval)
  }

  function ActStep(s: System, i: WorkerId, act: Action): System
    requires SystemOk(s) && CanStep(s, Act(i, act))
  {
    var w := s.workers[i];
    var out := WorkerStep(s.db, w, act);
    s.(db := out.db, workers := s.workers[i := out.worker],
       frozenBy := if act.Freeze? then s.frozenBy + {(w.run, act.citation)} else s.frozenBy,
       pauses := if WritesPause(s.db, w) then s.pauses[w.run := s.pauses[w.run] + 1] else s.pauses,
       consumed := if ConsumesPause(s.db, w) then s.consumed[w.run := s.consumed[w.run] + 1] else s.consumed)
  }

  function NextState(s: System, step: Step): System
    requires SystemOk(s) && CanStep(s, step)
  {
    match step
    case NewThread => s.(db := CreateThread(s.db))
    case NewFork(parent, point) =>
      var forked := ForkThread(s.db, parent, point);
      if forked.Some? then s.(db := forked.value) else s
    case StartRun(t, now) =>
      var newRun := OpenRun(s.db, t, now);
      if newRun.None? then s
      else Spawn(s.(db := newRun.value, pauses := s.pauses + [0], consumed := s.consumed + [0]),
                 Fresh(|s.db.runs|, t, Draw(RunStarted, ToUserMessage)))
    case ResumeRun(t, request) =>
      var found := PausedRun(s.db, t);
      if found.None? then s else Spawn(s, Fresh(found.value, t, Lookup(request)))
    case InterruptRun(r, local) =>
      var row := s.db.runs[r];
      if row.status.AwaitingApproval? then Spawn(s, Fresh(r, row.thread, InterruptPaused))
      else if row.status.Running? && !local then Spawn(s, Fresh(r, row.thread, InterruptRunning))
      else s
    case SweepRuns(from, stale, now) =>
      s.(db := Sweep(s.db, from, stale, INTERRUPTED_TOOL, now),
         consumed := seq(|s.consumed|, r requires 0 <= r < |s.consumed| =>
                       s.consumed[r] + if from.AwaitingApproval? && Swept(s.db, from, stale, r) then 1 else 0))
    case CollectEvents(expired) => s.(db := GcEvents(s.db, expired))
    case Beat(alive, now) => s.(db := Heartbeat(s.db, alive, now))
    case Crash(i) =>
      s.(workers := s.workers[i := s.workers[i].(pc := Gone)], crashed := s.crashed + {s.workers[i].run})
    case Act(i, act) => ActStep(s, i, act)
  }

  // ---- every step keeps the system in order ------------------------------

  lemma DriveFollows(db: Db, w: Worker, act: Action)
    requires TablesOk(db) && WorkerOk(db, w) && CanAct(w.pc, act) && w.pc.Loop?
    ensures Follows(db, AtBoundary(db, w, act).db)
  {
    match act
    case CallTool(callId) => AddMessageKeeps(db, w.thread, w.run, Tool, "", Some(callId), {});
    case Answer(_, _) => NextSeqKeeps(db, w.thread);
    case Freeze(c, snapshot) => FreezeFollows(db, c, snapshot); NothingFollows(db);
    case _ => NothingFollows(db);
  }

  lemma EmitFollows(db: Db, w: Worker)
    requires TablesOk(db) && WorkerOk(db, w)
    ensures Follows(db, Emit(db, w).db)
  {
    match w.pc
    case Draw(_, _) => NextSeqKeeps(db, w.thread);
    case Log(name, seqNo, _) => EventsFollow(db, w.logRun, seqNo, name, {});
    case UserMessage => AddMessageKeeps(db, w.thread, w.run, User, "", None, {});
    case StoreResult(callId, result, _) => ResultFollows(db, w.run, callId, result);
    case _ => NothingFollows(db);
  }

  lemma LeaveFollows(db: Db, w: Worker, now: int)
    requires TablesOk(db) && WorkerOk(db, w)
    ensures Follows(db, Leave(db, w, now).db)
  {
    hide TablesOk, Extends;
    match w.pc
    case CancelCells => OrphansFollow(db, w.run, INTERRUPTED_TOOL);
    case CancelCas => TransitionFollows(db, w.run, Running, Interrupted, true, now);
    case PauseStatus =>
      NothingFollows(db);
      if SetRunStatus(db, w.run, AwaitingApproval, false, now).Some? {
        StatusFollows(db, w.run, AwaitingApproval, false, now);
      }
    case PauseCells => ApprovalFollows(db, w.run, Pending);
    case FailCas => TransitionFollows(db, w.run, Running, Error, true, now);
    case FailCells => OrphansFollow(db, w.run, INTERRUPTED_TOOL);
    case _ => NothingFollows(db);
  }

  lemma ConcludeFollows(db: Db, w: Worker, now: int)
    requires TablesOk(db) && WorkerOk(db, w)
    ensures Follows(db, Conclude(db, w, now).db)
  {
    NothingFollows(db);
    match w.pc
    case ForgeCas => TransitionFollows(db, w.run, Running, Error, true, now);
    case CommitCas(cited) =>
      if CommitAnswer(db, w.thread, w.run, "", cited, now).Committed? {
        CommitKeeps(db, w.thread, w.run, "", cited, now);
      }
    case _ =>
  }

  lemma ResumeFollows(db: Db, w: Worker, act: Action)
    requires TablesOk(db) && WorkerOk(db, w) && CanAct(w.pc, act)
    ensures Follows(db, ResumeStep(db, w, act).db)
  {
    var now := if act.Go? then act.now else 0;
    match w.pc
    case ApproveCas(_) => TransitionFollows(db, w.run, AwaitingApproval, Running, false, now);
    case ApproveCells(_) =>
      ApprovalFollows(db, w.run, Approved);
      if act.Refuse? { PartialFollows(db, w.run, act.rejected, REJECTED_TOOL); }
    case RejectCas => TransitionFollows(db, w.run, AwaitingApproval, Rejected, true, now);
    case RejectCells => ApprovalFollows(db, w.run, Refused);
    case RejectOrphans => OrphansFollow(db, w.run, REJECTED_TOOL);
    case _ => NothingFollows(db);
  }

  lemma InterruptFollows(db: Db, w: Worker, now: int)
    requires TablesOk(db) && WorkerOk(db, w)
    ensures Follows(db, InterruptStep(db, w, now).db)
  {
    hide TablesOk;
    match w.pc
    case InterruptRunning => TransitionFollows(db, w.run, Running, Interrupted, true, now);
    case InterruptPaused => TransitionFollows(db, w.run, AwaitingApproval, Interrupted, true, now);
    case InterruptCells => ApprovalFollows(db, w.run, Refused);
    case InterruptOrphans => OrphansFollow(db, w.run, INTERRUPTED_TOOL);
    case _ => NothingFollows(db);
  }

  lemma WorkerStepFollows(db: Db, w: Worker, act: Action)
    requires TablesOk(db) && WorkerOk(db, w) && CanAct(w.pc, act)
    ensures Follows(db, WorkerStep(db, w, act).db)
  {
    var now := if act.Go? then act.now else 0;
    if w.pc.Loop? { DriveFollows(db, w, act); }
    EmitFollows(db, w);
    LeaveFollows(db, w, now);
    ConcludeFollows(db, w, now);
    ResumeFollows(db, w, act);
    InterruptFollows(db, w, now);
    NothingFollows(db);
  }

  /** A worker keeps its thread and its log, and changes the run it drives only at the lookup. */
  predicate SamePlace(w: Worker, later: Worker) {
    later.thread == w.thread && later.logRun == w.logRun && (w.pc.Lookup? || later.run == w.run)
  }

  lemma WorkerKeepsPlace(db: Db, w: Worker, act: Action)
    requires TablesOk(db) && WorkerOk(db, w) && CanAct(w.pc, act)
    ensures SamePlace(w, WorkerStep(db, w, act).worker)
    ensures w.pc.Lookup? && PausedRun(db, w.thread).Some? ==>
              WorkerStep(db, w, act).worker.run == PausedRun(db, w.thread).value
    ensures w.pc.Lookup? && PausedRun(db, w.thread).None? ==> WorkerStep(db, w, act).worker.run == w.run
  {
  }

  lemma WorkersStayOk(s: System, later: Db)
    requires SystemOk(s) && Follows(s.db, later)
    ensures forall i :: 0 <= i < |s.workers| ==> WorkerOk(later, s.workers[i])
  {
  }

  lemma ActKeepsSystem(s: System, i: WorkerId, act: Action)
    requires SystemOk(s) && CanStep(s, Act(i, act))
    ensures SystemOk(ActStep(s, i, act)) && Extends(s.db, ActStep(s, i, act).db)
  {
    WorkerStepFollows(s.db, s.workers[i], act);
    WorkerKeepsPlace(s.db, s.workers[i], act);
    WorkersStayOk(s, WorkerStep(s.db, s.workers[i], act).db);
    WorkerStepRuns(s.db, s.workers[i], act);
  }

  /** A worker adds no run. */
  lemma WorkerStepRuns(db: Db, w: Worker, act: Action)
    requires TablesOk(db) && WorkerOk(db, w) && CanAct(w.pc, act)
    ensures |WorkerStep(db, w, act).db.runs| == |db.runs|
  {
  }

  lemma QuietStepFollows(s: System, step: Step)
    requires SystemOk(s) && CanStep(s, step) && !step.Act?
    ensures Follows(s.db, NextState(s, step).db)
  {
    NothingFollows(s.db);
    match step {
      case NewThread => CreateThreadKeeps(s.db);
      case NewFork(parent, point) =>
        if ForkThread(s.db, parent, point).Some? { ForkKeepsTables(s.db, parent, point); }
      case StartRun(t, now) =>
        if OpenRun(s.db, t, now).Some? { OpenRunKeeps(s.db, t, now); }
      case SweepRuns(from, stale, now) => SweepFollows(s.db, from, stale, INTERRUPTED_TOOL, {}, now);
      case Beat(alive, now) => SweepFollows(s.db, Running, {}, INTERRUPTED_TOOL, alive, now);
      case CollectEvents(expired) => EventsFollow(s.db, 0, 0, RunDone, expired);
      case _ =>
    }
  }

  lemma QuietKeepsSystem(s: System, step: Step)
    requires SystemOk(s) && CanStep(s, step) && !step.Act? && Follows(s.db, NextState(s, step).db)
    ensures SystemOk(NextState(s, step))
  {
    hide TablesOk, Extends;
    WorkersStayOk(s, NextState(s, step).db);
    SpawnedOk(s, step);
  }

  /** A worker that a step adds is on a run of its thread. */
  lemma SpawnedOk(s: System, step: Step)
    requires SystemOk(s) && CanStep(s, step) && !step.Act? && Follows(s.db, NextState(s, step).db)
    ensures forall i :: |s.workers| <= i < |NextState(s, step).workers| ==>
              WorkerOk(NextState(s, step).db, NextState(s, step).workers[i])
  {
    assert forall r :: 0 <= r < |s.db.runs| ==> s.db.runs[r].thread < |s.db.threads|;
    hide TablesOk, Extends;
  }

  lemma StepKeepsSystem(s: System, step: Step)
    requires SystemOk(s) && CanStep(s, step)
    ensures SystemOk(NextState(s, step)) && Extends(s.db, NextState(s, step).db)
  {
    hide TablesOk, Extends, WorkerOk;
    if step.Act? {
      ActKeepsSystem(s, step.worker, step.act);
    } else {
      QuietStepFollows(s, step);
      QuietKeepsSystem(s, step);
    }
  }

  // ---- runs of the system ------------------------------------------------

  /** The state after the given steps, if each of them was possible. */
  function StateAfter(steps: seq<Step>): (s: Option<System>)
    ensures s.Some? ==> SystemOk(s.value)
  {
    if steps == [] then Some(INIT)
    else
      var front, last := steps[..|steps| - 1], steps[|steps| - 1];
      var before := StateAfter(front);
      if before.Some? && CanStep(before.value, last) then
        StepKeepsSystem(before.value, last);
        Some(NextState(before.value, last))
      else None
  }

  /** A history is a shorter one and a last step that was possible after it. */
  lemma LastOf(steps: seq<Step>)
    requires steps != [] && StateAfter(steps).Some?
    ensures var front, last := steps[..|steps| - 1], steps[|steps| - 1];
            && StateAfter(front).Some? && SystemOk(StateAfter(front).value) && CanStep(StateAfter(front).value, last)
            && StateAfter(steps).value == NextState(StateAfter(front).value, last)
            && SystemOk(StateAfter(steps).value)
  {
    hide SystemOk, CanStep, NextState;
  }

  // ---- what a step does to the workers -----------------------------------

  lemma WorkersRemain(s: System, step: Step)
    requires SystemOk(s) && CanStep(s, step)
    ensures |s.workers| <= |NextState(s, step).workers|
    ensures step.Act? ==> step.worker < |s.workers| == |NextState(s, step).workers|
  {
    hide TablesOk;
  }

  lemma WorkerActs(s: System, i: WorkerId, act: Action)
    requires SystemOk(s) && CanStep(s, Act(i, act))
    ensures i < |s.workers| && CanAct(s.workers[i].pc, act) && TablesOk(s.db) && WorkerOk(s.db, s.workers[i])
    ensures NextState(s, Act(i, act)).workers == s.workers[i := WorkerStep(s.db, s.workers[i], act).worker]
    ensures NextState(s, Act(i, act)).db == WorkerStep(s.db, s.workers[i], act).db
  {
    hide TablesOk;
  }

  lemma OthersStand(s: System, step: Step, i: WorkerId)
    requires SystemOk(s) && CanStep(s, step) && i < |s.workers| && !(step.Act? && step.worker == i)
    ensures i < |NextState(s, step).workers|
    ensures NextState(s, step).workers[i] == if step == Crash(i) then s.workers[i].(pc := Gone) else s.workers[i]
  {
    hide TablesOk;
  }

  /** A new worker drives a new run, resumes a paused one, or interrupts; a run that this instance drives
  is left to the flag. */
  lemma WorkerSpawned(s: System, step: Step, i: WorkerId)
    requires SystemOk(s) && CanStep(s, step) && |s.workers| <= i < |NextState(s, step).workers|
    ensures i == |s.workers| && !step.Act?
    ensures var w := NextState(s, step).workers[i];
            || (step.StartRun? && w == Fresh(|s.db.runs|, step.thread, Draw(RunStarted, ToUserMessage)))
            || (step.ResumeRun? && PausedRun(s.db, step.thread) == Some(w.run)
                && w == Fresh(w.run, step.thread, Lookup(step.request)))
            || (step.InterruptRun? && w == Fresh(step.run, s.db.runs[step.run].thread, w.pc)
                && if s.db.runs[step.run].status.AwaitingApproval? then w.pc.InterruptPaused?
                   else w.pc.InterruptRunning? && s.db.runs[step.run].status.Running? && !step.local)
  {
    hide TablesOk;
  }
}
