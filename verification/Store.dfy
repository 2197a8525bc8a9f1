/** The conversation tables and the SQL statements that update them.

Every repository call is one transaction, so each is one function from tables to
tables. Rows are only ever added (deletion is not part of this model), and a row's
id is its position in its table, which stands for the fresh UUID of an insert. */
module Store {
  datatype Option<+T> = None | Some(value: T)

  type ThreadId = nat
  type RunId = nat
  type MessageId = nat
  type CitationId = string

  datatype Status = Running | AwaitingApproval | Interrupted | Completed | Rejected | Error

  /** The statuses of the unique index: a thread has at most one such run. */
  predicate Active(s: Status) {
    s.Running? || s.AwaitingApproval?
  }

  predicate Ended(s: Status) {
    !Active(s)
  }

  datatype Fork = Fork(parent: ThreadId, point: MessageId)
  datatype Thread = Thread(fork: Option<Fork>, lastSeq: nat)
  datatype Run = Run(thread: ThreadId, status: Status, endedAt: Option<int>, heartbeat: int, startedAt: int)

  datatype Role = User | Agent | Tool
  datatype Approval = Pending | Approved | Refused

  /** A transcript cell; `cites` are its rows of the citation link table. */
  datatype Message = Message(
    thread: ThreadId, run: RunId, seqNo: nat, role: Role, content: string,
    callId: Option<string>, result: Option<string>, approval: Option<Approval>,
    cites: set<CitationId>)

  datatype EventName = RunStarted | ToolCall | ToolResult | CitationAdded | MessageCompleted
                     | ApprovalRequested | RunDone | ErrorEvent

  predicate Terminal(e: EventName) {
    e.RunDone? || e.ErrorEvent?
  }

  datatype Db = Db(
    threads: seq<Thread>, runs: seq<Run>, messages: seq<Message>,
    citations: map<CitationId, string>, events: map<(RunId, nat), EventName>)

  const EMPTY := Db([], [], [], map[], map[])

  // ---- threads -----------------------------------------------------------

  function CreateThread(db: Db): Db {
    db.(threads := db.threads + [Thread(None, 0)])
  }

  /** Draws the next sequence number of a thread; the new counter value is the number drawn. */
  function NextSeq(db: Db, t: ThreadId): Db
    requires t < |db.threads|
  {
    db.(threads := db.threads[t := db.threads[t].(lastSeq := db.threads[t].lastSeq + 1)])
  }

  /** A new thread that refers to its parent's history up to `point`; its counter is
  seeded with the sequence number of that message. None when the message is not one
  of the parent's own. */
  function ForkThread(db: Db, parent: ThreadId, point: MessageId): Option<Db> {
    if point < |db.messages| && db.messages[point].thread == parent
    then Some(db.(threads := db.threads + [Thread(Some(Fork(parent, point)), db.messages[point].seqNo)]))
    else None
  }

  // ---- runs --------------------------------------------------------------

  /** The active run of a thread, the latest if there were several. */
  function ActiveRun(db: Db, t: ThreadId): Option<RunId> {
    LatestActive(db.runs, t, |db.runs|)
  }

  function LatestActive(runs: seq<Run>, t: ThreadId, n: nat): (r: Option<RunId>)
    requires n <= |runs|
    ensures r.Some? ==> r.value < n && runs[r.value].thread == t && Active(runs[r.value].status)
    ensures r.Some? ==> forall i :: r.value < i < n && runs[i].thread == t ==> !Active(runs[i].status)
    ensures r.None? ==> forall i :: 0 <= i < n && runs[i].thread == t ==> !Active(runs[i].status)
  {
    if n == 0 then None
    else if runs[n - 1].thread == t && Active(runs[n - 1].status) then Some(n - 1)
    else LatestActive(runs, t, n - 1)
  }

  /** None is the unique violation that callers see as a conflict. */
  function OpenRun(db: Db, t: ThreadId, now: int): Option<Db> {
    if ActiveRun(db, t).Some? then None
    else Some(db.(runs := db.runs + [Run(t, Running, None, now, now)]))
  }

  function WithStatus(run: Run, to: Status, ended: bool, now: int): Run {
    run.(status := to, endedAt := if ended then Some(now) else run.endedAt)
  }

  /** The unguarded status write. None is the unique violation: the row would become
  active while another run of its thread is. */
  function SetRunStatus(db: Db, r: RunId, to: Status, ended: bool, now: int): Option<Db>
    requires r < |db.runs|
  {
    if Active(to) && (exists o :: 0 <= o < |db.runs| && o != r && db.runs[o].thread == db.runs[r].thread
                                  && Active(db.runs[o].status))
    then None
    else Some(db.(runs := db.runs[r := WithStatus(db.runs[r], to, ended, now)]))
  }

  /** The guarded status write: it wins exactly when the run has status `from`. */
  predicate Wins(db: Db, r: RunId, from: Status)
    requires r < |db.runs|
  {
    db.runs[r].status == from
  }

  function TryTransition(db: Db, r: RunId, from: Status, to: Status, ended: bool, now: int): Db
    requires r < |db.runs|
  {
    if Wins(db, r, from)
    then db.(runs := db.runs[r := WithStatus(db.runs[r], to, ended, now)])
    else db
  }

  /** Every swept run that still has status `from` ends in error, and its unanswered tool
  cells get the marker. Which runs are stale is the caller's choice here. */
  function Sweep(db: Db, from: Status, stale: set<RunId>, marker: string, now: int): Db {
    db.(runs := seq(|db.runs|, i requires 0 <= i < |db.runs| =>
                  if Swept(db, from, stale, i) then WithStatus(db.runs[i], Error, true, now) else db.runs[i]),
        messages := Cells(db.messages, (m: Message) =>
                            if Swept(db, from, stale, m.run) then Resolved(m, marker) else m))
  }

  predicate Swept(db: Db, from: Status, stale: set<RunId>, i: nat) {
    i < |db.runs| && i in stale && db.runs[i].status == from
  }

  function Heartbeat(db: Db, alive: set<RunId>, now: int): Db {
    db.(runs := seq(|db.runs|, i requires 0 <= i < |db.runs| =>
                  if i in alive && db.runs[i].status.Running? then db.runs[i].(heartbeat := now) else db.runs[i]))
  }

  // ---- messages ----------------------------------------------------------

  /** Draws a sequence number and inserts the message in one transaction. */
  function AddMessage(db: Db, t: ThreadId, r: RunId, role: Role, content: string, callId: Option<string>,
                      cites: set<CitationId>): Db
    requires t < |db.threads|
  {
    var drawn := NextSeq(db, t);
    var m := Message(t, r, drawn.threads[t].lastSeq, role, content, callId, None, None, cites);
    drawn.(messages := drawn.messages + [m])
  }

  datatype Commit = Committed(db: Db) | NotRunning | ForeignKeyViolation

  /** The answer and the move from running to completed are one transaction. */
  function CommitAnswer(db: Db, t: ThreadId, r: RunId, content: string, cites: set<CitationId>, now: int): Commit
    requires t < |db.threads| && r < |db.runs|
  {
    if !Wins(db, r, Running) then NotRunning
    else if !(cites <= db.citations.Keys) then ForeignKeyViolation
    else Committed(AddMessage(TryTransition(db, r, Running, Completed, true, now), t, r, Agent, content, None, cites))
  }

  predicate Unanswered(m: Message) {
    m.role.Tool? && m.result.None?
  }

  function Resolved(m: Message, marker: string): Message {
    if Unanswered(m) then m.(result := Some(marker)) else m
  }

  function Cells(ms: seq<Message>, update: Message -> Message): (out: seq<Message>)
    ensures |out| == |ms|
    ensures forall i :: 0 <= i < |ms| ==> out[i] == update(ms[i])
  {
    seq(|ms|, i requires 0 <= i < |ms| => update(ms[i]))
  }

  function SetToolResult(db: Db, r: RunId, callId: string, result: string): Db {
    db.(messages := Cells(db.messages, (m: Message) =>
                            if m.run == r && m.callId == Some(callId) then m.(result := Some(result)) else m))
  }

  function SetPendingApproval(db: Db, r: RunId, state: Approval): Db {
    db.(messages := Cells(db.messages, (m: Message) =>
                            if m.run == r && Unanswered(m) then m.(approval := Some(state)) else m))
  }

  function ResolveOrphans(db: Db, r: RunId, marker: string): Db {
    db.(messages := Cells(db.messages, (m: Message) => if m.run == r then Resolved(m, marker) else m))
  }

  /** What a selective approval makes of one cell of the run: a rejected call is refused
  and answered with the marker, any other unanswered cell is approved. */
  function Classified(m: Message, r: RunId, rejected: set<string>, marker: string): Message {
    if m.run != r || !m.role.Tool? then m
    else if m.callId.Some? && m.callId.value in rejected then m.(approval := Some(Refused), result := Some(marker))
    else if m.result.None? then m.(approval := Some(Approved))
    else m
  }

  function MarkPartialApproval(db: Db, r: RunId, rejected: set<string>, marker: string): Db {
    db.(messages := Cells(db.messages, (m: Message) => Classified(m, r, rejected, marker)))
  }

  // ---- citations and events ----------------------------------------------

  /** The first snapshot of a citation stays. */
  function FreezeCitation(db: Db, c: CitationId, snapshot: string): Db {
    if c in db.citations then db else db.(citations := db.citations[c := snapshot])
  }

  /** Appending is idempotent on (run, seq). */
  function AppendEvent(db: Db, r: RunId, seqNo: nat, name: EventName): Db {
    if (r, seqNo) in db.events then db else db.(events := db.events[(r, seqNo) := name])
  }

  /** Drops the events of the chosen runs that have an end time. */
  function GcEvents(db: Db, expired: set<RunId>): Db {
    db.(events := map k | k in db.events && !Collected(db, expired, k.0) :: db.events[k])
  }

  predicate Collected(db: Db, expired: set<RunId>, r: RunId) {
    r in expired && r < |db.runs| && db.runs[r].endedAt.Some?
  }
}
