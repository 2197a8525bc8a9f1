# Verified model of the legal-assistant repository

The repository is a chat service over Korean statutes: a backend that drives an agent and stores
conversations, a front end that streams the runs, and a pipeline that loads laws into a vector store.
This project models its core in Dafny and proves what that core is meant to guarantee.

## What is modelled

**Conversations and runs.** `Store` holds the tables (threads, runs, messages with their citation
links, frozen citations, the durable event log) and every repository statement as a function from tables
to tables. `Repository` is the same repository in its own form: a class whose methods update the tables
in place, with loops for the multi-row updates and explicit rollbacks for the transactions; each method
is proved equal to its statement. `Runs` is the protocol of `run`, `resume`, `_drive`, `_finalize`, the
pump and the interrupts as a state machine in which one repository call is one step. Pumps, resumes,
interrupters, sweeps, heartbeats, event collection and process crashes interleave freely, and the agent
stream is nondeterministic: at any chunk it may call tools, answer them, cite, pause, be cancelled,
raise, or finish with any set of citations. `StateAfter(steps)` ranges over every such history.
What every history keeps is in `RunSafety` (drivers, answers, pauses), `RunRequests` (which way a resume
goes), `RunChoices` (how a run ends, what it reports, what an answer links), `RunCells` (what becomes of
the waiting cells), `RunNumbers` (sequence numbers and logging), `RunCitations`, `RunRecords`,
`RunLiveness` and `Heartbeats`; `RunRounds` follows undisturbed stretches from request to log. What needs
a hypothesis is in `RunTerminals`, `RunReports` (what the terminal event tells), `RunPumps` (what an ended
pump leaves to its readers) and `RunOrder`; `RunWitnesses`, `RunLateMarks` and `Approvals` hold reachable
histories that show why. `Manager` has the manager's own loops and branches
(pump, interrupt, maintenance tick) as methods.

**Reading a run.** `Tail` models the poll-and-tail stream, reconnection, and the client's shared
`maxSeq` filter. `Sse` models the wire format with its JSON payload, and the decoder of section 9.2.6
of the WHATWG HTML Living Standard; `JsonText` is a parser of the payloads.

**Texts.** `Checkpoint` models the edits of the agent's message list through a reducer that removes all,
removes by id, and replaces by id or appends; `SelectiveApproval` relates them to the transcript's cells.
`Cites` models the citation marker in the backend and in the front end.

**Laws.** `Batches` (greedy batching), `Windows` (sliding windows), `Ids` (IRIs and point ids), `LawStore`
(chunks, upsert, supersede, the order of a load), `LawPoints` (what the stored points hold) and
`Retrieval` (merging windows, choosing articles).

`Strip`, `Sorting` and `Decimals` hold Python's `str.strip`, its stable sort, and decimal notation.

## Hypotheses

The safety results need no hypothesis about timing: they hold for every interleaving. Absorbing ends, the
single terminal event and closed logs need some of the following, each a predicate on single steps of a
history (`RunTerminals.Meets`):

- *guarded pause*: a driver writes `awaiting_approval`
  (backend/src/backend_app/services/run_service.py:386) while its run is still running. This is the one
  unguarded status write. Without it an ended run can come back, and `EndedLeftOnlyByOutrunPause` says
  exactly when: the write of a driver that an interrupt or a sweep has outrun, and no other step.
- *one resume*: a resume is accepted while no other resume of that pause is on its way.
- *same pause*: the run that a resume's generator finds is the one its pump logs to. A resume looks the
  active run up twice, in the manager (run_manager.py:122) and in the generator (run_service.py:263). If
  the first run is interrupted and the thread's next run pauses in between, the generator drives the
  second run and its end is logged in the first one's log. One resume at a time does not prevent this.

`EachHypothesisIsNeeded` gives, for each of the three, a concrete history that meets the other two and
ends with two terminal events in one log. `GoneWithoutClosing` is a history with an unguarded pause in
which a pump is gone while its log is open; `EndedOrPausedWithoutDriver` covers such histories too.

The reader's stream takes a log that is appended in the order of its numbers. While nothing new is drawn
the protocol keeps that order, whatever its workers do next, if and only if no two numbers are drawn for
one log (`RunOrder.OrderSurvives`). Two are drawn, for example, when a run is interrupted from any instance
between the draw and the append of one of its events.

Infrastructure failures are not part of the model: repository and checkpoint calls succeed or fail only as
their own logic says.

## Findings

- The three hypotheses above; the first two are not enough for a single terminal event.
- A clean-up after a cancelled turn gives back the earlier conversation exactly when some message has
  tool calls. A turn cancelled before any tool call leaves its question in the checkpoint.
- A pause is two writes, the status and the marks of the waiting cells. A run that is rejected or stopped
  between them has its cells refused and answered, and may then get them marked as waiting again:
  `RefusalReachesCells` says exactly when, and `MarkedLate` is a reachable history.
- Approving a run does not count as a heartbeat: a run that waited longer than the threshold is swept
  right after its approval unless a heartbeat comes first (`ApprovedRunMustBeatFirst`, and the reachable
  history of `SweptAfterApproval`).
- Loading the same version of a law again with fewer or shorter articles leaves the surplus parts
  current; `CurrentAreWritten` says exactly when the current points of a law are those of its last load,
  and `SurplusStaysCurrent` gives two such loads.
- When only the embedding of a law fails, its graph has been replaced already while its points are the
  old ones (`IngestLaw`).
- Two articles share an IRI exactly when law id and date, joined by a slash and without the date's dashes,
  read the same and article and branch are the same. Law and date are told apart whenever the dates have no
  slash, or the law ids have none; with slashes on both sides they may not be (`SlashesCollide`).
- The text of `split_windows` is rebuilt from its windows exactly when the overlap is not negative or one
  window is enough.
- The comment at backend/src/backend_app/repositories/conversation.py:591 says that approvals expire by
  their waiting time; the code counts from the start of the run. `ExpiresByAge` states what it does over
  all histories, `AgeAgainstWaiting` when the two agree, and `ExpiresWithoutWaiting` gives a reachable run
  that has waited for 1 and is expired by a limit of 500.

## Model

| member | source | states |
|---|---|---|
| Forks.QueryIsHistory | backend/src/backend_app/repositories/conversation.py:665-690 | the recursive chain query with one cut per ancestor returns exactly the parent's history up to and including the fork point, then the thread's own messages |
| Forks.HistoryIncreasing | backend/src/backend_app/repositories/conversation.py:641-663 | a history is strictly increasing in sequence numbers, all at most the thread's counter; seeding the counter at the fork point makes this so |
| Forks.HistoryIsVisible | backend/src/backend_app/repositories/conversation.py:665-690 | a message is in a thread's history exactly when it is the thread's own or lies in the parent's visible prefix below the cut |
| Forks.LaterAppendsKeepHistory | backend/src/backend_app/repositories/conversation.py:298-306 | whatever is appended later to any thread, a history only grows at its end and only by the thread's own messages |
| Forks.VisibleStays | backend/src/backend_app/repositories/conversation.py:665-690 | no later change makes an existing message visible or invisible to a thread |
| Forks.VisibleComposes | backend/src/backend_app/repositories/conversation.py:692-714 | what the author of a visible message saw below it, the reader sees too |
| Forks.ForkStartsAtPoint | backend/src/backend_app/repositories/conversation.py:641-663 | a new fork sees the parent's history up to the fork point, which it includes, and its counter continues from there |
| Forks.ForkKeepsTables | backend/src/backend_app/repositories/conversation.py:641-663 | forking keeps every table invariant and every row |
| Statements.AddMessageKeeps | backend/src/backend_app/repositories/conversation.py:270-323 | drawing a number and inserting a cell keeps sequence numbers unique per thread and above the fork base, and changes no row's identity |
| Statements.CommitKeeps | backend/src/backend_app/repositories/conversation.py:325-360 | a committed answer keeps the same invariants |
| Statements.AddMessageStores | backend/src/backend_app/repositories/conversation.py:270-323 | an insert stores the row with every column given, under the number above the thread's last one, and touches nothing but the counter |
| Statements.CommitStores | backend/src/backend_app/repositories/conversation.py:325-360 | a commit happens exactly when the run is running and every cited id is stored; it completes the run, stores the answer with its text and one link for each cited id, and touches nothing else |
| Statements.SweepFollows | backend/src/backend_app/repositories/conversation.py:214-251 | sweeps and heartbeats keep every row's identity |
| Runs.StepKeepsSystem | backend/src/backend_app/services/run_service.py:253-525 | every step of every actor keeps the table invariants, only adds rows, and leaves each worker on a run of its own thread |
| Store.LatestActive | backend/src/backend_app/repositories/conversation.py:481-491 | the lookup finds an active run of the thread and none later, or there is none |
| RunSafety.StepMoves | backend/src/backend_app/services/run_service.py:357-525 | the complete list of status changes a worker can make, each with the status it won from and what it did to the worker's role as driver |
| RunSafety.OneDriverOneAnswer | backend/src/backend_app/services/run_service.py:263-309 | in every history: at most one driver per run, none while it is paused, and exactly one answer if it is completed and none otherwise |
| RunSafety.CompletedAndRejectedStay | backend/src/backend_app/repositories/conversation.py:253-267 | completed and rejected are never left, with no hypothesis |
| RunSafety.AnswerIffCompletes | backend/src/backend_app/repositories/conversation.py:325-360 | a step inserts an answer exactly when it moves its run from running to completed |
| RunSafety.ApprovalConsumedOnce | backend/src/backend_app/services/run_service.py:212-222 | in every history a run was paused as often as its pauses were consumed, plus one while it waits: one winner per pause among approvals, rejections, interrupts and timeouts |
| RunSafety.LoserChangesNothing | backend/src/backend_app/services/run_service.py:278-289 | a worker that loses a claim changes no table, and neither it nor its last events change a run or a cell afterwards |
| RunSafety.AlwaysSafe | backend/src/backend_app/repositories/conversation.py:253-267 | the invariant behind these results holds in every reachable state |
| RunRequests.DecisionFollowsRequest | backend/src/backend_app/services/run_service.py:263-289 | in every history a paused run goes on exactly when a resume claims it that approves or whose chosen ids include a waiting one, is rejected exactly when one claims it that rejects or chose no waiting id, is interrupted exactly when an interrupter claims it, and ends in error exactly when it is swept |
| RunRequests.ResumeComesToClaim | backend/src/backend_app/services/run_service.py:263-278 | a resume that still finds its run paused goes on to claim it, after reading the waiting calls if it has to |
| RunCells.RefusalReachesCells | backend/src/backend_app/services/run_service.py:270-284 | in every history, once a rejection or the stop of a paused run has gone through, each cell that waited at the decision is answered with the marker for that case and stays so; it is marked as refused if and only if the worker that paused the run did not mark it late |
| RunCells.ApprovalReachesCells | backend/src/backend_app/services/run_service.py:286-307 | in every history, when an approved resume marks the cells, each cell that waited at its claim is approved and still empty, or refused with the marker if a selective approval left it out; only a sweep in between may have answered it |
| RunCells.FailureReachesCells | backend/src/backend_app/services/run_service.py:402-413 | in every history, once a driver has failed its run, each cell that was empty then is answered with the marker for an interruption and stays so |
| RunCells.CancelReachesCells | backend/src/backend_app/services/run_service.py:366-384 | in every history, when a driver's cancel ends its run, no tool cell of the run is left without a result |
| RunLateMarks.MarkedLate | backend/src/backend_app/services/run_service.py:385-387 | a history in which a run is stopped between the two writes of its pause, and its answered cell keeps the mark of a waiting one |
| RunChoices.RunEndsAsChosen | backend/src/backend_app/services/run_service.py:357-430 | in every history what becomes of a running run is what its driver's stream chose last: pause, finish, cancel or failure, besides an interrupting request and a sweep |
| RunChoices.EventTellsChoice | backend/src/backend_app/services/run_service.py:433-478 | in every history an event that is about to be logged reports the last choice of the stream: a call, an answer, a citation, a pause or a finished text; a run's start comes before any |
| RunChoices.StepInserts | backend/src/backend_app/services/run_service.py:444-455 | the complete list of the cells that a worker inserts, with every column |
| RunReports.TerminalTellsEnd | backend/src/backend_app/services/run_service.py:402-430 | under the three hypotheses a logged terminal event is an error exactly for a run that ended in error, and the regular end exactly for a completed, interrupted or rejected one |
| RunRecords.PausesAreCounted | backend/src/backend_app/services/run_service.py:385-387 | in every history the counters of pauses and of consumed pauses count how often the run came to wait and ceased to |
| RunRecords.RecordsAreHistory | backend/src/backend_app/services/run_service.py:466-468 | in every history the recorded freezes and crashes are those of its steps |
| RunRecords.ThreadsOfStep | backend/src/backend_app/repositories/conversation.py:641-663 | the complete list of the threads that other steps create: roots, and forks at one of their parent's own messages with its number |
| RunRecords.RunsOfStep | backend/src/backend_app/repositories/conversation.py:182-251 | the complete list of what other steps do to a run: opening unless the thread has one that runs or waits, sweeping, beating |
| RunRecords.RowsOfStep | backend/src/backend_app/repositories/conversation.py:214-237 | the complete list of what other steps do to cells, events and citations |
| RunRounds.RejectRoundEnds | backend/src/backend_app/services/run_service.py:276-284 | in every history an undisturbed rejection ends the run as rejected, refuses and answers exactly its waiting cells, logs the end above every number of the thread, and touches nothing else |
| RunRounds.ApproveRoundDrives | backend/src/backend_app/services/run_service.py:286-309 | in every history an undisturbed approval sets the run running, approves exactly its waiting cells, which stay empty, and drives it |
| RunRounds.ToolRoundStores | backend/src/backend_app/services/run_service.py:444-463 | in every history an undisturbed call and its answer leave one cell with the call's id and result, the call logged under the cell's number and the answer under the next |
| RunRounds.FinishRoundCompletes | backend/src/backend_app/services/run_service.py:478-525 | in every history finishing a running run with known ids, undisturbed, completes it, stores one answer with a link for each id, and logs the answer under its number and the end under the next |
| RunCitations.CitationProvenance | backend/src/backend_app/services/run_service.py:462-468 | every id linked to an answer is stored and was frozen from a tool artifact by the run of a message in the visible prefix that links it too |
| RunCitations.CitationResolvesWhereSeen | backend/src/backend_app/repositories/conversation.py:692-714 | a link resolves in every thread, fork or not, that sees its message |
| RunCitations.CommitNeverDangles | backend/src/backend_app/repositories/conversation.py:325-358 | the foreign key of the link table never fails in a commit |
| RunChoices.CitedIdsAreKept | backend/src/backend_app/repositories/conversation.py:325-360 | in every history a completed run has an answer that links exactly the ids its driver finished with, and each resolves in every thread, fork or not, that sees the answer |
| RunChoices.VerifyAcceptsKnown | backend/src/backend_app/services/run_service.py:494-512 | a finished answer is accepted exactly when each cited id was frozen by its driver or is linked to a message the thread sees, and refused as forged otherwise |
| RunChoices.CitedAgainIsAccepted | backend/src/backend_app/services/run_service.py:495-499 | in every history an id of an answer that the thread sees is accepted when it is cited again |
| RunNumbers.NumbersNeverClash | backend/src/backend_app/repositories/conversation.py:169-179 | in every history: logged and drawn numbers are at most the thread's counter, drawn numbers of a thread are distinct and in none of its logs, and no two logs of a thread share one |
| RunNumbers.YieldedIsLogged | backend/src/backend_app/api/run_manager.py:143-148 | in every history: a yielded event enters its pump's log under its own name, and nothing in the log is touched |
| RunNumbers.StepNumbers | backend/src/backend_app/services/run_service.py:433-435 | the complete list of what a worker's step does to the counter, to the log and to its own number |
| RunPumps.GonePumpIsClosed | backend/src/backend_app/api/run_manager.py:139-164 | in every history with guarded pauses: a pump that is gone without a crash of its own ended by a pause, or its log holds a terminal event, or the run of its log is over |
| RunPumps.ClosedForGood | backend/src/backend_app/repositories/conversation.py:523-550 | with guarded pauses a log that holds a terminal event or whose run is over stays so, event collection included |
| RunPumps.ReadersEnd | backend/src/backend_app/api/run_manager.py:216-231 | from then on every reader that has not received a terminal event yet meets the condition under which the stream ends within finitely many polls, while log and status go on changing |
| RunPumps.GoneWithoutClosing | backend/src/backend_app/services/run_service.py:385-387 | without guarded pauses: a history in which a pump is gone, neither crashed nor paused, while its log holds no terminal event and its run waits |
| RunLiveness.EndedOrPausedWithoutDriver | backend/src/backend_app/services/run_service.py:357-430 | in every history, guarded pauses or not: once nothing drives a run any more, unless a process crashed, it is paused or has ended |
| RunOrder.AppendsAtTheEnd | backend/src/backend_app/repositories/conversation.py:493-504 | while one writer at a time holds a number for a log, everything enters the log above what it holds |
| RunOrder.OrderSurvives | backend/src/backend_app/repositories/conversation.py:493-504 | in every history where the drawn numbers lie above their logs: whatever the workers do next without drawing, they append in order if and only if no two numbers are drawn for one log |
| RunOrder.AloneMeansOneWriter | backend/src/backend_app/services/run_service.py:433-435 | numbers are drawn by one writer at a time exactly when at no point of the history two are drawn for one log |
| RunOrder.EarlyInterruptBreaksOrder | backend/src/backend_app/services/run_service.py:385-399 | a history in which a run is interrupted after its pause is written and before the request for approval is logged, and the request enters the log below the end |
| RunOrder.InterruptBreaksOrder | backend/src/backend_app/api/run_manager.py:181-197 | a history in which another instance's interrupt logs its end between the draw and the append of an event |
| RunTerminals.EndedLeftOnlyByOutrunPause | backend/src/backend_app/services/run_service.py:385-387 | an ended run changes status if and only if an outrun driver writes its pause, and then it had been interrupted or swept |
| RunTerminals.EndedIsAbsorbing | backend/src/backend_app/repositories/conversation.py:206-267 | with guarded pauses ended runs stay as they are, the end time is set exactly for ended runs, and event collection keeps every event of an active run |
| RunTerminals.SingleTerminal | backend/src/backend_app/api/run_manager.py:133-197 | under the three hypotheses no log ever holds two terminal events, and a logged one means that the run has ended |
| RunTerminals.NoSyntheticTerminal | backend/src/backend_app/api/run_manager.py:150-164 | under the same hypotheses the pump's synthetic error is never drawn |
| RunWitnesses.EachHypothesisIsNeeded | backend/src/backend_app/api/run_manager.py:119-128 | for each hypothesis a history that meets the others and logs two terminal events |
| Heartbeats.SweptExactlyWhenSilent | backend/src/backend_app/repositories/conversation.py:214-251 | in every history a never paused run is changed by a sweep if and only if it is running and its last heartbeat, counted from its start, is older than the threshold |
| Heartbeats.LiveRunIsNeverSwept | backend/src/backend_app/api/run_manager.py:81-105 | over a whole history with any number of instances, sweeps leave a never paused run that keeps the beat, and its cells, as they were |
| Heartbeats.PausedAndEndedAreLeftAlone | backend/src/backend_app/repositories/conversation.py:214-237 | a sweep for silent runs changes neither paused nor ended runs nor their cells |
| Approvals.ExpiresByAge | backend/src/backend_app/repositories/conversation.py:588-620 | in every history the sweep of waiting runs ends a run if and only if it waits and was started more than the limit ago |
| Approvals.AgeAgainstWaiting | backend/src/backend_app/repositories/conversation.py:588-592 | by one clock a run expires when it has waited longer than the limit, and age and waiting time agree if and only if the limit does not fall between start and pause |
| Approvals.ExpiresWithoutWaiting | backend/src/backend_app/repositories/conversation.py:588-592 | a reachable run that has waited for less than the limit and is expired |
| Approvals.SweptAfterApproval | backend/src/backend_app/repositories/conversation.py:214-237 | a reachable run that waits, is approved and is swept while it has a driver |
| Heartbeats.ApprovedRunMustBeatFirst | backend/src/backend_app/repositories/conversation.py:260-266 | a just approved run is swept exactly when its old heartbeat is stale, and survives when a heartbeat comes first |
| Repository.ConversationRepository.NextSeq | backend/src/backend_app/repositories/conversation.py:169-179 | draws the next number, or reports a missing thread and changes nothing |
| Repository.ConversationRepository.OpenRun | backend/src/backend_app/repositories/conversation.py:182-194 | opens a run unless the thread has an active one, which leaves the tables unchanged |
| Repository.ConversationRepository.SetRunStatus | backend/src/backend_app/repositories/conversation.py:206-212 | the unguarded write, refused by the index when another run of the thread is active |
| Repository.ConversationRepository.TryTransition | backend/src/backend_app/repositories/conversation.py:253-267 | wins exactly from the given status and otherwise changes nothing |
| Repository.ConversationRepository.ReconcileOrphanRuns | backend/src/backend_app/repositories/conversation.py:214-237 | the two-part sweep as one state change, and exactly which runs it took |
| Repository.ConversationRepository.TimeoutStaleApprovals | backend/src/backend_app/repositories/conversation.py:588-620 | the two-part sweep of waiting runs as one state change, and exactly which runs it took |
| Repository.ConversationRepository.HeartbeatRuns | backend/src/backend_app/repositories/conversation.py:239-251 | refreshes exactly the listed runs that are running |
| Repository.ConversationRepository.AddMessage | backend/src/backend_app/repositories/conversation.py:270-323 | number, cell and links appear together or, on a missing thread or an unknown citation, not at all |
| Repository.ConversationRepository.CommitAgentAnswer | backend/src/backend_app/repositories/conversation.py:325-360 | answer and completion happen together, or the transaction is rolled back with the reason |
| Repository.ConversationRepository.SetToolResult | backend/src/backend_app/repositories/conversation.py:420-428 | fills the cells of that run and call and no others |
| Repository.ConversationRepository.SetPendingApproval | backend/src/backend_app/repositories/conversation.py:579-586 | marks exactly the unanswered tool cells of the run |
| Repository.ConversationRepository.MarkPartialApproval | backend/src/backend_app/repositories/conversation.py:430-447 | the two statements together classify every cell: rejected calls refused and answered, the other unanswered ones approved |
| Repository.ConversationRepository.ResolveOrphanToolCells | backend/src/backend_app/repositories/conversation.py:457-468 | fills exactly the unanswered tool cells of the run |
| Repository.ConversationRepository.FreezeCitation | backend/src/backend_app/repositories/conversation.py:623-638 | the first snapshot of a citation stays |
| Repository.ConversationRepository.AppendRunEvent | backend/src/backend_app/repositories/conversation.py:493-504 | appending is idempotent on run and number |
| Repository.ConversationRepository.GcRunEvents | backend/src/backend_app/repositories/conversation.py:523-540 | drops exactly the events of runs that ended before the retention time |
| Repository.ConversationRepository.ForkThread | backend/src/backend_app/repositories/conversation.py:641-663 | forks at one of the parent's own messages, or changes nothing |
| Repository.ConversationRepository.WalkUp | backend/src/backend_app/repositories/conversation.py:671-679 | the walk up the forks terminates and cuts each ancestor where its child left it |
| Repository.ConversationRepository.GetThreadMessages | backend/src/backend_app/repositories/conversation.py:665-690 | the joined and ordered rows are the history, in increasing order |
| Manager.PumpNeverLeavesOpen | backend/src/backend_app/api/run_manager.py:139-164 | whatever the generator yields and wherever it stops, everything yielded is logged, and the log holds a terminal event or the run is paused or over |
| Manager.RunManager.Pump | backend/src/backend_app/api/run_manager.py:133-168 | the loop with its flags and finally block computes that log and releases the run |
| Manager.RunManager.Interrupt | backend/src/backend_app/api/run_manager.py:171-191 | which of the four outcomes is given when, whatever has happened since the run was looked up; a stopped run is interrupted and ended with its terminal event logged, and any other outcome, the lost race included, changes nothing |
| Manager.StoppedAndReported | backend/src/backend_app/api/run_manager.py:171-197 | what stopping leaves: the run interrupted at that time, the waiting cells of a paused run refused and answered, a new regular end above every number of the thread, and nothing else changed |
| Manager.RunManager.Maintain | backend/src/backend_app/api/run_manager.py:81-105 | a tick beats, then sweeps, and on every n-th tick drops the events of long ended runs |
| Manager.OwnRunsSurviveTheTick | backend/src/backend_app/api/run_manager.py:81-105 | an instance never sweeps the running runs it drives |
| Manager.ProtocolNumbersAreFresh | backend/src/backend_app/api/run_manager.py:143-148 | the numbers that the pump takes to be new are new in every history |
| Manager.LastResortAsInProtocol | backend/src/backend_app/api/run_manager.py:150-164 | the loop's last resort decides as the worker of the protocol does |
| Tail.Stream | backend/src/backend_app/api/run_manager.py:206-231 | over a growing log and bounded batches: exactly the events after the cursor up to the terminal one, once each and in order; an end made from the status is an error exactly when the status of the poll is an error, a regular end otherwise, numbered one above the last delivered, and that poll had everything visible delivered, without a terminal event; a stream still open has delivered all its polls let it; once every poll sees the run ended or a terminal event after the cursor, one more poll than there are events is enough |
| Tail.Deliver | backend/src/backend_app/api/run_manager.py:220-224 | delivers a batch up to its first terminal event and moves the cursor to the last delivered number |
| Tail.ReconnectComposes | backend/src/backend_app/api/run_manager.py:206-219 | reconnecting at any delivered number continues to the same sequence |
| Tail.SseClient.Sessions | frontend/src/lib/shared/api/sse.ts:16-59 | any number of sessions that replay the log in any interleaving accept together a gap-free prefix of it, once each; each session has received as many events as its turns give it, and the prefix reaches as far as the furthest |
| Tail.SseClient.Receive | frontend/src/lib/shared/api/sse.ts:46-49 | accepts exactly the numbers above the highest so far |
| Sse.WireRoundTrip | backend/src/backend_app/services/run_service.py:110-118 | decoding the concatenated wire forms of any events gives back each name without line breaks, each payload, and each number as last event id |
| Sse.CutDeliversPrefix | backend/src/backend_app/services/run_service.py:110-118 | a stream cut anywhere delivers a prefix of what the whole stream delivers, never a partial event |
| Sse.DumpsOneLine | backend/src/backend_app/services/run_service.py:114-118 | a payload has no raw line break, whatever its strings contain |
| JsonText.DumpsReadsBack | backend/src/backend_app/services/run_service.py:118 | every payload text parses back to the payload: strings with their escapes, numbers, keywords, lists and objects, in order |
| JsonText.ClientReadsEvents | backend/src/backend_app/services/run_service.py:110-118 | a client that decodes the stream and parses each payload gets, event for event, the sequence number under its key and every other entry of the data as it was |
| JsonText.CleanedDropsBreaks | backend/src/backend_app/services/run_service.py:114-115 | cleaning an event's name drops exactly its line breaks |
| Sse.ReadField | backend/src/backend_app/services/run_service.py:117-118 | the decoder splits a printed field at its first colon and gives back name and value |
| Decimals.DecimalRoundTrip | backend/src/backend_app/services/run_service.py:117 | a printed sequence number reads back as itself |
| Checkpoint.CleanUpRestores | agent/src/agent_app/core/agent.py:97-139 | cleaning up after a cancelled turn gives back the earlier conversation if and only if some message has tool calls |
| Checkpoint.RepeatedCancelsAddNothing | agent/src/agent_app/core/agent.py:97-139 | any number of cancelled tool turns adds nothing |
| Checkpoint.CleanedIsValid | agent/src/agent_app/core/agent.py:112-139 | a clean-up that finds tool calls removes them all if and only if there is a question or a finished answer to keep; then the checkpoint is not empty, with no dangling call and no orphan result; otherwise it is unchanged |
| Checkpoint.AnsweringCompletes | agent/src/agent_app/core/agent.py:141-164 | a paused history becomes valid once its waiting calls are answered |
| Checkpoint.SurgeryKeepsHistory | agent/src/agent_app/core/agent.py:82-95 | rejection, or approval of no call, leaves the valid history before the pause; partial approval leaves a paused one with the chosen calls |
| Checkpoint.ReActCheckpoint.RejectPending | agent/src/agent_app/core/agent.py:82-95 | removes the last message with tool calls and nothing else |
| Checkpoint.ReActCheckpoint.ApprovePartial | agent/src/agent_app/core/agent.py:141-164 | replaces that message under its id, reports the rejected ids, and delegates when none is approved |
| Checkpoint.ReActCheckpoint.ClearInterruptedTools | agent/src/agent_app/core/agent.py:97-139 | the scan with its cut and prefix computes the clean-up under new distinct ids |
| Checkpoint.ReActCheckpoint.ForkState | agent/src/agent_app/core/agent.py:178-197 | a fork is seeded with the questions and answers of its transcript |
| Checkpoint.SeedHoldsTalk | agent/src/agent_app/core/agent.py:178-197 | the seed of a fork holds for each question and answer of the transcript, in order, a question or a finished answer with its text, and nothing else |
| Checkpoint.ConversationJoins | agent/src/agent_app/core/agent.py:112-130 | the kept conversation of a history is that of its parts, one after the other: questions and finished answers |
| SelectiveApproval.StillAgrees | backend/src/backend_app/services/run_service.py:269-307 | marking the cells and cutting the message by the same chosen ids keeps transcript and checkpoint in agreement |
| SelectiveApproval.MarkingSettles | backend/src/backend_app/repositories/conversation.py:430-447 | the still empty cells are approved and are exactly the chosen calls, the others are refused with the marker |
| SelectiveApproval.SelectiveResume | backend/src/backend_app/services/run_service.py:269-307 | a selective resume with some valid id ends in that agreement, never removes the waiting message, and changes the tables by that marking alone; without one it touches nothing |
| Cites.ScannersAgree | backend/src/backend_app/services/run_service.py:494-495 | scanning the normalised body yields the trimmed non-blank captures in order, in the backend and in the front end |
| Cites.NormalisedIdempotent | backend/src/backend_app/services/run_service.py:36 | normalising twice is normalising once |
| Cites.TokensOfNormalised | backend/src/backend_app/services/run_service.py:494-495 | no marker is created or lost by the replacement: the tokens of the result are the normalised tokens, for the case-blind and the exact scanner |
| Cites.PrintedTokens | backend/src/backend_app/services/run_service.py:36 | scanning loses no character |
| Cites.Exec | frontend/src/lib/shared/render/cites.ts:5-9 | finds the first match at or after a position, or there is none |
| Cites.SplitCites | frontend/src/lib/shared/render/cites.ts:4-16 | the segments print back to any text, their ids are the captures in order, and text segments are neither empty nor adjacent |
| Batches.Embed | legal_infra/src/legal_infra/embedding_remote.py:24-37 | the loop sends exactly the greedy batches; on failure the last one sent is the first with a reply of the wrong length |
| Batches.GreedyBatches | legal_infra/src/legal_infra/embedding_remote.py:24-37 | batches keep the order, lose nothing, are not empty, and are within the budget unless they are a single item |
| Batches.FewestRequests | legal_infra/src/legal_infra/embedding_remote.py:24-37 | no admissible split in order has fewer requests |
| Batches.BatchingIsInvisible | legal_infra/src/legal_infra/embedding_remote.py:39-51 | the vectors come back one per text in the order of the texts, however the server orders its replies |
| Batches.OneVectorPerText | legal_infra/src/legal_infra/embedding_remote.py:39-51 | a successful call yields one vector per text |
| Sorting.SortSorts | legal_core/src/legal_core/retrieval.py:46 | sorting yields an ascending permutation |
| Sorting.SortStable | legal_core/src/legal_core/retrieval.py:46 | equal keys keep their order |
| Windows.SplitWindows | legal_core/src/legal_core/text.py:14-25 | the loop with its early break computes the windows for any cap and overlap |
| Windows.WindowsWithinCap | legal_core/src/legal_core/text.py:14-25 | windows are within the cap and not empty, all but the last are full, and only a blank text has none |
| Windows.WindowsRebuildText | legal_core/src/legal_core/text.py:14-25 | dropping the fixed overlap rebuilds the trimmed text if and only if the overlap is not negative or one window is enough |
| Windows.LeastWindows | legal_core/src/legal_core/text.py:14-25 | a split into several windows has the least number of windows that reaches the end |
| Windows.PipelineWindows | legal_core/src/legal_core/text.py:10-11 | both hold for the constants of the pipeline |
| Ids.ArticleIrisEqual | legal_core/src/legal_core/ids.py:22-47 | for any inputs: IRIs are equal if and only if law and date, joined by a slash and without dashes in the date, read the same, and article and branch (absent for 0) are the same |
| Ids.VersionsEqual | legal_core/src/legal_core/ids.py:22-29 | that tells law and date apart if the dates have no slash, or if the law ids have none |
| Ids.SlashesCollide | legal_core/src/legal_core/ids.py:22-29 | one pair of versions, with a slash in a law id and one in a date, that share every IRI |
| Ids.PointIdsEqual | legal_core/src/legal_core/ids.py:50-56 | for any laws and dates: point ids of article parts are equal if and only if IRI and part are |
| Ids.IsoAgrees | db-admin/src/db_admin/pipeline/lawgo_ingest.py:27-29 | for plain dates the payload's form, the IRI's form and the date determine each other |
| Ids.IsoKeepsDate | db-admin/src/db_admin/pipeline/lawgo_ingest.py:27-29 | the payload's date determines the IRI's date for any input |
| Ids.IriExamples | legal_core/src/legal_core/ids.py:22-56 | the documented forms of an article's IRI, with and without a branch, and of a part's key |
| LawStore.BuildChunks | db-admin/src/db_admin/pipeline/lawgo_ingest.py:60-75 | the nested loops yield every window of every article in order, none for a blank one |
| LawStore.QdrantVector.Upsert | legal_infra/src/legal_infra/vector_qdrant.py:46-65 | stores the points under their ids, later ones over earlier ones, or refuses lists of different lengths |
| LawPoints.ChunkKeepsItsVector | legal_infra/src/legal_infra/vector_qdrant.py:46-65 | a chunk that no later one of the same id follows is stored with its own vector, text, source and place |
| LawPoints.LoadPairsTexts | db-admin/src/db_admin/pipeline/lawgo_ingest.py:98-104 | with a server that embeds honestly, in whatever order it replies, every point that a load writes holds the vector of its own text |
| LawPoints.PointTellsArticle | db-admin/src/db_admin/pipeline/lawgo_ingest.py:60-75 | after any sequence of loads every stored point is a window of an article of a load, with the whole text of that article, its law, date, place and id |
| LawPoints.EveryWindowIsStored | db-admin/src/db_admin/pipeline/lawgo_ingest.py:60-75 | a load stores every window of every article under the id of its article and part, current and with its law and date |
| LawStore.QdrantVector.Supersede | legal_infra/src/legal_infra/vector_qdrant.py:67-82 | demotes exactly the other versions of the law |
| LawStore.IngestLaw | db-admin/src/db_admin/pipeline/lawgo_ingest.py:78-104 | resolution, graph, chunks, vectors, upsert and supersede in order: an unresolved name or a refused graph changes nothing, and failed vectors leave the points as they were but the graph replaced |
| LawStore.GraphPerVersion | db-admin/src/db_admin/pipeline/lawgo_ingest.py:56 | with slash-free law ids, or slash-free dates, each version of each law has a graph of its own |
| LawStore.CurrentIsLastLoaded | db-admin/src/db_admin/pipeline/lawgo_ingest.py:98-104 | after any sequence of loads every current point of a law carries the date loaded last for it |
| LawStore.LastLoadStaysCurrent | db-admin/src/db_admin/pipeline/lawgo_ingest.py:98-104 | what was loaded last for a law stays stored and current through loads of other laws whose law and date read differently |
| LawStore.SlashFreeLoadsStayCurrent | db-admin/src/db_admin/pipeline/lawgo_ingest.py:98-104 | with dates without a slash that is so for all other laws |
| LawStore.SharedIdIsOneVersion | legal_infra/src/legal_infra/vector_qdrant.py:46-65 | two loads write the same id only if law and date read the same in it |
| LawStore.NothingDeleted | legal_infra/src/legal_infra/vector_qdrant.py:67-82 | no load deletes a point, and it changes others only by demoting other versions of the same law |
| LawStore.OtherVersionsKept | legal_infra/src/legal_infra/vector_qdrant.py:46-65 | with slash-free dates, or slash-free law ids, two loads write the same id only for the same law and version |
| LawStore.CurrentAreWritten | db-admin/src/db_admin/pipeline/lawgo_ingest.py:98-104 | after a load the current points of its law are exactly those it wrote if and only if it wrote every current point of the same version |
| LawStore.ReloadKeepsSurplus | db-admin/src/db_admin/pipeline/lawgo_ingest.py:98-104 | a version loaded again without one of its parts keeps that part current |
| LawStore.SurplusStaysCurrent | db-admin/src/db_admin/pipeline/lawgo_ingest.py:98-104 | two loads, the second with one of the two articles of the first, after which the part that it did not write is current |
| Retrieval.DedupByArticle | legal_core/src/legal_core/retrieval.py:39-46 | the loop over an insertion-ordered dictionary computes the merged hits |
| Retrieval.DedupMerges | legal_core/src/legal_core/retrieval.py:39-46 | exactly one hit per article, its first best-scoring window, in order of score |
| Retrieval.RetrievesBestArticles | legal_core/src/legal_core/retrieval.py:73-93 | at most k articles, each once and under its own id, best first; any hit not represented is beaten by all k; a failing graph changes none of this |
| Retrieval.AnswerShowsHits | legal_core/src/legal_core/retrieval.py:22-93 | a query for a past date is refused; otherwise each entry shows the article of a ranked hit: the whole text for answering, a prefix of at most 200 characters for display, title, reference, law and date; the relations are the graph's around exactly the laws of the entries, or none when it fails |
| Retrieval.AnswersShowLoadedArticles | legal_core/src/legal_core/retrieval.py:22-93 | after any loads each entry of an answer shows the whole text of an article of a load of that law, and of the date loaded last for it |
| Retrieval.OneVersionPerArticle | legal_core/src/legal_core/retrieval.py:73-93 | after any loads an answer shows no two versions and no two windows of an article, each from the version loaded last |

## Left out

- Thread deletion with its guards, titles, summaries, settings, listings and run counts.
- PostgreSQL, pools, migrations, FastAPI, the LLM, LangGraph's own scheduling, Langfuse, embedding and reranking models, the ranking of Qdrant, Fuseki and RDF graphs: outside systems. Their answers are parameters.
- Infrastructure failures inside repository or checkpoint calls, and generators closed from outside.
- The cancel flag: a driver may find itself cancelled at any chunk boundary, which covers every use of the flag.
- The texts of answers and questions in the protocol: cells are stored with empty content there; the marker texts are treated in `Cites`. What `_compose` adds and strips is not modelled.
- Row ids are positions in their table instead of random UUIDs, and a point id is a free constructor instead of UUIDv5, so neither collides.
- Strings are sequences of characters: no difference between code points and UTF-16 units.
- The front end's event for a broken connection, its queue, and messages without a number.
- Number formatting in payloads beyond the characters it may use; surrogate escapes.
- The metrics, logging and the checkpoint collection of the maintenance loop.
- Heartbeat safety after a resume, an always last terminal event when another instance ends a driven run, and complete cells after a forged citation or a remote interrupt: the code does not provide them.
- Manager.RunManager.Pump: takes the generator's events as given; how the generator changes the tables meanwhile is in `Runs`.
- Manager.PumpNeverLeavesOpen: speaks of one uninterrupted call; the statement over all interleavings is `RunPumps.GonePumpIsClosed`.
- Manager.RunManager.Interrupt: covers the tables; the clean-up of the checkpoint is in `Checkpoint`.
- Repository.ConversationRepository.AppendRunEvent: stores an event's name, not its payload, which is treated in `Sse` and `Tail`.
- RunLiveness.EndedOrPausedWithoutDriver: says nothing about a run whose process crashed; such a run is left to the sweeps.
- RunPumps.GonePumpIsClosed: says nothing of a pump that crashed; it asks for guarded pauses, and `RunPumps.GoneWithoutClosing` shows why.
- RunPumps.ReadersEnd: a reader of a run that has ended may find rows collected; it then ends on the status.
- Tail.Stream: reads a log that is appended in the order of its numbers; `RunOrder` says exactly when the protocol keeps that.
- LawStore.IngestLaw: the name resolution and the graph upload are given by their outcomes.
