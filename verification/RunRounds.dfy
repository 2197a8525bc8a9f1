/** Undisturbed stretches of any history, from the request or the choice to what is stored and logged. */
module RunRounds {
  import opened Store
  import opened Forks
  import opened Runs
  import opened RunSafety
  import opened RunNumbers
  import opened RunCitations
  import opened RunChoices

  // ---- a tool call and its answer ----------------------------------------

  lemma Continues(steps: seq<Step>, step: Step)
    requires StateAfter(steps).Some? && CanStep(StateAfter(steps).value, step)
    ensures StateAfter(steps + [step]) == Some(NextState(StateAfter(steps).value, step))
  {
    hide SystemOk, NextState, CanStep;
    assert (steps + [step])[..|steps|] == steps;
  }

  lemma Calling(s: System, i: WorkerId, callId: string)
    requires SystemOk(s) && i < |s.workers| && s.workers[i].pc.Loop?
    ensures var w := s.workers[i];
            && w.thread < |s.db.threads|
            && var q := s.db.threads[w.thread].lastSeq + 1;
               && CanStep(s, Act(i, CallTool(callId)))
               && var later := NextState(s, Act(i, CallTool(callId)));
                  && later.workers == s.workers[i := Yielded(w, ToolCall, q, ToLoop)]
                  && later.db.runs == s.db.runs && later.db.events == s.db.events
                  && later.db.threads == s.db.threads[w.thread := s.db.threads[w.thread].(lastSeq := q)]
                  && later.db.messages == s.db.messages + [Message(w.thread, w.run, q, Tool, "", Some(callId), None,
                      None, {})]
  {
    hide TablesOk;
  }

  /** A drawn event is appended. */
  lemma Logging(s: System, i: WorkerId, now: int)
    requires SystemOk(s) && i < |s.workers| && s.workers[i].pc.Log? && s.workers[i].pc.next.ToLoop?
    requires (s.workers[i].logRun, s.workers[i].pc.seqNo) !in s.db.events
    ensures CanStep(s, Act(i, Go(now)))
    ensures var w, later := s.workers[i], NextState(s, Act(i, Go(now)));
            && later.workers == s.workers[i := w.(pc := Loop)]
            && later.db == s.db.(events := s.db.events[(w.logRun, w.pc.seqNo) := w.pc.name])
  {
    hide TablesOk;
  }

  lemma Answering(s: System, i: WorkerId, callId: string, result: string)
    requires SystemOk(s) && i < |s.workers| && s.workers[i].pc.Loop?
    ensures var w := s.workers[i];
            && w.thread < |s.db.threads|
            && var q := s.db.threads[w.thread].lastSeq + 1;
               && CanStep(s, Act(i, Answer(callId, result)))
               && var later := NextState(s, Act(i, Answer(callId, result)));
                  && later.workers == s.workers[i := w.(pc := StoreResult(callId, result, q))]
                  && later.db == s.db.(threads := s.db.threads[w.thread := s.db.threads[w.thread].(lastSeq := q)])
  {
    hide TablesOk;
  }

  lemma Storing(s: System, i: WorkerId, now: int)
    requires SystemOk(s) && i < |s.workers| && s.workers[i].pc.StoreResult?
    ensures CanStep(s, Act(i, Go(now)))
    ensures var w, later := s.workers[i], NextState(s, Act(i, Go(now)));
            && later.workers == s.workers[i := Yielded(w, ToolResult, w.pc.seqNo, ToLoop)]
            && later.db.runs == s.db.runs && later.db.events == s.db.events && later.db.threads == s.db.threads
            && |later.db.messages| == |s.db.messages|
            && forall k :: 0 <= k < |s.db.messages| ==>
                 var m := s.db.messages[k];
                 later.db.messages[k] == if m.run == w.run && m.callId == Some(w.pc.callId)
                                         then m.(result := Some(w.pc.result)) else m
  {
    hide TablesOk;
  }

  function ToolRound(i: WorkerId, callId: string, result: string, now: int): seq<Step> {
    [Act(i, CallTool(callId)), Act(i, Go(now)), Act(i, Answer(callId, result)), Act(i, Go(now)), Act(i, Go(now))]
  }

  /** Main result: in every history, a tool call and its answer that nothing disturbs leave one new cell with
  the call's id and result, the call logged under the cell's number and the answer under the next one,
  and the driver in its loop. */
  lemma {:induction false} ToolRoundStores(steps: seq<Step>, i: WorkerId, callId: string, result: string, now: int)
    requires StateAfter(steps).Some? && i < |StateAfter(steps).value.workers|
    requires StateAfter(steps).value.workers[i].pc.Loop?
    ensures StateAfter(steps + ToolRound(i, callId, result, now)).Some?
    ensures var s, later := StateAfter(steps).value, StateAfter(steps + ToolRound(i, callId, result, now)).value;
            var w := s.workers[i];
            && i < |later.workers| && later.workers[i] == w.(last := Some(ToolResult)) && later.db.runs == s.db.runs
            && w.thread < |s.db.threads|
            && var q, n := s.db.threads[w.thread].lastSeq + 1, |s.db.messages|;
               && later.db.events == s.db.events[(w.logRun, q) := ToolCall][(w.logRun, q + 1) := ToolResult]
               && |later.db.messages| == n + 1
               && later.db.messages[n] == Message(w.thread, w.run, q, Tool, "", Some(callId), Some(result), None, {})
               && forall k :: 0 <= k < n ==>
                    var m := s.db.messages[k];
                    later.db.messages[k] == if m.run == w.run && m.callId == Some(callId)
                                            then m.(result := Some(result)) else m
  {
    hide StateAfter, NextState, CanStep, SystemOk, TablesOk;
    var s0 := StateAfter(steps).value;
    Calling(s0, i, callId);
    Continues(steps, Act(i, CallTool(callId)));
    var steps1 := steps + [Act(i, CallTool(callId))];
    NumbersNeverClash(steps1);
    var s1 := StateAfter(steps1).value;
    Logging(s1, i, now);
    Continues(steps1, Act(i, Go(now)));
    var steps2 := steps1 + [Act(i, Go(now))];
    var s2 := StateAfter(steps2).value;
    Answering(s2, i, callId, result);
    Continues(steps2, Act(i, Answer(callId, result)));
    var steps3 := steps2 + [Act(i, Answer(callId, result))];
    var s3 := StateAfter(steps3).value;
    Storing(s3, i, now);
    Continues(steps3, Act(i, Go(now)));
    var steps4 := steps3 + [Act(i, Go(now))];
    NumbersNeverClash(steps4);
    var s4 := StateAfter(steps4).value;
    Logging(s4, i, now);
    Continues(steps4, Act(i, Go(now)));
    assert steps4 + [Act(i, Go(now))] == steps + ToolRound(i, callId, result, now);
  }

  // ---- finishing ---------------------------------------------------------

  lemma Works(s: System, i: WorkerId, act: Action)
    requires SystemOk(s) && i < |s.workers| && CanAct(s.workers[i].pc, act)
    ensures TablesOk(s.db) && WorkerOk(s.db, s.workers[i]) && CanStep(s, Act(i, act))
    ensures var out, later := WorkerStep(s.db, s.workers[i], act), NextState(s, Act(i, act));
            later.db == out.db && later.workers == s.workers[i := out.worker]
  {
    hide TablesOk, WorkerStep;
  }

  function Thrice(i: WorkerId, now: int): seq<Step> {
    [Act(i, Go(now)), Act(i, Go(now)), Act(i, Go(now))]
  }

  /** The tables with one more event, under the next number of the thread. */
  function WithEvent(db: Db, t: ThreadId, logRun: RunId, name: EventName): Db
    requires t < |db.threads|
  {
    var q := db.threads[t].lastSeq + 1;
    db.(threads := db.threads[t := db.threads[t].(lastSeq := q)], events := db.events[(logRun, q) := name])
  }

  /** The number of the last event is drawn and the event is logged. */
  lemma DrawsAndLogs(steps: seq<Step>, i: WorkerId, name: EventName, now: int)
    requires StateAfter(steps).Some? && i < |StateAfter(steps).value.workers|
    requires StateAfter(steps).value.workers[i].pc == Draw(name, ToPumpEnd) && Terminal(name)
    ensures StateAfter(steps + [Act(i, Go(now))] + [Act(i, Go(now))]).Some?
    ensures var s, later := StateAfter(steps).value, StateAfter(steps + [Act(i, Go(now))] + [Act(i, Go(now))]).value;
            var w := s.workers[i];
            && i < |later.workers| && later.workers[i].pc.PumpEnd? && later.workers[i].sawTerminal
            && w.thread < |s.db.threads| && later.db == WithEvent(s.db, w.thread, w.logRun, name)
  {
    hide StateAfter, NextState, CanStep, SystemOk, TablesOk, WorkerStep;
    var s0 := StateAfter(steps).value;
    Works(s0, i, Go(now));
    DrawsLast(s0.db, s0.workers[i], now);
    Continues(steps, Act(i, Go(now)));
    var steps1 := steps + [Act(i, Go(now))];
    var s1 := StateAfter(steps1).value;
    NumbersNeverClash(steps1);
    Works(s1, i, Go(now));
    LogsLast(s1.db, s1.workers[i], now);
    Continues(steps1, Act(i, Go(now)));
  }

  /** Then the pump leaves. */
  lemma LastEvent(steps: seq<Step>, i: WorkerId, name: EventName, now: int)
    requires StateAfter(steps).Some? && i < |StateAfter(steps).value.workers|
    requires StateAfter(steps).value.workers[i].pc == Draw(name, ToPumpEnd) && Terminal(name)
    ensures StateAfter(steps + Thrice(i, now)).Some?
    ensures var s, later := StateAfter(steps).value, StateAfter(steps + Thrice(i, now)).value;
            var w := s.workers[i];
            && i < |later.workers| && later.workers[i].pc.Gone?
            && w.thread < |s.db.threads| && later.db == WithEvent(s.db, w.thread, w.logRun, name)
  {
    hide StateAfter, NextState, CanStep, SystemOk, TablesOk, WorkerStep, WithEvent;
    DrawsAndLogs(steps, i, name, now);
    var steps2 := steps + [Act(i, Go(now))] + [Act(i, Go(now))];
    var s2 := StateAfter(steps2).value;
    Works(s2, i, Go(now));
    LeavesLast(s2.db, s2.workers[i], now);
    Continues(steps2, Act(i, Go(now)));
    assert steps2 + [Act(i, Go(now))] == steps + Thrice(i, now);
  }

  lemma DrawsLast(db: Db, w: Worker, now: int)
    requires TablesOk(db) && WorkerOk(db, w) && w.pc.Draw? && w.pc.next.ToPumpEnd? && Terminal(w.pc.name)
    ensures var q := db.threads[w.thread].lastSeq + 1;
            && WorkerStep(db, w, Go(now)).worker == w.(pc := Log(w.pc.name, q, ToPumpEnd), sawTerminal := true,
                last := Some(w.pc.name))
            && WorkerStep(db, w, Go(now)).db ==
                db.(threads := db.threads[w.thread := db.threads[w.thread].(lastSeq := q)])
  {
    hide TablesOk;
  }

  lemma LogsLast(db: Db, w: Worker, now: int)
    requires TablesOk(db) && WorkerOk(db, w) && w.pc.Log? && w.pc.next.ToPumpEnd?
              && (w.logRun, w.pc.seqNo) !in db.events
    ensures WorkerStep(db, w, Go(now)).worker == w.(pc := PumpEnd)
    ensures WorkerStep(db, w, Go(now)).db == db.(events := db.events[(w.logRun, w.pc.seqNo) := w.pc.name])
  {
    hide TablesOk;
  }

  lemma LeavesLast(db: Db, w: Worker, now: int)
    requires TablesOk(db) && WorkerOk(db, w) && w.pc.PumpEnd? && w.sawTerminal
    ensures WorkerStep(db, w, Go(now)) == Outcome(db, w.(pc := Gone))
  {
    hide TablesOk;
  }

  // ---- a rejection -------------------------------------------------------

  function RejectRound(t: ThreadId, i: WorkerId, now: int): seq<Step> {
    [ResumeRun(t, Reject), Act(i, Go(now)), Act(i, Go(now)), Act(i, Go(now)), Act(i, Go(now))]
    + Thrice(i, now)
  }

  lemma AcceptsResume(s: System, t: ThreadId, request: Request)
    requires SystemOk(s) && t < |s.db.threads| && PausedRun(s.db, t).Some?
    ensures CanStep(s, ResumeRun(t, request))
    ensures var r := PausedRun(s.db, t).value;
            NextState(s, ResumeRun(t, request)) == s.(workers := s.workers + [Fresh(r, t, Lookup(request))])
  {
    hide TablesOk, PausedRun;
  }

  lemma LooksUpRun(db: Db, w: Worker, now: int)
    requires TablesOk(db) && WorkerOk(db, w) && w.pc.Lookup? && PausedRun(db, w.thread) == Some(w.run)
    ensures WorkerStep(db, w, Go(now)).db == db
    ensures w.pc.request.Reject? ==> WorkerStep(db, w, Go(now)).worker == w.(pc := RejectCas)
    ensures w.pc.request.Approve? ==> WorkerStep(db, w, Go(now)).worker == w.(pc := ApproveCas(None))
  {
    hide TablesOk, PausedRun;
  }

  lemma Rejecting(db: Db, w: Worker, now: int)
    requires TablesOk(db) && WorkerOk(db, w) && w.pc.RejectCas? && db.runs[w.run].status.AwaitingApproval?
    ensures WorkerStep(db, w, Go(now)).worker == w.(pc := RejectCells)
    ensures WorkerStep(db, w, Go(now)).db ==
            db.(runs := db.runs[w.run := db.runs[w.run].(status := Rejected, endedAt := Some(now))])
  {
    hide TablesOk;
  }

  lemma ClosingCells(db: Db, w: Worker, now: int)
    requires TablesOk(db) && WorkerOk(db, w) && (w.pc.RejectCells? || w.pc.RejectOrphans?)
    ensures WorkerStep(db, w, Go(now)).worker ==
            w.(pc := if w.pc.RejectCells? then RejectOrphans else Draw(RunDone, ToPumpEnd))
    ensures var later := WorkerStep(db, w, Go(now)).db;
            && later == db.(messages := later.messages) && |later.messages| == |db.messages|
            && forall k :: 0 <= k < |db.messages| ==>
                 var m := db.messages[k];
                 later.messages[k] == if m.run == w.run && m.role.Tool? && m.result.None?
                                      then if w.pc.RejectCells? then m.(approval := Some(Refused))
                                           else m.(result := Some(REJECTED_TOOL))
                                      else m
  {
    hide TablesOk;
  }

  /** The waiting cells refused and answered. */
  ghost predicate TurnedDown(db: Db, later: Db, r: RunId) {
    |later.messages| == |db.messages|
    && forall k :: 0 <= k < |db.messages| ==>
         var m := db.messages[k];
         later.messages[k] == if m.run == r && m.role.Tool? && m.result.None?
                              then m.(approval := Some(Refused), result := Some(REJECTED_TOOL)) else m
  }

  /** From the request to the answered cells. */
  lemma TurnsDown(steps: seq<Step>, t: ThreadId, now: int) returns (more: seq<Step>, i: WorkerId)
    requires StateAfter(steps).Some? && t < |StateAfter(steps).value.db.threads|
    requires PausedRun(StateAfter(steps).value.db, t).Some?
    ensures i == |StateAfter(steps).value.workers|
    ensures more == steps + [ResumeRun(t, Reject), Act(i, Go(now)), Act(i, Go(now)), Act(i, Go(now)), Act(i, Go(now))]
    ensures StateAfter(more).Some?
    ensures var s, later := StateAfter(steps).value, StateAfter(more).value;
            var r := PausedRun(s.db, t).value;
            && i < |later.workers| && later.workers[i] == Fresh(r, t, Draw(RunDone, ToPumpEnd))
            && later.db == s.db.(messages := later.db.messages,
                                 runs := s.db.runs[r := s.db.runs[r].(status := Rejected, endedAt := Some(now))])
            && TurnedDown(s.db, later.db, r)
  {
    hide StateAfter, NextState, CanStep, SystemOk, TablesOk, PausedRun, WorkerStep, TryTransition;
    var s := StateAfter(steps).value;
    i := |s.workers|;
    AcceptsResume(s, t, Reject);
    Continues(steps, ResumeRun(t, Reject));
    var steps0 := steps + [ResumeRun(t, Reject)];
    var s0 := StateAfter(steps0).value;
    Works(s0, i, Go(now));
    LooksUpRun(s0.db, s0.workers[i], now);
    Continues(steps0, Act(i, Go(now)));
    var steps1 := steps0 + [Act(i, Go(now))];
    var s1 := StateAfter(steps1).value;
    Works(s1, i, Go(now));
    Rejecting(s1.db, s1.workers[i], now);
    Continues(steps1, Act(i, Go(now)));
    var steps2 := steps1 + [Act(i, Go(now))];
    var s2 := StateAfter(steps2).value;
    Works(s2, i, Go(now));
    ClosingCells(s2.db, s2.workers[i], now);
    Continues(steps2, Act(i, Go(now)));
    var steps3 := steps2 + [Act(i, Go(now))];
    var s3 := StateAfter(steps3).value;
    Works(s3, i, Go(now));
    ClosingCells(s3.db, s3.workers[i], now);
    Continues(steps3, Act(i, Go(now)));
    more := steps3 + [Act(i, Go(now))];
  }

  /** Main result: in every history, a rejection of a paused run that nothing disturbs ends the run as rejected,
  refuses and answers exactly its waiting cells, logs the end of the run above every number of the
  thread, and touches nothing else. */
  lemma {:induction false} RejectRoundEnds(steps: seq<Step>, t: ThreadId, now: int)
    requires StateAfter(steps).Some? && t < |StateAfter(steps).value.db.threads|
    requires PausedRun(StateAfter(steps).value.db, t).Some?
    ensures StateAfter(steps + RejectRound(t, |StateAfter(steps).value.workers|, now)).Some?
    ensures var s := StateAfter(steps).value;
            var later := StateAfter(steps + RejectRound(t, |s.workers|, now)).value;
            var r, q := PausedRun(s.db, t).value, s.db.threads[t].lastSeq + 1;
            && later.db.runs == s.db.runs[r := s.db.runs[r].(status := Rejected, endedAt := Some(now))]
            && later.db.threads == s.db.threads[t := s.db.threads[t].(lastSeq := q)]
            && later.db.events == s.db.events[(r, q) := RunDone] && later.db.citations == s.db.citations
            && TurnedDown(s.db, later.db, r)
            && |later.workers| > |s.workers| && later.workers[|s.workers|].pc.Gone?
  {
    hide StateAfter, PausedRun, TablesOk;
    var more, i := TurnsDown(steps, t, now);
    LastEvent(more, i, RunDone, now);
    assert more + Thrice(i, now) == steps + RejectRound(t, i, now);
  }

  // ---- an approval -------------------------------------------------------

  function ApproveRound(t: ThreadId, i: WorkerId, now: int): seq<Step> {
    [ResumeRun(t, Approve), Act(i, Go(now)), Act(i, Go(now)), Act(i, Go(now))]
  }

  lemma Approves(db: Db, w: Worker, now: int)
    requires TablesOk(db) && WorkerOk(db, w) && w.pc == ApproveCas(None) && db.runs[w.run].status.AwaitingApproval?
    ensures WorkerStep(db, w, Go(now)).worker == w.(pc := ApproveCells(None))
    ensures WorkerStep(db, w, Go(now)).db == db.(runs := db.runs[w.run := db.runs[w.run].(status := Running)])
  {
    hide TablesOk;
  }

  /** The waiting cells approved and still empty. */
  ghost predicate LetThrough(db: Db, later: Db, r: RunId) {
    |later.messages| == |db.messages|
    && forall k :: 0 <= k < |db.messages| ==>
         var m := db.messages[k];
         later.messages[k] == if m.run == r && m.role.Tool? && m.result.None? then m.(approval := Some(Approved)) else m
  }

  lemma ApprovesCells(db: Db, w: Worker, now: int)
    requires TablesOk(db) && WorkerOk(db, w) && w.pc == ApproveCells(None)
    ensures WorkerStep(db, w, Go(now)).worker == w.(pc := Loop)
    ensures var later := WorkerStep(db, w, Go(now)).db;
            later == db.(messages := later.messages) && LetThrough(db, later, w.run)
  {
    hide TablesOk;
  }

  /** Main result: in every history, an approval of a paused run that nothing disturbs sets the run running,
  approves exactly its waiting cells, which stay empty, touches nothing else, and drives the run. */
  lemma {:induction false} ApproveRoundDrives(steps: seq<Step>, t: ThreadId, now: int)
    requires StateAfter(steps).Some? && t < |StateAfter(steps).value.db.threads|
    requires PausedRun(StateAfter(steps).value.db, t).Some?
    ensures StateAfter(steps + ApproveRound(t, |StateAfter(steps).value.workers|, now)).Some?
    ensures var s := StateAfter(steps).value;
            var later := StateAfter(steps + ApproveRound(t, |s.workers|, now)).value;
            var r := PausedRun(s.db, t).value;
            && later.db == s.db.(messages := later.db.messages,
                runs := s.db.runs[r := s.db.runs[r].(status := Running)])
            && LetThrough(s.db, later.db, r)
            && later.workers == s.workers + [Fresh(r, t, Loop)]
  {
    hide StateAfter, NextState, CanStep, SystemOk, TablesOk, PausedRun, WorkerStep;
    var s := StateAfter(steps).value;
    var i := |s.workers|;
    AcceptsResume(s, t, Approve);
    Continues(steps, ResumeRun(t, Approve));
    var steps0 := steps + [ResumeRun(t, Approve)];
    var s0 := StateAfter(steps0).value;
    Works(s0, i, Go(now));
    LooksUpRun(s0.db, s0.workers[i], now);
    Continues(steps0, Act(i, Go(now)));
    var steps1 := steps0 + [Act(i, Go(now))];
    var s1 := StateAfter(steps1).value;
    Works(s1, i, Go(now));
    Approves(s1.db, s1.workers[i], now);
    Continues(steps1, Act(i, Go(now)));
    var steps2 := steps1 + [Act(i, Go(now))];
    var s2 := StateAfter(steps2).value;
    Works(s2, i, Go(now));
    ApprovesCells(s2.db, s2.workers[i], now);
    Continues(steps2, Act(i, Go(now)));
    assert steps2 + [Act(i, Go(now))] == steps + ApproveRound(t, i, now);
  }

  // ---- an answer ---------------------------------------------------------

  function FinishRound(i: WorkerId, cited: set<CitationId>, now: int): seq<Step> {
    [Act(i, Finish(cited)), Act(i, Go(now)), Act(i, Go(now)), Act(i, Go(now))]
    + Thrice(i, now)
  }

  lemma Finishes(db: Db, w: Worker, cited: set<CitationId>)
    requires TablesOk(db) && WorkerOk(db, w) && w.pc.Loop?
    ensures WorkerStep(db, w, Finish(cited)) == Outcome(db, w.(pc := Verify(cited)))
  {
    hide TablesOk;
  }

  lemma Verifies(db: Db, w: Worker, now: int)
    requires TablesOk(db) && WorkerOk(db, w) && w.pc.Verify?
    requires forall c :: c in w.pc.cited ==> c in w.frozen || (c in db.citations && Linked(db, w.thread, c))
    ensures WorkerStep(db, w, Go(now)) == Outcome(db, w.(pc := CommitCas(w.pc.cited)))
  {
    hide TablesOk, Linked, ThreadCitations;
    forall c | c in w.pc.cited && c !in w.frozen ensures c in ThreadCitations(db, w.thread) {
      ThreadCitationsAreLinked(db, w.thread, c);
    }
  }

  lemma Commits(db: Db, w: Worker, now: int)
    requires TablesOk(db) && WorkerOk(db, w) && w.pc.CommitCas? && db.runs[w.run].status.Running?
    requires w.pc.cited <= db.citations.Keys
    ensures var q := db.threads[w.thread].lastSeq + 1;
            && WorkerStep(db, w, Go(now)).worker == Yielded(w, MessageCompleted, q, ToRunDone)
            && WorkerStep(db, w, Go(now)).db ==
               db.(threads := db.threads[w.thread := db.threads[w.thread].(lastSeq := q)],
                   runs := db.runs[w.run := db.runs[w.run].(status := Completed, endedAt := Some(now))],
                   messages := db.messages + [Message(w.thread, w.run, q, Agent, "", None, None, None, w.pc.cited)])
  {
    hide TablesOk;
  }

  lemma LogsAnswer(db: Db, w: Worker, now: int)
    requires TablesOk(db) && WorkerOk(db, w) && w.pc.Log? && w.pc.next.ToRunDone?
              && (w.logRun, w.pc.seqNo) !in db.events
    ensures WorkerStep(db, w, Go(now)).worker == w.(pc := Draw(RunDone, ToPumpEnd))
    ensures WorkerStep(db, w, Go(now)).db == db.(events := db.events[(w.logRun, w.pc.seqNo) := w.pc.name])
  {
    hide TablesOk;
  }

  /** From the choice to the logged answer. */
  lemma AnswersRun(steps: seq<Step>, i: WorkerId, cited: set<CitationId>, now: int) returns (more: seq<Step>)
    requires StateAfter(steps).Some? && i < |StateAfter(steps).value.workers|
    requires CanFinish(StateAfter(steps).value, i, cited)
    ensures more == steps + [Act(i, Finish(cited)), Act(i, Go(now)), Act(i, Go(now)), Act(i, Go(now))]
    ensures StateAfter(more).Some?
    ensures var s, later := StateAfter(steps).value, StateAfter(more).value;
            var w, q := s.workers[i], s.db.threads[s.workers[i].thread].lastSeq + 1;
            && i < |later.workers| && later.workers[i].pc == Draw(RunDone, ToPumpEnd)
            && later.workers[i].thread == w.thread && later.workers[i].logRun == w.logRun
            && later.db == s.db.(
                 threads := s.db.threads[w.thread := s.db.threads[w.thread].(lastSeq := q)],
                 runs := s.db.runs[w.run := s.db.runs[w.run].(status := Completed, endedAt := Some(now))],
                 messages := s.db.messages + [Message(w.thread, w.run, q, Agent, "", None, None, None, cited)],
                 events := s.db.events[(w.logRun, q) := MessageCompleted])
  {
    hide StateAfter, NextState, CanStep, SystemOk, TablesOk, WorkerStep, Linked;
    var s := StateAfter(steps).value;
    AlwaysCites(steps);
    FrozenAreStored(s, i);
    Works(s, i, Finish(cited));
    Finishes(s.db, s.workers[i], cited);
    Continues(steps, Act(i, Finish(cited)));
    var steps0 := steps + [Act(i, Finish(cited))];
    var s0 := StateAfter(steps0).value;
    Works(s0, i, Go(now));
    Verifies(s0.db, s0.workers[i], now);
    Continues(steps0, Act(i, Go(now)));
    var steps1 := steps0 + [Act(i, Go(now))];
    var s1 := StateAfter(steps1).value;
    Works(s1, i, Go(now));
    Commits(s1.db, s1.workers[i], now);
    Continues(steps1, Act(i, Go(now)));
    var steps2 := steps1 + [Act(i, Go(now))];
    var s2 := StateAfter(steps2).value;
    NumbersNeverClash(steps2);
    Works(s2, i, Go(now));
    LogsAnswer(s2.db, s2.workers[i], now);
    Continues(steps2, Act(i, Go(now)));
    more := steps2 + [Act(i, Go(now))];
  }

  lemma FrozenAreStored(s: System, i: WorkerId)
    requires CitesOk(s) && i < |s.workers|
    ensures s.workers[i].frozen <= s.db.citations.Keys
  {
    assert WorkerCites(s, s.workers[i]);
  }

  /** The driver is in its loop, its run is running, and it or a message its thread sees has each cited id. */
  ghost predicate CanFinish(s: System, i: WorkerId, cited: set<CitationId>) {
    SystemOk(s) && i < |s.workers| && s.workers[i].pc.Loop? && s.db.runs[s.workers[i].run].status.Running?
    && var w := s.workers[i];
       forall c :: c in cited ==> c in w.frozen || (c in s.db.citations && Linked(s.db, w.thread, c))
  }

  /** Main result: in every history, finishing a running run with known ids, undisturbed, completes it, stores
  one answer with a link for each id, and logs the answer under its own number and the end of the run
  under the next. */
  lemma {:induction false} FinishRoundCompletes(steps: seq<Step>, i: WorkerId, cited: set<CitationId>, now: int)
    requires StateAfter(steps).Some? && CanFinish(StateAfter(steps).value, i, cited)
    ensures StateAfter(steps + FinishRound(i, cited, now)).Some?
    ensures var s, later := StateAfter(steps).value, StateAfter(steps + FinishRound(i, cited, now)).value;
            var w, q := s.workers[i], s.db.threads[s.workers[i].thread].lastSeq + 1;
            && later.db == s.db.(
                 threads := s.db.threads[w.thread := s.db.threads[w.thread].(lastSeq := q + 1)],
                 runs := s.db.runs[w.run := s.db.runs[w.run].(status := Completed, endedAt := Some(now))],
                 messages := s.db.messages + [Message(w.thread, w.run, q, Agent, "", None, None, None, cited)],
                 events := s.db.events[(w.logRun, q) := MessageCompleted][(w.logRun, q + 1) := RunDone])
            && i < |later.workers| && later.workers[i].pc.Gone?
  {
    hide StateAfter, TablesOk, CanStep, Linked;
    var more := AnswersRun(steps, i, cited, now);
    LastEvent(more, i, RunDone, now);
    assert more + Thrice(i, now) == steps + FinishRound(i, cited, now);
  }
}
