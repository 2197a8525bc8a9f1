/** The conversation repository: the tables as fields that each call updates in place. */
module Repository {
  import opened Store
  import opened Forks
  import opened Statements
  import opened Heartbeats
  import opened Runs

  datatype Added = Added(id: MessageId, seqNo: nat) | NoThread | NoCitation

  function Set<T(==)>(s: seq<T>): set<T> {
    set x | x in s
  }

  lemma SetGrows<T>(s: seq<T>, i: nat)
    requires i < |s|
    ensures Set(s[..i + 1]) == Set(s[..i]) + {s[i]} && Set(s[..i]) <= Set(s)
  {
    assert s[..i + 1] == s[..i] + [s[i]];
  }

  class ConversationRepository {
    var threads: seq<Thread>
    var runs: seq<Run>
    var messages: seq<Message>
    var citations: map<CitationId, string>
    var events: map<(RunId, nat), EventName>

    ghost function Contents(): Db
      reads this
    {
      Db(threads, runs, messages, citations, events)
    }

    ghost predicate Valid()
      reads this
    {
      TablesOk(Contents())
    }

    constructor ()
      ensures Valid() && Contents() == EMPTY
    {
      threads, runs, messages, citations, events := [], [], [], map[], map[];
    }

    // ---- threads -----------------------------------------------------------

    method CreateThread() returns (id: ThreadId)
      requires Valid()
      modifies this
      ensures Valid() && Follows(old(Contents()), Contents())
      ensures Contents() == Store.CreateThread(old(Contents())) && id == |old(threads)|
      ensures threads == old(threads) + [Thread(None, 0)]
    {
      CreateThreadKeeps(Contents());
      id := |threads|;
      threads := threads + [Thread(None, 0)];
    }

    /** None when there is no such thread. */
    method NextSeq(t: ThreadId) returns (seqNo: Option<nat>)
      requires Valid()
      modifies this
      ensures Valid() && Follows(old(Contents()), Contents())
      ensures seqNo.Some? <==> t < |old(threads)|
      ensures if seqNo.Some? then Contents() == Store.NextSeq(old(Contents()), t) && seqNo.value == threads[t].lastSeq
              else Contents() == old(Contents())
      ensures seqNo.Some? ==> |threads| == |old(threads)| && threads[t].lastSeq == old(threads)[t].lastSeq + 1
                              && forall u :: 0 <= u < |threads| && u != t ==> threads[u] == old(threads)[u]
    {
      hide TablesOk, Extends;
      if t >= |threads| {
        NothingFollows(Contents());
        return None;
      }
      NextSeqKeeps(Contents(), t);
      threads := threads[t := threads[t].(lastSeq := threads[t].lastSeq + 1)];
      seqNo := Some(threads[t].lastSeq);
    }

    /** None when the fork point is not a message of the parent's own. */
    method ForkThread(parent: ThreadId, point: MessageId) returns (id: Option<ThreadId>)
      requires Valid()
      modifies this
      ensures Valid() && Follows(old(Contents()), Contents())
      ensures id.Some? <==> Store.ForkThread(old(Contents()), parent, point).Some?
      ensures if id.Some? then Contents() == Store.ForkThread(old(Contents()), parent, point).value
                && id.value == |old(threads)|
              else Contents() == old(Contents())
      ensures id.Some? ==>
                point < |old(messages)| && old(messages)[point].thread == parent
                && threads == old(threads) + [Thread(Some(Fork(parent, point)), old(messages)[point].seqNo)]
    {
      if !(point < |messages| && messages[point].thread == parent) {
        NothingFollows(Contents());
        return None;
      }
      ForkKeepsTables(Contents(), parent, point);
      id := Some(|threads|);
      threads := threads + [Thread(Some(Fork(parent, point)), messages[point].seqNo)];
    }

    /** The recursive part of the query walks up the forks, cutting each ancestor where its child
    left it. */
    method WalkUp(t: ThreadId) returns (chain: seq<Link>)
      requires Valid() && t < |threads|
      ensures chain == Chain(Contents(), t, None)
    {
      hide TablesOk, Chain;
      ghost var db := Contents();
      chain := [];
      var at: nat, cut, more := t, None, true;
      while more
        invariant at < |threads| && (more ==> Chain(db, t, None) == chain + Chain(db, at, cut))
        invariant !more ==> Chain(db, t, None) == chain
        decreases at, more
      {
        AboutFork(at, cut, chain);
        chain := chain + [Link(at, cut)];
        if threads[at].fork.None? {
          more := false;
        } else {
          var f := threads[at].fork.value;
          cut := Some(messages[f.point].seqNo);
          at := f.parent;
        }
      }
    }

    /** The messages of the chain, in order of their numbers. */
    method GetThreadMessages(t: ThreadId) returns (ids: seq<MessageId>)
      requires Valid() && t < |threads|
      ensures ids == ThreadMessages(Contents(), t)
      ensures ids == History(Contents(), t) && Increasing(Contents(), ids)
    {
      hide TablesOk, History, OrderBySeq, Joined, Chain, Increasing;
      var chain := WalkUp(t);
      ids := OrderBySeq(Snapshot(), Joined(Snapshot(), chain));
      QueryIsHistory(Contents(), t);
      HistoryIncreasing(Contents(), t);
    }

    function Snapshot(): Db
      reads this
      ensures Snapshot() == Contents()
    {
      Db(threads, runs, messages, citations, events)
    }

    lemma AboutFork(t: ThreadId, cut: Option<nat>, before: seq<Link>)
      requires Valid() && t < |threads|
      ensures if threads[t].fork.None? then before + Chain(Contents(), t, cut) == before + [Link(t, cut)]
              else
                var f := threads[t].fork.value;
                && f.parent < t && f.point < |messages|
                && before + Chain(Contents(), t, cut)
                   == before + [Link(t, cut)] + Chain(Contents(), f.parent, Some(messages[f.point].seqNo))
    {
    }

    // ---- runs --------------------------------------------------------------

    /** None is the conflict with the thread's active run. */
    method OpenRun(t: ThreadId, now: int) returns (id: Option<RunId>)
      requires Valid() && t < |threads|
      modifies this
      ensures Valid() && Follows(old(Contents()), Contents())
      ensures id.Some? <==> Store.OpenRun(old(Contents()), t, now).Some?
      ensures if id.Some? then Contents() == Store.OpenRun(old(Contents()), t, now).value && id.value == |old(runs)|
              else Contents() == old(Contents())
      ensures id.Some? <==> forall q :: 0 <= q < |old(runs)| && old(runs)[q].thread == t ==>
                              !old(runs)[q].status.Running? && !old(runs)[q].status.AwaitingApproval?
      ensures id.Some? ==> runs == old(runs) + [Run(t, Running, None, now, now)]
    {
      if ActiveRun(Snapshot(), t).Some? {
        NothingFollows(Contents());
        return None;
      }
      OpenRunKeeps(Contents(), t, now);
      id := Some(|runs|);
      runs := runs + [Run(t, Running, None, now, now)];
    }

    method TryTransition(r: RunId, from: Status, to: Status, ended: bool, now: int) returns (won: bool)
      requires Valid() && r < |runs|
      modifies this
      ensures Valid() && Follows(old(Contents()), Contents())
      ensures Contents() == Store.TryTransition(old(Contents()), r, from, to, ended, now)
      ensures won == Wins(old(Contents()), r, from)
      ensures won <==> old(runs)[r].status == from
      ensures |runs| == |old(runs)| && forall q :: 0 <= q < |runs| && (q != r || !won) ==> runs[q] == old(runs)[q]
      ensures won ==> runs[r].status == to && runs[r].endedAt == (if ended then Some(now) else old(runs)[r].endedAt)
                      && runs[r].heartbeat == old(runs)[r].heartbeat && runs[r].startedAt == old(runs)[r].startedAt
                      && runs[r].thread == old(runs)[r].thread
    {
      TransitionFollows(Contents(), r, from, to, ended, now);
      won := runs[r].status == from;
      if won {
        runs := runs[r := runs[r].(status := to, endedAt := if ended then Some(now) else runs[r].endedAt)];
      }
    }

    /** The unguarded write; false is the violation of the index on active runs. */
    method SetRunStatus(r: RunId, to: Status, ended: bool, now: int) returns (ok: bool)
      requires Valid() && r < |runs|
      modifies this
      ensures Valid() && Follows(old(Contents()), Contents())
      ensures ok == Store.SetRunStatus(old(Contents()), r, to, ended, now).Some?
      ensures Contents() == if ok then Store.SetRunStatus(old(Contents()), r, to, ended, now).value else old(Contents())
      ensures ok <==>
                !Active(to)
                || forall q :: 0 <= q < |old(runs)| && q != r && old(runs)[q].thread == old(runs)[r].thread ==>
                     !Active(old(runs)[q].status)
      ensures ok ==>
                var row := old(runs)[r];
                runs == old(runs)[r := row.(status := to, endedAt := if ended then Some(now) else row.endedAt)]
    {
      hide TablesOk, Extends;
      NothingFollows(Contents());
      if Store.SetRunStatus(Contents(), r, to, ended, now).Some? { StatusFollows(Contents(), r, to, ended, now); }
      if Active(to) {
        for o := 0 to |runs|
          invariant forall q :: 0 <= q < o && q != r && runs[q].thread == runs[r].thread ==> !Active(runs[q].status)
        {
          if o != r && runs[o].thread == runs[r].thread && Active(runs[o].status) { return false; }
        }
      }
      runs := runs[r := runs[r].(status := to, endedAt := if ended then Some(now) else runs[r].endedAt)];
      ok := true;
    }

    /** The first part of a sweep: runs of one status whose start or heartbeat lies before the limit end
    in error, and their ids are returned. */
    method EndStaleRuns(from: Status, byStart: bool, limit: int, now: int) returns (swept: set<RunId>)
      modifies this`runs
      ensures |runs| == |old(runs)|
      ensures forall q: nat :: q in swept <==> q < |runs| && Stale(old(runs)[q], from, byStart, limit)
      ensures forall q: nat :: q < |runs| ==> runs[q] == if q in swept then WithStatus(old(runs)[q], Error, true, now)
                else old(runs)[q]
    {
      swept := {};
      for r := 0 to |runs|
        invariant |runs| == |old(runs)|
        invariant forall q: nat :: q in swept <==> q < r && Stale(old(runs)[q], from, byStart, limit)
        invariant forall q: nat :: q < r ==> runs[q] == if q in swept then WithStatus(old(runs)[q], Error, true, now)
                    else old(runs)[q]
        invariant forall q :: r <= q < |runs| ==> runs[q] == old(runs)[q]
      {
        if runs[r].status == from && (if byStart then runs[r].startedAt else runs[r].heartbeat) < limit {
          runs := runs[r := runs[r].(status := Error, endedAt := Some(now))];
          swept := swept + {r};
        }
      }
    }

    /** The second part: the unanswered cells of those runs get the marker. */
    method ResolveCellsOf(swept: set<RunId>)
      modifies this`messages
      ensures messages == Cells(old(messages), (m: Message) => if m.run in swept then Resolved(m, INTERRUPTED_TOOL)
                else m)
    {
      for i := 0 to |messages|
        invariant |messages| == |old(messages)|
        invariant forall k :: 0 <= k < i ==> messages[k] == if old(messages)[k].run in swept
                    then Resolved(old(messages)[k], INTERRUPTED_TOOL) else old(messages)[k]
        invariant forall k :: i <= k < |messages| ==> messages[k] == old(messages)[k]
      {
        if messages[i].role.Tool? && messages[i].result.None? && messages[i].run in swept {
          messages := messages[i := messages[i].(result := Some(INTERRUPTED_TOOL))];
        }
      }
    }

    /** The swept runs are ended in error and have no unanswered tool cell; nothing else is different. */
    ghost predicate SweptBy(runs0: seq<Run>, messages0: seq<Message>, swept: set<RunId>, now: int)
      reads this
    {
      && |runs| == |runs0| && |messages| == |messages0|
      && (forall q :: 0 <= q < |runs| ==>
            runs[q] == if q in swept then runs0[q].(status := Error, endedAt := Some(now)) else runs0[q])
      && forall k :: 0 <= k < |messages| ==>
           messages[k] == if messages0[k].run in swept && messages0[k].role.Tool? && messages0[k].result.None?
                          then messages0[k].(result := Some(INTERRUPTED_TOOL)) else messages0[k]
    }

    /** The sweep of silent runs, in one statement. */
    method ReconcileOrphanRuns(now: int, secs: int) returns (swept: set<RunId>)
      requires Valid()
      modifies this
      ensures Valid() && Follows(old(Contents()), Contents())
      ensures Contents() == Reconcile(old(Contents()), now, secs)
      ensures SweptBy(old(runs), old(messages), swept, now)
      ensures forall q: nat :: q in swept <==> q < |runs| && Stale(old(runs)[q], Running, false, now - secs)
    {
      hide TablesOk, Extends;
      ghost var db := Contents();
      SweepFollows(db, Running, StaleRuns(db, now, secs), INTERRUPTED_TOOL, {}, now);
      swept := EndStaleRuns(Running, false, now - secs, now);
      assert runs == Reconcile(db, now, secs).runs;
      ResolveCellsOf(swept);
      assert messages == Reconcile(db, now, secs).messages;
    }

    /** The sweep of waiting runs goes by the start of the run. */
    method TimeoutStaleApprovals(now: int, ttl: int) returns (swept: set<RunId>)
      requires Valid()
      modifies this
      ensures Valid() && Follows(old(Contents()), Contents())
      ensures Contents() == ExpireApprovals(old(Contents()), now, ttl)
      ensures SweptBy(old(runs), old(messages), swept, now)
      ensures forall q: nat :: q in swept <==> q < |runs| && Stale(old(runs)[q], AwaitingApproval, true, now - ttl)
    {
      hide TablesOk, Extends;
      ghost var db := Contents();
      SweepFollows(db, AwaitingApproval, OldRuns(db, now, ttl), INTERRUPTED_TOOL, {}, now);
      swept := EndStaleRuns(AwaitingApproval, true, now - ttl, now);
      assert runs == ExpireApprovals(db, now, ttl).runs;
      ResolveCellsOf(swept);
      assert messages == ExpireApprovals(db, now, ttl).messages;
    }

    method HeartbeatRuns(alive: set<RunId>, now: int)
      requires Valid()
      modifies this
      ensures Valid() && Follows(old(Contents()), Contents())
      ensures Contents() == Store.Heartbeat(old(Contents()), alive, now)
      ensures |runs| == |old(runs)| && forall q :: 0 <= q < |runs| ==>
                runs[q] == if q in alive && old(runs)[q].status.Running? then old(runs)[q].(heartbeat := now)
                           else old(runs)[q]
    {
      hide TablesOk, Extends;
      ghost var db := Contents();
      SweepFollows(db, Running, {}, INTERRUPTED_TOOL, alive, now);
      for r := 0 to |runs|
        invariant |runs| == |db.runs| && Contents() == db.(runs := runs)
        invariant forall q :: 0 <= q < r ==> runs[q] == Store.Heartbeat(db, alive, now).runs[q]
        invariant forall q :: r <= q < |runs| ==> runs[q] == db.runs[q]
      {
        if r in alive && runs[r].status.Running? {
          runs := runs[r := runs[r].(heartbeat := now)];
        }
      }
      assert runs == Store.Heartbeat(db, alive, now).runs;
    }

    // ---- messages ----------------------------------------------------------

    /** Inserting the links of a new cell; false when one of the ids was never frozen. */
    method LinkCitations(id: MessageId, ids: seq<CitationId>) returns (ok: bool)
      requires id < |messages| && messages[id].cites == {}
      modifies this`messages
      ensures ok <==> Set(ids) <= citations.Keys
      ensures ok ==> messages == old(messages)[id := old(messages)[id].(cites := Set(ids))]
    {
      assert Set(ids[..0]) == {};
      assert messages[id := messages[id].(cites := {})] == messages;
      for i := 0 to |ids|
        invariant id < |old(messages)| && messages == old(messages)[id := old(messages)[id].(cites := Set(ids[..i]))]
        invariant Set(ids[..i]) <= citations.Keys
      {
        SetGrows(ids, i);
        if ids[i] !in citations {
          assert ids[i] in Set(ids);
          return false;
        }
        messages := messages[id := messages[id].(cites := messages[id].cites + {ids[i]})];
      }
      assert ids[..|ids|] == ids;
      ok := true;
    }

    /** The number, the cell and its links in one transaction: on a failure all are rolled back. */
    method AddMessage(t: ThreadId, r: RunId, role: Role, content: string, callId: Option<string>, ids: seq<CitationId>)
      returns (out: Added)
      requires Valid() && r < |runs|
      modifies this
      ensures Valid() && Follows(old(Contents()), Contents())
      ensures out.NoThread? <==> t >= |old(threads)|
      ensures out.NoCitation? <==> t < |old(threads)| && !(Set(ids) <= old(citations).Keys)
      ensures if out.Added? then Contents() == Store.AddMessage(old(Contents()), t, r, role, content, callId, Set(ids))
                                 && out.id == |old(messages)| && out.seqNo == old(threads)[t].lastSeq + 1
              else Contents() == old(Contents())
      ensures out.Added? ==>
                messages == old(messages) + [Message(t, r, out.seqNo, role, content, callId, None, None, Set(ids))]
    {
      hide TablesOk, Extends;
      NothingFollows(Contents());
      if t >= |threads| { return NoThread; }
      var threads0, messages0 := threads, messages;
      AddMessageKeeps(Contents(), t, r, role, content, callId, Set(ids));
      threads := threads[t := threads[t].(lastSeq := threads[t].lastSeq + 1)];
      var seqNo := threads[t].lastSeq;
      messages := messages + [Message(t, r, seqNo, role, content, callId, None, None, {})];
      var linked := LinkCitations(|messages0|, ids);
      if !linked {
        threads, messages := threads0, messages0;
        return NoCitation;
      }
      assert messages == messages0 + [Message(t, r, seqNo, role, content, callId, None, None, Set(ids))];
      out := Added(|messages0|, seqNo);
    }

    /** The answer and the end of its run in one transaction. */
    method CommitAgentAnswer(t: ThreadId, r: RunId, content: string, ids: seq<CitationId>, now: int)
      returns (out: Commit)
      requires Valid() && t < |threads| && r < |runs|
      modifies this
      ensures Valid() && Follows(old(Contents()), Contents())
      ensures out == CommitAnswer(old(Contents()), t, r, content, Set(ids), now)
      ensures Contents() == if out.Committed? then out.db else old(Contents())
      ensures out.NotRunning? <==> !old(runs)[r].status.Running?
      ensures out.ForeignKeyViolation? <==> old(runs)[r].status.Running? && !(Set(ids) <= old(citations).Keys)
      ensures out.Committed? ==>
                && runs == old(runs)[r := old(runs)[r].(status := Completed, endedAt := Some(now))]
                && messages == old(messages)
                     + [Message(t, r, old(threads)[t].lastSeq + 1, Agent, content, None, None, None, Set(ids))]
    {
      ghost var db := Contents();
      NothingFollows(db);
      var runs0 := runs;
      if runs[r].status != Running { return NotRunning; }
      runs := runs[r := runs[r].(status := Completed, endedAt := Some(now))];
      TransitionFollows(db, r, Running, Completed, true, now);
      assert Contents() == Store.TryTransition(db, r, Running, Completed, true, now);
      var added := AddMessage(t, r, Agent, content, None, ids);
      if added.NoCitation? {
        runs := runs0;
        return ForeignKeyViolation;
      }
      CommitKeeps(db, t, r, content, Set(ids), now);
      out := Committed(Snapshot());
    }

    method SetToolResult(r: RunId, callId: string, result: string)
      requires Valid()
      modifies this
      ensures Valid() && Follows(old(Contents()), Contents())
      ensures Contents() == Store.SetToolResult(old(Contents()), r, callId, result)
      ensures |messages| == |old(messages)| && forall k :: 0 <= k < |messages| ==>
                var m := old(messages)[k];
                messages[k] == if m.run == r && m.callId == Some(callId) then m.(result := Some(result)) else m
    {
      hide TablesOk, Extends;
      ghost var db := Contents();
      ResultFollows(db, r, callId, result);
      for i := 0 to |messages|
        invariant |messages| == |db.messages| && Contents() == db.(messages := messages)
        invariant forall k :: 0 <= k < i ==> messages[k] == Store.SetToolResult(db, r, callId, result).messages[k]
        invariant forall k :: i <= k < |messages| ==> messages[k] == db.messages[k]
      {
        if messages[i].run == r && messages[i].callId == Some(callId) {
          messages := messages[i := messages[i].(result := Some(result))];
        }
      }
      assert messages == Store.SetToolResult(db, r, callId, result).messages;
    }

    /** Two statements in one transaction: first the rejected calls are refused and answered, so that
    the second, which approves what is still unanswered, leaves them out. */
    method MarkPartialApproval(r: RunId, rejected: set<string>, marker: string)
      requires Valid()
      modifies this
      ensures Valid() && Follows(old(Contents()), Contents())
      ensures Contents() == Store.MarkPartialApproval(old(Contents()), r, rejected, marker)
      ensures |messages| == |old(messages)| && forall k :: 0 <= k < |messages| ==>
                var m := old(messages)[k];
                messages[k] == if m.run == r && m.role.Tool? && m.callId.Some? && m.callId.value in rejected
                               then m.(approval := Some(Refused), result := Some(marker))
                               else if m.run == r && m.role.Tool? && m.result.None? then m.(approval := Some(Approved))
                               else m
    {
      hide TablesOk, Extends;
      ghost var db := Contents();
      PartialFollows(db, r, rejected, marker);
      if rejected != {} {
        for i := 0 to |messages|
          invariant |messages| == |db.messages| && Contents() == db.(messages := messages)
          invariant forall k :: 0 <= k < i ==> messages[k] == RefusedOnly(db.messages[k], r, rejected, marker)
          invariant forall k :: i <= k < |messages| ==> messages[k] == db.messages[k]
        {
          var m := messages[i];
          if m.run == r && m.role.Tool? && m.callId.Some? && m.callId.value in rejected {
            messages := messages[i := m.(approval := Some(Refused), result := Some(marker))];
          }
        }
      }
      for i := 0 to |messages|
        invariant |messages| == |db.messages| && Contents() == db.(messages := messages)
        invariant forall k :: 0 <= k < i ==> messages[k] == Classified(db.messages[k], r, rejected, marker)
        invariant forall k :: i <= k < |messages| ==> messages[k] == RefusedOnly(db.messages[k], r, rejected, marker)
      {
        if messages[i].run == r && messages[i].role.Tool? && messages[i].result.None? {
          messages := messages[i := messages[i].(approval := Some(Approved))];
        }
      }
      assert messages == Store.MarkPartialApproval(db, r, rejected, marker).messages;
    }

    method SetPendingApproval(r: RunId, state: Approval)
      requires Valid()
      modifies this
      ensures Valid() && Follows(old(Contents()), Contents())
      ensures Contents() == Store.SetPendingApproval(old(Contents()), r, state)
      ensures |messages| == |old(messages)| && forall k :: 0 <= k < |messages| ==>
                var m := old(messages)[k];
                messages[k] == if m.run == r && m.role.Tool? && m.result.None? then m.(approval := Some(state)) else m
    {
      hide TablesOk, Extends;
      ghost var db := Contents();
      ApprovalFollows(db, r, state);
      for i := 0 to |messages|
        invariant |messages| == |db.messages| && Contents() == db.(messages := messages)
        invariant forall k :: 0 <= k < i ==> messages[k] == Store.SetPendingApproval(db, r, state).messages[k]
        invariant forall k :: i <= k < |messages| ==> messages[k] == db.messages[k]
      {
        if messages[i].run == r && messages[i].role.Tool? && messages[i].result.None? {
          messages := messages[i := messages[i].(approval := Some(state))];
        }
      }
      assert messages == Store.SetPendingApproval(db, r, state).messages;
    }

    method ResolveOrphanToolCells(r: RunId, marker: string)
      requires Valid()
      modifies this
      ensures Valid() && Follows(old(Contents()), Contents())
      ensures Contents() == ResolveOrphans(old(Contents()), r, marker)
      ensures |messages| == |old(messages)| && forall k :: 0 <= k < |messages| ==>
                var m := old(messages)[k];
                messages[k] == if m.run == r && m.role.Tool? && m.result.None? then m.(result := Some(marker)) else m
    {
      hide TablesOk, Extends;
      ghost var db := Contents();
      OrphansFollow(db, r, marker);
      for i := 0 to |messages|
        invariant |messages| == |db.messages| && Contents() == db.(messages := messages)
        invariant forall k :: 0 <= k < i ==> messages[k] == ResolveOrphans(db, r, marker).messages[k]
        invariant forall k :: i <= k < |messages| ==> messages[k] == db.messages[k]
      {
        if messages[i].run == r && messages[i].role.Tool? && messages[i].result.None? {
          messages := messages[i := messages[i].(result := Some(marker))];
        }
      }
      assert messages == ResolveOrphans(db, r, marker).messages;
    }

    // ---- citations and events ----------------------------------------------

    method FreezeCitation(c: CitationId, snapshot: string)
      requires Valid()
      modifies this
      ensures Valid() && Follows(old(Contents()), Contents())
      ensures Contents() == Store.FreezeCitation(old(Contents()), c, snapshot)
      ensures citations == if c in old(citations) then old(citations) else old(citations)[c := snapshot]
    {
      FreezeFollows(Contents(), c, snapshot);
      if c !in citations { citations := citations[c := snapshot]; }
    }

    method AppendRunEvent(r: RunId, seqNo: nat, name: EventName)
      requires Valid()
      modifies this
      ensures Valid() && Follows(old(Contents()), Contents())
      ensures Contents() == AppendEvent(old(Contents()), r, seqNo, name)
      ensures events == if (r, seqNo) in old(events) then old(events) else old(events)[(r, seqNo) := name]
    {
      EventsFollow(Contents(), r, seqNo, name, {});
      if (r, seqNo) !in events { events := events[(r, seqNo) := name]; }
    }

    /** Drops the events of runs that ended more than `retention` ago. */
    method GcRunEvents(now: int, retention: int)
      requires Valid()
      modifies this
      ensures Valid() && Follows(old(Contents()), Contents())
      ensures Contents() == GcEvents(old(Contents()), LongEnded(old(Contents()), now, retention))
      ensures forall k :: k in events ==> k in old(events) && events[k] == old(events)[k]
      ensures forall k :: k in old(events) ==>
                (k !in events <==> k.0 < |runs| && runs[k.0].endedAt.Some? && now - runs[k.0].endedAt.value > retention)
    {
      hide TablesOk, Extends, AppendEvent;
      EventsFollow(Contents(), 0, 0, RunDone, LongEnded(Contents(), now, retention));
      var expired := set r: nat | r < |runs| && runs[r].endedAt.Some? && runs[r].endedAt.value < now - retention;
      events := map k | k in events && k.0 !in expired :: events[k];
      assert events == GcEvents(old(Contents()), LongEnded(old(Contents()), now, retention)).events;
    }
  }

  predicate Stale(run: Run, from: Status, byStart: bool, limit: int) {
    run.status == from && (if byStart then run.startedAt else run.heartbeat) < limit
  }

  function LongEnded(db: Db, now: int, retention: int): set<RunId> {
    set r: nat | r < |db.runs| && db.runs[r].endedAt.Some? && db.runs[r].endedAt.value < now - retention
  }

  /** What the first of the two statements makes of a cell. */
  function RefusedOnly(m: Message, r: RunId, rejected: set<string>, marker: string): Message {
    if m.run == r && m.role.Tool? && m.callId.Some? && m.callId.value in rejected
    then m.(approval := Some(Refused), result := Some(marker)) else m
  }
}
