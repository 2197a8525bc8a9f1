/** A selective approval touches the transcript's cells and the agent's checkpoint; the two agree
afterwards as they did at the pause. */
module SelectiveApproval {
  import opened Store
  import opened Runs
  import opened Checkpoint

  function CallIds(calls: seq<Call>): set<string> {
    set c | c in calls :: c.id
  }

  /** At the pause the unanswered cells of the run are the calls of the message that waits. */
  ghost predicate Agree(db: Db, r: RunId, ts: seq<Turn>) {
    Paused(ts) && PendingCalls(db, r) == CallIds(ts[|ts| - 1].calls) && WaitingHaveIds(db, r)
  }

  ghost predicate WaitingHaveIds(db: Db, r: RunId) {
    forall i :: 0 <= i < |db.messages| && db.messages[i].run == r && Unanswered(db.messages[i]) ==>
      db.messages[i].callId.Some?
  }

  /** Which calls of the run are still waiting, and how the others were settled. */
  ghost predicate Settled(db: Db, later: Db, r: RunId, chosen: set<string>) {
    && |later.messages| == |db.messages|
    && forall i :: 0 <= i < |db.messages| && db.messages[i].run == r && Unanswered(db.messages[i]) ==>
         var m, n := db.messages[i], later.messages[i];
         m.callId.Some?
         && n == if m.callId.value in chosen then m.(approval := Some(Approved))
                 else m.(approval := Some(Refused), result := Some(REJECTED_TOOL))
  }

  lemma ChosenAreKept(calls: seq<Call>, chosen: set<string>)
    requires chosen <= CallIds(calls)
    ensures CallIds(KeptCalls(calls, chosen)) == chosen
    ensures RejectedIds(calls, chosen) == CallIds(calls) - chosen
  {
    forall id | id in chosen ensures id in CallIds(KeptCalls(calls, chosen)) {
      var c :| c in calls && c.id == id;
      assert c in KeptCalls(calls, chosen);
    }
  }

  lemma MarkingSettles(db: Db, r: RunId, ts: seq<Turn>, chosen: set<string>)
    requires Agree(db, r, ts) && chosen <= PendingCalls(db, r)
    ensures var later := MarkPartialApproval(db, r, PendingCalls(db, r) - chosen, REJECTED_TOOL);
            Settled(db, later, r, chosen) && PendingCalls(later, r) == chosen && WaitingHaveIds(later, r)
  {
    var later := MarkPartialApproval(db, r, PendingCalls(db, r) - chosen, REJECTED_TOOL);
    forall i | 0 <= i < |db.messages| && db.messages[i].run == r && Unanswered(db.messages[i])
      ensures db.messages[i].callId.value in PendingCalls(db, r)
    {
    }
    forall id | id in chosen ensures id in PendingCalls(later, r) {
      var i :| 0 <= i < |db.messages| && db.messages[i].run == r && Unanswered(db.messages[i])
          && db.messages[i].callId == Some(id);
      assert Unanswered(later.messages[i]) && later.messages[i].callId == Some(id);
    }
    forall id | id in PendingCalls(later, r) ensures id in chosen {
      var i :| 0 <= i < |later.messages| && later.messages[i].run == r && Unanswered(later.messages[i])
          && later.messages[i].callId == Some(id);
      assert Unanswered(db.messages[i]);
    }
  }

  /** Cutting the message down and marking the cells by the same chosen ids keeps the agreement. */
  lemma {:induction false} StillAgrees(db: Db, r: RunId, ts: seq<Turn>, chosen: set<string>)
    requires Agree(db, r, ts) && chosen <= PendingCalls(db, r) && chosen != {}
    ensures ts != [] && ts[|ts| - 1].Reply?
    ensures var n := |ts| - 1;
            var calls := ts[n].calls;
            var kept := KeptCalls(calls, chosen);
            var later := MarkPartialApproval(db, r, RejectedIds(calls, chosen), REJECTED_TOOL);
            && LastCalls(ts) == Some(n) && kept != [] && RejectedIds(calls, chosen) == PendingCalls(db, r) - chosen
            && Agree(later, r, ts[n := Reply(ts[n].content, kept)])
            && Settled(db, later, r, chosen) && PendingCalls(later, r) == chosen == CallIds(kept)
  {
    LastCallsOfPaused(ts);
    SurgeryKeepsHistory(ts, chosen);
    ChosenAreKept(ts[|ts| - 1].calls, chosen);
    MarkingSettles(db, r, ts, chosen);
    hide Paused, Settled, PendingCalls, WaitingHaveIds, MarkPartialApproval, KeptCalls, RejectedIds, Valid, ResultsFor;
    var kept := KeptCalls(ts[|ts| - 1].calls, chosen);
    var id :| id in chosen;
    assert id in CallIds(kept);
  }

  /** The part of a selective resume after its claim: intersect the request with the pending calls,
  cut the waiting message down, and classify the cells. Without a valid id nothing is touched and
  the resume goes on as a rejection. Otherwise some call is kept, so the surgery never removes the
  message; the cells still empty are approved and are exactly the calls kept, and every other call
  that waited is refused with the marker. */
  method SelectiveResume(chk: ReActCheckpoint, db: Db, r: RunId, approvedIds: set<string>)
    returns (later: Db, claimed: bool)
    requires chk.Ok() && Agree(db, r, Turns(chk.messages))
    modifies chk
    ensures chk.Ok() && |chk.messages| == |old(chk.messages)|
    ensures claimed == (approvedIds * PendingCalls(db, r) != {})
    ensures !claimed ==> later == db && chk.messages == old(chk.messages)
    ensures claimed ==>
              var n, chosen := |chk.messages| - 1, approvedIds * PendingCalls(db, r);
              && Agree(later, r, Turns(chk.messages))
              && later == MarkPartialApproval(db, r, PendingCalls(db, r) - chosen, REJECTED_TOOL)
              && chk.messages[n].id == old(chk.messages)[n].id && chk.messages[..n] == old(chk.messages)[..n]
              && Settled(db, later, r, chosen)
              && PendingCalls(later, r) == chosen == CallIds(chk.messages[n].turn.calls)
  {
    hide *;
    var chosen := approvedIds * PendingCalls(db, r);
    later, claimed := db, false;
    if chosen == {} { return; }
    claimed := true;
    ghost var ts := Turns(chk.messages);
    StillAgrees(db, r, ts, chosen);
    ghost var n := |ts| - 1;
    var rejected := chk.ApprovePartial(chosen);
    assert Turns(chk.messages) == ts[n := Reply(ts[n].content, KeptCalls(ts[n].calls, chosen))];
    later := MarkPartialApproval(db, r, rejected, REJECTED_TOOL);
  }
}
