/** Reading a run's durable event log: the server's poll-and-tail stream, and the client's
filter on sequence numbers. */
module Tail {
  import opened Store

  datatype Row = Row(seqNo: int, name: EventName, data: string)

  /** The rows of one run, in the order of their numbers. */
  predicate Ordered(log: seq<Row>) {
    forall i, j :: 0 <= i < j < |log| ==> log[i].seqNo < log[j].seqNo
  }

  /** The rows with a number above the cursor. */
  function After(log: seq<Row>, cursor: int): seq<Row> {
    if log == [] then []
    else (if log[0].seqNo > cursor then [log[0]] else []) + After(log[1..], cursor)
  }

  /** One bounded query. */
  function Batch(log: seq<Row>, cursor: int, limit: nat): seq<Row> {
    var rows := After(log, cursor);
    if |rows| <= limit then rows else rows[..limit]
  }

  /** The rows up to and including the first terminal one. */
  function UpToTerminal(rows: seq<Row>): seq<Row> {
    if rows == [] then []
    else if Terminal(rows[0].name) then [rows[0]]
    else [rows[0]] + UpToTerminal(rows[1..])
  }

  predicate NoTerminal(rows: seq<Row>) {
    forall i :: 0 <= i < |rows| ==> !Terminal(rows[i].name)
  }

  /** How many rows the cursor has passed. */
  function Passed(log: seq<Row>, cursor: int): (k: nat)
    ensures k <= |log|
  {
    if log == [] || log[0].seqNo > cursor then 0 else 1 + Passed(log[1..], cursor)
  }

  lemma {:induction false} PassedBounds(log: seq<Row>, cursor: int)
    requires Ordered(log)
    ensures forall i :: 0 <= i < |log| ==> (log[i].seqNo <= cursor <==> i < Passed(log, cursor))
  {
    if log != [] {
      PassedBounds(log[1..], cursor);
      forall i | 0 <= i < |log| ensures log[i].seqNo <= cursor <==> i < Passed(log, cursor) {
        if i > 0 { assert log[i] == log[1..][i - 1]; }
      }
    }
  }

  lemma {:induction false} AfterAll(log: seq<Row>, cursor: int)
    requires forall i :: 0 <= i < |log| ==> log[i].seqNo > cursor
    ensures After(log, cursor) == log
  {
    if log != [] { AfterAll(log[1..], cursor); }
  }

  lemma {:induction false} AfterIsRest(log: seq<Row>, cursor: int)
    requires Ordered(log)
    ensures After(log, cursor) == log[Passed(log, cursor)..]
  {
    if log != [] {
      if log[0].seqNo > cursor {
        AfterAll(log, cursor);
      } else {
        AfterIsRest(log[1..], cursor);
      }
    }
  }

  lemma PassedUnique(log: seq<Row>, cursor: int, k: nat)
    requires Ordered(log) && k <= |log|
    requires forall i :: 0 <= i < |log| ==> (log[i].seqNo <= cursor <==> i < k)
    ensures Passed(log, cursor) == k
  {
    PassedBounds(log, cursor);
    var p := Passed(log, cursor);
    assert p < |log| ==> (log[p].seqNo <= cursor <==> p < k);
    assert k < |log| ==> (log[k].seqNo <= cursor <==> k < p);
  }

  /** The rows after the cursor among the visible ones. */
  lemma VisibleRest(log: seq<Row>, visible: nat, cursor: int)
    requires Ordered(log) && visible <= |log|
    ensures var k := Passed(log, cursor);
            After(log[..visible], cursor) == if k >= visible then [] else log[k..visible]
  {
    var k := Passed(log, cursor);
    PassedBounds(log, cursor);
    var j := if k < visible then k else visible;
    PassedUnique(log[..visible], cursor, j);
    AfterIsRest(log[..visible], cursor);
  }

  /** What a query sees while only the first `visible` rows have been appended. */
  lemma BatchIsSlice(log: seq<Row>, visible: nat, cursor: int, limit: nat)
    requires Ordered(log) && visible <= |log|
    ensures var k := Passed(log, cursor);
            Batch(log[..visible], cursor, limit) ==
            if k >= visible then [] else log[k..if visible <= k + limit then visible else k + limit]
  {
    hide After, Passed, Ordered;
    VisibleRest(log, visible, cursor);
  }

  lemma {:induction false} UpToTerminalAppend(a: seq<Row>, b: seq<Row>)
    requires NoTerminal(a)
    ensures UpToTerminal(a + b) == a + UpToTerminal(b)
  {
    if a == [] {
      assert a + b == b;
    } else {
      assert (a + b)[1..] == a[1..] + b;
      UpToTerminalAppend(a[1..], b);
    }
  }

  // ---- the stream --------------------------------------------------------

  /** One turn of the stream: how much of the log the query sees, and the status of the run when
  it is looked up after an empty batch (None when the run is gone). */
  datatype Poll = Poll(visible: nat, status: Option<Status>)

  /** The log is appended in order, so each poll sees at least what the one before saw. */
  predicate Growing(log: seq<Row>, polls: seq<Poll>) {
    && (forall i :: 0 <= i < |polls| ==> polls[i].visible <= |log|)
    && (forall i, j :: 0 <= i < j < |polls| ==> polls[i].visible <= polls[j].visible)
  }

  /** How a stream ends: on a logged terminal event, on an event made from the run's status, or
  not yet, when the client leaves first. */
  datatype End = Open | Logged | FromStatus(status: Status, row: Row)

  /** The event that reports a status which no logged event reported. */
  function StatusEvent(status: Status, seqNo: int): Row {
    Row(seqNo, if status.Error? then ErrorEvent else RunDone, "")
  }

  /** The poll sees that the run has ended. */
  predicate SeesEnd(poll: Poll) {
    poll.status.Some? && Ended(poll.status.value)
  }

  /** Every poll from `k` on sees a terminal row after the cursor or that the run has ended; the log and
  the status may still change. */
  predicate FinalFrom(log: seq<Row>, polls: seq<Poll>, lastEventId: int, k: nat) {
    forall i :: k <= i < |polls| ==>
      && polls[i].visible <= |log|
      && (SeesEnd(polls[i]) || !NoTerminal(After(log[..polls[i].visible], lastEventId)))
  }

  /** How far a reader has come that takes up to `limit` of the visible rows at every poll. */
  function Reached(polls: seq<Poll>, start: nat, limit: nat): (n: nat)
    ensures n >= start
  {
    if polls == [] then start
    else
      var before, visible := Reached(polls[..|polls| - 1], start, limit), polls[|polls| - 1].visible;
      if visible <= before then before else if visible <= before + limit then visible else before + limit
  }

  /** Delivers a batch, up to and including its first terminal row. */
  method Deliver(rows: seq<Row>, start: int) returns (sent: seq<Row>, cursor: int, ended: bool)
    ensures sent == UpToTerminal(rows)
    ensures ended == !NoTerminal(rows) && (!ended ==> sent == rows) && (ended ==> sent != [])
    ensures ended ==> Terminal(sent[|sent| - 1].name) && NoTerminal(sent[..|sent| - 1])
    ensures cursor == if sent == [] then start else sent[|sent| - 1].seqNo
  {
    sent, cursor, ended := [], start, false;
    for n := 0 to |rows|
      invariant sent == rows[..n] && NoTerminal(sent)
      invariant cursor == if sent == [] then start else sent[|sent| - 1].seqNo
    {
      UpToTerminalAppend(rows[..n], rows[n..]);
      assert rows == rows[..n] + rows[n..];
      sent, cursor := sent + [rows[n]], rows[n].seqNo;
      if Terminal(rows[n].name) { return sent, cursor, true; }
    }
    UpToTerminalAppend(rows, []);
    assert rows + [] == rows;
  }

  /** The part of the log that a stream has delivered, and the cursor it left. */
  ghost predicate Delivered(log: seq<Row>, start: nat, lastEventId: int, out: seq<Row>, cursor: int)
    requires Ordered(log)
  {
    && start + |out| <= |log| && out == log[start..start + |out|]
    && Passed(log, cursor) == start + |out|
    && cursor == if out == [] then lastEventId else out[|out| - 1].seqNo
  }

  /** Delivering the next slice of the log moves the cursor behind it. */
  lemma DeliveredMore(log: seq<Row>, start: nat, lastEventId: int, out: seq<Row>, cursor: int, m: nat)
    requires Ordered(log) && Delivered(log, start, lastEventId, out, cursor) && start + |out| < m <= |log|
    ensures Delivered(log, start, lastEventId, out + log[start + |out|..m], log[m - 1].seqNo)
  {
    var more := out + log[start + |out|..m];
    assert more == log[start..m] && more[|more| - 1] == log[m - 1];
    PassedUnique(log, log[m - 1].seqNo, m);
  }

  /** The delivered rows followed by what the end of the stream sends are the rows up to the terminal one. */
  lemma EndsAtTerminal(whole: seq<Row>, out: seq<Row>, rows: seq<Row>)
    requires |out| + |rows| <= |whole| && out == whole[..|out|] && rows == whole[|out|..|out| + |rows|]
    requires NoTerminal(out) && !NoTerminal(rows)
    ensures out + UpToTerminal(rows) == UpToTerminal(whole)
    ensures out + UpToTerminal(rows) <= whole
  {
    var rest := whole[|out| + |rows|..];
    assert whole == out + (rows + rest);
    UpToTerminalAppend(out, rows + rest);
    StopsEarly(rows, rest);
    hide UpToTerminal, NoTerminal;
  }

  lemma {:induction false} StopsEarly(a: seq<Row>, b: seq<Row>)
    requires !NoTerminal(a)
    ensures UpToTerminal(a + b) == UpToTerminal(a) <= a
  {
    assert (a + b)[1..] == a[1..] + b;
    if !Terminal(a[0].name) {
      var i :| 0 <= i < |a| && Terminal(a[i].name);
      assert a[1..][i - 1] == a[i];
      StopsEarly(a[1..], b);
    }
  }

  /** After `turn` polls: what has been delivered, and how far a final log has been read. */
  ghost predicate Reading(log: seq<Row>, polls: seq<Poll>, turn: nat, start: nat, lastEventId: int, out: seq<Row>,
                          cursor: int, limit: nat)
    requires Ordered(log) && turn <= |polls|
  {
    && Delivered(log, start, lastEventId, out, cursor) && NoTerminal(out)
    && start + |out| == Reached(polls[..turn], start, limit)
    && (forall k: nat :: k < turn && FinalFrom(log, polls, lastEventId, k) ==> turn - k <= start + |out|)
  }

  /** What a stream may have sent when it ended. */
  ghost predicate EndOk(log: seq<Row>, lastEventId: int, out: seq<Row>, end: End) {
    && out <= After(log, lastEventId)
    && (end.Logged? ==> out == UpToTerminal(After(log, lastEventId)) && out != [] && Terminal(out[|out| - 1].name))
    && (!end.Logged? ==> NoTerminal(out))
    && (end.FromStatus? ==>
          Ended(end.status)
          && end.row == StatusEvent(end.status, (if out == [] then lastEventId else out[|out| - 1].seqNo) + 1))
  }

  /** The poll at which a stream ended on a status: it sees that status, and of the log no more than has
  been delivered by then. */
  ghost predicate StatusPoll(polls: seq<Poll>, i: nat, start: nat, sent: nat, status: Status, limit: nat) {
    && i < |polls| && polls[i].status == Some(status)
    && polls[i].visible <= start + sent == Reached(polls[..i], start, limit)
  }

  /** One turn of the stream: a batch is delivered, and without one the status is looked up. */
  method Turn(log: seq<Row>, polls: seq<Poll>, turn: nat, ghost start: nat, ghost lastEventId: int, before: seq<Row>,
              at: int, limit: nat) returns (out: seq<Row>, cursor: int, end: End)
    requires Ordered(log) && Growing(log, polls) && turn < |polls| && limit > 0
    requires start == Passed(log, lastEventId) && Reading(log, polls, turn, start, lastEventId, before, at, limit)
    ensures end.Open? ==> Reading(log, polls, turn + 1, start, lastEventId, out, cursor, limit)
    ensures !end.Open? ==> EndOk(log, lastEventId, out, end)
    ensures end.FromStatus? ==> StatusPoll(polls, turn, start, |out|, end.status, limit)
  {
    hide Ordered, FinalFrom, NoTerminal, UpToTerminal, Passed, After, Batch, EndOk;
    out, cursor, end := before, at, Open;
    var rows := Batch(log[..polls[turn].visible], cursor, limit);
    NextBatch(log, polls, turn, start, lastEventId, before, at, limit);
    if rows == [] && polls[turn].status.Some? && Ended(polls[turn].status.value) {
      end := FromStatus(polls[turn].status.value, StatusEvent(polls[turn].status.value, cursor + 1));
      EndsOnStatus(log, start, lastEventId, before, at, polls[turn].status.value);
      return;
    }
    var sent, next, ended := Deliver(rows, cursor);
    out, cursor := before + sent, next;
    if ended {
      EndsOnEvent(log, start, lastEventId, before, at, rows);
      end := Logged;
    } else {
      ReachedNext(polls, turn, start, limit);
      GoesOn(log, polls, turn, start, lastEventId, before, at, rows, limit);
    }
  }

  lemma ReachedNext(polls: seq<Poll>, turn: nat, start: nat, limit: nat)
    requires turn < |polls|
    ensures var before, visible := Reached(polls[..turn], start, limit), polls[turn].visible;
            Reached(polls[..turn + 1], start, limit) ==
            if visible <= before then before else if visible <= before + limit then visible else before + limit
  {
    assert polls[..turn + 1][..turn] == polls[..turn];
  }

  lemma EndsOnStatus(log: seq<Row>, start: nat, lastEventId: int, out: seq<Row>, cursor: int, status: Status)
    requires Ordered(log) && start == Passed(log, lastEventId) && Ended(status)
    requires Delivered(log, start, lastEventId, out, cursor) && NoTerminal(out)
    ensures EndOk(log, lastEventId, out, FromStatus(status, StatusEvent(status, cursor + 1)))
  {
    AfterIsRest(log, lastEventId);
  }

  lemma EndsOnEvent(log: seq<Row>, start: nat, lastEventId: int, out: seq<Row>, cursor: int, rows: seq<Row>)
    requires Ordered(log) && start == Passed(log, lastEventId) && Delivered(log, start, lastEventId, out, cursor)
    requires start + |out| + |rows| <= |log| && rows == log[start + |out|..start + |out| + |rows|]
    requires NoTerminal(out) && !NoTerminal(rows)
    requires UpToTerminal(rows) != [] && Terminal(UpToTerminal(rows)[|UpToTerminal(rows)| - 1].name)
    ensures EndOk(log, lastEventId, out + UpToTerminal(rows), Logged)
  {
    hide Passed, After, Ordered, Terminal, NoTerminal, UpToTerminal, EndOk;
    AfterIsRest(log, lastEventId);
    EndsInRest(log, lastEventId, log[start..], out, rows);
  }

  lemma EndsInRest(log: seq<Row>, lastEventId: int, whole: seq<Row>, out: seq<Row>, rows: seq<Row>)
    requires After(log, lastEventId) == whole && |out| + |rows| <= |whole|
    requires out == whole[..|out|] && rows == whole[|out|..|out| + |rows|] && NoTerminal(out) && !NoTerminal(rows)
    requires UpToTerminal(rows) != [] && Terminal(UpToTerminal(rows)[|UpToTerminal(rows)| - 1].name)
    ensures EndOk(log, lastEventId, out + UpToTerminal(rows), Logged)
  {
    hide After, Terminal, NoTerminal, UpToTerminal;
    EndsAtTerminal(whole, out, rows);
  }

  lemma GoesOn(log: seq<Row>, polls: seq<Poll>, turn: nat, start: nat, lastEventId: int, out: seq<Row>, cursor: int,
               rows: seq<Row>, limit: nat)
    requires Ordered(log) && turn < |polls| && Reading(log, polls, turn, start, lastEventId, out, cursor, limit)
    requires start + |out| + |rows| == Reached(polls[..turn + 1], start, limit)
    requires start + |out| + |rows| <= |log| && rows == log[start + |out|..start + |out| + |rows|] && NoTerminal(rows)
    requires start == Passed(log, lastEventId)
    requires rows == [] ==> !SeesEnd(polls[turn]) && polls[turn].visible <= start + |out|
    ensures var next := if rows == [] then cursor else rows[|rows| - 1].seqNo;
            Reading(log, polls, turn + 1, start, lastEventId, out + rows, next, limit)
  {
    NoTerminalAppend(out, rows);
    forall k: nat | k <= turn && FinalFrom(log, polls, lastEventId, k) ensures rows != [] {
      NotExhausted(log, polls, k, turn, start, lastEventId, out, rows);
    }
    if rows == [] {
      assert out + rows == out;
    } else {
      DeliveredMore(log, start, lastEventId, out, cursor, start + |out| + |rows|);
    }
    hide Delivered, Ordered, NoTerminal, FinalFrom;
  }

  /** The stream delivers exactly the rows after the cursor, once each and in order, up to the
  terminal one; an end made from the status carries the status of a poll that saw nothing undelivered,
  and follows rows without a terminal one. Once the run has
  ended or a terminal row after the cursor is in the log, as many polls as there are rows and one
  more are enough. A stream that is still open has delivered all that its polls let it. */
  method Stream(log: seq<Row>, polls: seq<Poll>, lastEventId: int, limit: nat) returns (out: seq<Row>, end: End)
    requires Ordered(log) && Growing(log, polls) && limit > 0
    ensures out <= After(log, lastEventId)
    ensures end.Logged? ==> out == UpToTerminal(After(log, lastEventId)) && out != [] && Terminal(out[|out| - 1].name)
    ensures !end.Logged? ==> NoTerminal(out)
    ensures end.FromStatus? ==>
              exists i: nat :: StatusPoll(polls, i, Passed(log, lastEventId), |out|, end.status, limit)
    ensures end.FromStatus? ==>
              && end.row.name == (if end.status.Error? then ErrorEvent else RunDone)
              && end.row.seqNo == 1 + if out == [] then lastEventId else out[|out| - 1].seqNo
    ensures end.Open? ==> Passed(log, lastEventId) + |out| == Reached(polls, Passed(log, lastEventId), limit)
    ensures end.FromStatus? ==> Ended(end.status)
                                && end.row == StatusEvent(end.status,
                                    (if out == [] then lastEventId else out[|out| - 1].seqNo) + 1)
    ensures forall k: nat :: k + |log| < |polls| && FinalFrom(log, polls, lastEventId, k) ==> !end.Open?
  {
    out, end := [], Open;
    var cursor := lastEventId;
    ghost var start := Passed(log, lastEventId);
    var turn := 0;
    while turn < |polls|
      invariant 0 <= turn <= |polls|
      invariant end.Open? && Reading(log, polls, turn, start, lastEventId, out, cursor, limit)
    {
      hide Reading, Ordered, Growing, FinalFrom, StatusPoll, Reached;
      out, cursor, end := Turn(log, polls, turn, start, lastEventId, out, cursor, limit);
      if !end.Open? { return; }
      turn := turn + 1;
    }
    assert polls[..|polls|] == polls;
    AfterIsRest(log, lastEventId);
    DeliveredIsPrefix(log, start, lastEventId, out, cursor);
  }

  /** A final log is not exhausted by what has no terminal row, unless the run is seen to have ended. */
  lemma NotExhausted(log: seq<Row>, polls: seq<Poll>, k: nat, turn: nat, start: nat, lastEventId: int, out: seq<Row>,
                     rows: seq<Row>)
    requires Ordered(log) && k <= turn < |polls| && FinalFrom(log, polls, lastEventId, k)
    requires start == Passed(log, lastEventId) && start + |out| <= |log| && out == log[start..start + |out|]
              && NoTerminal(out)
    requires rows == [] ==> !SeesEnd(polls[turn]) && polls[turn].visible <= start + |out|
    ensures rows != []
  {
    hide Ordered, Passed, After;
    var visible := polls[turn].visible;
    VisibleRest(log, visible, lastEventId);
    assert start <= visible <= start + |out| ==> log[start..visible] == out[..visible - start];
  }

  lemma NoTerminalAppend(a: seq<Row>, b: seq<Row>)
    requires NoTerminal(a) && NoTerminal(b)
    ensures NoTerminal(a + b)
  {
  }

  lemma DeliveredIsPrefix(log: seq<Row>, start: nat, lastEventId: int, out: seq<Row>, cursor: int)
    requires Ordered(log) && Delivered(log, start, lastEventId, out, cursor)
    ensures start + |out| <= |log| && out <= log[start..]
    ensures cursor == if out == [] then lastEventId else out[|out| - 1].seqNo
  {
  }

  /** The next batch continues what was delivered; it is empty only when the poll sees no more. */
  lemma NextBatch(log: seq<Row>, polls: seq<Poll>, turn: nat, start: nat, lastEventId: int, out: seq<Row>, cursor: int,
                  limit: nat)
    requires Ordered(log) && Growing(log, polls) && turn < |polls| && limit > 0
    requires Delivered(log, start, lastEventId, out, cursor)
    ensures polls[turn].visible <= |log|
    ensures var rows, k := Batch(log[..polls[turn].visible], cursor, limit), start + |out|;
            && k + |rows| <= |log| && out == log[start..k] && rows == log[k..k + |rows|]
            && (rows == [] ==> polls[turn].visible <= k)
            && k + |rows| == (if polls[turn].visible <= k then k
                              else if polls[turn].visible <= k + limit then polls[turn].visible else k + limit)
            && (rows != [] ==> rows[|rows| - 1] == log[k + |rows| - 1])
            && out == log[start..][..|out|] && rows == log[start..][|out|..|out| + |rows|]
    ensures cursor == if out == [] then lastEventId else out[|out| - 1].seqNo
  {
    hide Batch, After, Ordered, NoTerminal;
    BatchIsSlice(log, polls[turn].visible, cursor, limit);
    var rows, k := Batch(log[..polls[turn].visible], cursor, limit), start + |out|;
    assert rows == log[k..k + |rows|];
    SlicesOfRest(log, start, k, k + |rows|);
  }

  lemma SlicesOfRest(log: seq<Row>, start: nat, k: nat, m: nat)
    requires start <= k <= m <= |log|
    ensures log[start..k] == log[start..][..k - start] && log[k..m] == log[start..][k - start..m - start]
  {
  }

  /** A stream that reconnects at the last delivered number goes on where it stopped: together the
  two deliver what one would have delivered. */
  lemma ReconnectComposes(log: seq<Row>, lastEventId: int, out: seq<Row>)
    requires Ordered(log) && out <= After(log, lastEventId) && out != [] && NoTerminal(out)
    ensures out + After(log, out[|out| - 1].seqNo) == After(log, lastEventId)
    ensures out + UpToTerminal(After(log, out[|out| - 1].seqNo)) == UpToTerminal(After(log, lastEventId))
  {
    AfterIsRest(log, lastEventId);
    PassedBounds(log, lastEventId);
    var start := Passed(log, lastEventId);
    var k := start + |out|;
    var cursor := out[|out| - 1].seqNo;
    assert cursor == log[k - 1].seqNo;
    PassedUnique(log, cursor, k);
    AfterIsRest(log, cursor);
    assert log[start..] == out + log[k..];
    UpToTerminalAppend(out, log[k..]);
  }

  // ---- the client --------------------------------------------------------

  /** How often a session's next event arrives. */
  function Turns(schedule: seq<nat>, session: nat): nat {
    if schedule == [] then 0
    else Turns(schedule[..|schedule| - 1], session) + if schedule[|schedule| - 1] == session then 1 else 0
  }

  function Least(a: nat, b: nat): nat {
    if a < b then a else b
  }

  class SseClient {
    var maxSeq: int

    constructor ()
      ensures maxSeq == -1
    {
      maxSeq := -1;
    }

    /** The filter shared by all stream sessions of a thread. */
    method Receive(seqNo: int) returns (accepted: bool)
      modifies this
      ensures accepted == (seqNo > old(maxSeq))
      ensures maxSeq == if accepted then seqNo else old(maxSeq)
    {
      if seqNo <= maxSeq { return false; }
      maxSeq := seqNo;
      return true;
    }

    /** Any number of sessions replay the log from its start, in any interleaving; `schedule` says
    whose next event arrives. Together they accept every event that any of them has received,
    exactly once and in the order of the log. */
    method Sessions(log: seq<Row>, count: nat, schedule: seq<nat>) returns (accepted: seq<Row>, at: array<nat>)
      requires Ordered(log) && forall i :: 0 <= i < |log| ==> log[i].seqNo > maxSeq
      requires forall n :: 0 <= n < |schedule| ==> schedule[n] < count
      modifies this
      ensures fresh(at) && at.Length == count
      ensures accepted <= log
      ensures forall s :: 0 <= s < count ==> at[s] == Least(Turns(schedule, s), |log|)
      ensures forall s :: 0 <= s < count ==> at[s] <= |accepted|
      ensures accepted == [] || exists s :: 0 <= s < count && at[s] == |accepted|
    {
      accepted := [];
      at := new nat[count](_ => 0);
      ghost var first, leader := maxSeq, 0;
      for n := 0 to |schedule|
        invariant forall s :: 0 <= s < count ==> at[s] <= |accepted|
        invariant forall s :: 0 <= s < count ==> at[s] == Least(Turns(schedule[..n], s), |log|)
        invariant accepted <= log
        invariant accepted == [] || (leader < count && at[leader] == |accepted|)
        invariant maxSeq == if accepted == [] then first else accepted[|accepted| - 1].seqNo
      {
        var s := schedule[n];
        assert schedule[..n + 1][..n] == schedule[..n] && schedule[..n + 1][n] == s;
        if at[s] < |log| {
          var row := log[at[s]];
          at[s] := at[s] + 1;
          var accepts := Receive(row.seqNo);
          if accepts {
            accepted, leader := accepted + [row], s;
          }
        }
      }
      assert schedule[..|schedule|] == schedule;
    }
  }
}
