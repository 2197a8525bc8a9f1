/** The agent's chat checkpoint and the surgery done on it after a rejection, a selective
approval or a cancelled turn. */
module Checkpoint {
  import opened Store

  datatype Call = Call(id: string, name: string)

  /** What a message says, without its id. */
  datatype Turn =
    | Ask(content: string)
    | Reply(content: string, calls: seq<Call>)
    | Result(callId: string, content: string)

  datatype Msg = Msg(id: nat, turn: Turn)

  predicate Calls(t: Turn) {
    t.Reply? && t.calls != []
  }

  /** A reply without tool calls: a finished answer. */
  predicate Plain(t: Turn) {
    t.Reply? && t.calls == []
  }

  function Turns(ms: seq<Msg>): (ts: seq<Turn>)
    ensures |ts| == |ms| && forall i :: 0 <= i < |ms| ==> ts[i] == ms[i].turn
  {
    seq(|ms|, i requires 0 <= i < |ms| => ms[i].turn)
  }

  predicate DistinctIds(ms: seq<Msg>) {
    forall i, j :: 0 <= i < j < |ms| ==> ms[i].id != ms[j].id
  }

  // ---- valid histories ---------------------------------------------------

  predicate AnsweredAfter(ts: seq<Turn>, i: nat, id: string) {
    exists j :: i < j < |ts| && ts[j].Result? && ts[j].callId == id
  }

  predicate CalledBefore(ts: seq<Turn>, j: nat)
    requires j < |ts| && ts[j].Result?
  {
    exists i, c :: 0 <= i < j && ts[i].Reply? && c in ts[i].calls && c.id == ts[j].callId
  }

  /** No tool call is left dangling and no tool result is an orphan. */
  ghost predicate Valid(ts: seq<Turn>) {
    && (forall i, c :: 0 <= i < |ts| && ts[i].Reply? && c in ts[i].calls ==> AnsweredAfter(ts, i, c.id))
    && (forall j :: 0 <= j < |ts| && ts[j].Result? ==> CalledBefore(ts, j))
  }

  /** Paused for approval: a valid history, then one message whose calls wait. */
  ghost predicate Paused(ts: seq<Turn>) {
    ts != [] && Calls(ts[|ts| - 1]) && Valid(ts[..|ts| - 1])
  }

  lemma PlainIsValid(ts: seq<Turn>)
    requires forall i :: 0 <= i < |ts| ==> ts[i].Ask? || Plain(ts[i])
    ensures Valid(ts)
  {
  }

  // ---- the surgery on turns ----------------------------------------------

  /** The position of the last message with tool calls, if any. */
  function LastCalls(ts: seq<Turn>): (p: Option<nat>)
    ensures p.Some? ==> p.value < |ts| && Calls(ts[p.value]) && forall i :: p.value < i < |ts| ==> !Calls(ts[i])
    ensures p.None? ==> forall i :: 0 <= i < |ts| ==> !Calls(ts[i])
  {
    if ts == [] then None
    else if Calls(ts[|ts| - 1]) then Some(|ts| - 1)
    else LastCalls(ts[..|ts| - 1])
  }

  function KeptCalls(calls: seq<Call>, approved: set<string>): (kept: seq<Call>)
    ensures forall c :: c in kept <==> c in calls && c.id in approved
  {
    if calls == [] then []
    else (if calls[0].id in approved then [calls[0]] else []) + KeptCalls(calls[1..], approved)
  }

  function RejectedIds(calls: seq<Call>, approved: set<string>): (ids: set<string>) {
    set c | c in calls && c.id !in approved :: c.id
  }

  /** The history up to its last finished answer. */
  function Cut(ts: seq<Turn>): (k: nat)
    ensures k <= |ts| && (k > 0 ==> Plain(ts[k - 1])) && forall i :: k <= i < |ts| ==> !Plain(ts[i])
  {
    if ts == [] then 0
    else if Plain(ts[|ts| - 1]) then |ts|
    else Cut(ts[..|ts| - 1])
  }

  /** Questions and finished answers only. */
  function Conversation(ts: seq<Turn>): (c: seq<Turn>)
    ensures forall i :: 0 <= i < |c| ==> c[i].Ask? || Plain(c[i])
    ensures |c| <= |ts|
  {
    if ts == [] then []
    else if ts[|ts| - 1].Ask? || Plain(ts[|ts| - 1]) then Conversation(ts[..|ts| - 1]) + [ts[|ts| - 1]]
    else Conversation(ts[..|ts| - 1])
  }

  function FirstAsk(ts: seq<Turn>): (p: Option<nat>)
    ensures p.Some? ==> p.value < |ts| && ts[p.value].Ask? && forall i :: 0 <= i < p.value ==> !ts[i].Ask?
    ensures p.None? ==> forall i :: 0 <= i < |ts| ==> !ts[i].Ask?
  {
    if ts == [] then None
    else if ts[0].Ask? then Some(0)
    else var p := FirstAsk(ts[1..]); if p.Some? then Some(p.value + 1) else None
  }

  /** The clean-up after a cancelled turn. */
  function Cleaned(ts: seq<Turn>): seq<Turn> {
    if LastCalls(ts).None? then ts
    else
      var prefix := Conversation(ts[..Cut(ts)]);
      if prefix != [] then prefix
      else if FirstAsk(ts).Some? then [ts[FirstAsk(ts).value]]
      else ts
  }

  // ---- what the clean-up achieves ----------------------------------------

  predicate NoAnswer(ts: seq<Turn>) {
    forall i :: 0 <= i < |ts| ==> !Plain(ts[i])
  }

  predicate SomeCall(ts: seq<Turn>) {
    exists i :: 0 <= i < |ts| && Calls(ts[i])
  }

  predicate EndsInAnswer(ts: seq<Turn>) {
    ts != [] && Plain(ts[|ts| - 1])
  }

  /** A checkpoint between turns: it ends in an answer, or is a single question. */
  predicate AtRest(ts: seq<Turn>) {
    EndsInAnswer(ts) || (|ts| == 1 && ts[0].Ask?)
  }

  lemma {:induction false} CutAtAnswer(base: seq<Turn>, turn: seq<Turn>)
    requires NoAnswer(turn) && (EndsInAnswer(base) || NoAnswer(base))
    ensures Cut(base + turn) == if EndsInAnswer(base) then |base| else 0
  {
    if turn == [] {
      assert base + turn == base;
    } else {
      assert (base + turn)[..|base + turn| - 1] == base + turn[..|turn| - 1];
      CutAtAnswer(base, turn[..|turn| - 1]);
    }
  }

  lemma {:induction false} ConversationOfConversation(ts: seq<Turn>)
    requires forall i :: 0 <= i < |ts| ==> ts[i].Ask? || Plain(ts[i])
    ensures Conversation(ts) == ts
  {
    if ts != [] {
      ConversationOfConversation(ts[..|ts| - 1]);
    }
  }

  lemma ConversationRests(ts: seq<Turn>)
    requires AtRest(ts)
    ensures AtRest(Conversation(ts)) && Conversation(Conversation(ts)) == Conversation(ts)
  {
    ConversationOfConversation(Conversation(ts));
    if |ts| == 1 {
      assert ts[..0] == [];
    }
  }

  lemma CleanedAtRest(base: seq<Turn>, turn: seq<Turn>)
    requires AtRest(base) && NoAnswer(turn) && SomeCall(base + turn)
    ensures Cleaned(base + turn) == Conversation(base)
  {
    var ts := base + turn;
    var i :| 0 <= i < |ts| && Calls(ts[i]);
    CutAtAnswer(base, turn);
    if EndsInAnswer(base) {
      assert ts[..|base|] == base;
    } else {
      assert ts[..0] == [] && base == [ts[0]];
      ConversationOfConversation(base);
    }
  }

  /** Main result: cleaning up after a cancelled turn gives back the conversation of the checkpoint
  before it, exactly when some message has tool calls; without one the cancelled question stays. */
  lemma CleanUpRestores(base: seq<Turn>, turn: seq<Turn>)
    requires AtRest(base) && NoAnswer(turn) && turn != []
    ensures Cleaned(base + turn) == Conversation(base) <==> SomeCall(base + turn)
  {
    if SomeCall(base + turn) {
      CleanedAtRest(base, turn);
    } else {
      assert |Cleaned(base + turn)| == |base| + |turn| > |Conversation(base)|;
    }
  }

  /** The checkpoint after a series of turns that were each cancelled and cleaned up. */
  function Cancelled(base: seq<Turn>, turns: seq<seq<Turn>>): seq<Turn> {
    if turns == [] then base else Cleaned(Cancelled(base, turns[..|turns| - 1]) + turns[|turns| - 1])
  }

  /** Main result: any number of cancelled tool turns adds nothing to the checkpoint. */
  lemma {:induction false} RepeatedCancelsAddNothing(base: seq<Turn>, turns: seq<seq<Turn>>)
    requires AtRest(base) && turns != []
    requires forall k :: 0 <= k < |turns| ==> NoAnswer(turns[k]) && SomeCall(turns[k])
    ensures Cancelled(base, turns) == Conversation(base)
  {
    var before, last := Cancelled(base, turns[..|turns| - 1]), turns[|turns| - 1];
    ConversationRests(base);
    if |turns| > 1 {
      RepeatedCancelsAddNothing(base, turns[..|turns| - 1]);
    }
    var i :| 0 <= i < |last| && Calls(last[i]);
    assert Calls((before + last)[|before| + i]);
    CleanedAtRest(before, last);
  }

  /** The history holds a question or a finished answer. */
  predicate SomeTalk(ts: seq<Turn>) {
    exists i :: 0 <= i < |ts| && (ts[i].Ask? || Plain(ts[i]))
  }

  /** Main result: a clean-up that finds tool calls removes them all exactly when there is a question
  or a finished answer to keep, and then the history is valid and not empty; otherwise it changes
  nothing. */
  lemma {:induction false} CleanedIsValid(ts: seq<Turn>)
    requires SomeCall(ts)
    ensures !SomeCall(Cleaned(ts)) <==> SomeTalk(ts)
    ensures SomeTalk(ts) ==> Cleaned(ts) != [] && Valid(Cleaned(ts))
    ensures !SomeTalk(ts) ==> Cleaned(ts) == ts
  {
    if SomeTalk(ts) {
      KeepsTalk(ts);
      PlainIsValid(Cleaned(ts));
    } else {
      assert Cut(ts) == 0 && ts[..0] == [];
    }
  }

  lemma KeepsTalk(ts: seq<Turn>)
    requires SomeCall(ts) && SomeTalk(ts)
    ensures Cleaned(ts) != [] && forall i :: 0 <= i < |Cleaned(ts)| ==> Cleaned(ts)[i].Ask? || Plain(Cleaned(ts)[i])
  {
    var k := Cut(ts);
    if k > 0 {
      assert ts[..k][k - 1] == ts[k - 1];
    } else {
      assert ts[..0] == [];
    }
  }

  // ---- what approval and rejection achieve --------------------------------

  lemma LastCallsOfPaused(ts: seq<Turn>)
    requires Paused(ts)
    ensures LastCalls(ts) == Some(|ts| - 1)
  {
  }

  /** The results that the tool node appends for the calls it was left with. */
  function ResultsFor(calls: seq<Call>): (rs: seq<Turn>)
    ensures |rs| == |calls| && forall i :: 0 <= i < |calls| ==> rs[i] == Result(calls[i].id, "")
  {
    seq(|calls|, i requires 0 <= i < |calls| => Result(calls[i].id, ""))
  }

  lemma AnsweredStays(ts: seq<Turn>, more: seq<Turn>, i: nat, id: string)
    requires AnsweredAfter(ts, i, id)
    ensures AnsweredAfter(ts + more, i, id)
  {
    var j :| i < j < |ts| && ts[j].Result? && ts[j].callId == id;
    assert (ts + more)[j] == ts[j];
  }

  lemma ResultAnswers(ts: seq<Turn>, calls: seq<Call>, i: nat, k: nat)
    requires i < |ts| && k < |calls|
    ensures AnsweredAfter(ts + ResultsFor(calls), i, calls[k].id)
  {
    assert (ts + ResultsFor(calls))[|ts| + k] == Result(calls[k].id, "");
  }

  lemma CallsAnswered(ts: seq<Turn>, i: nat, c: Call)
    requires Paused(ts)
    requires var all := ts + ResultsFor(ts[|ts| - 1].calls); i < |all| && all[i].Reply? && c in all[i].calls
    ensures AnsweredAfter(ts + ResultsFor(ts[|ts| - 1].calls), i, c.id)
  {
    hide AnsweredAfter, CalledBefore;
    var n := |ts| - 1;
    var calls, front := ts[n].calls, ts[..n];
    if i < n {
      assert front[i] == ts[i] && AnsweredAfter(front, i, c.id);
      assert front + ([ts[n]] + ResultsFor(calls)) == ts + ResultsFor(calls);
      AnsweredStays(front, [ts[n]] + ResultsFor(calls), i, c.id);
    } else {
      var k :| 0 <= k < |calls| && calls[k] == c;
      ResultAnswers(ts, calls, i, k);
    }
  }

  lemma ResultsCalled(ts: seq<Turn>, j: nat)
    requires Paused(ts) && var all := ts + ResultsFor(ts[|ts| - 1].calls); j < |all| && all[j].Result?
    ensures CalledBefore(ts + ResultsFor(ts[|ts| - 1].calls), j)
  {
    var n := |ts| - 1;
    var calls, front := ts[n].calls, ts[..n];
    var all := ts + ResultsFor(calls);
    if j < n {
      assert front[j] == all[j] && CalledBefore(front, j);
      var i, c :| 0 <= i < j && front[i].Reply? && c in front[i].calls && c.id == front[j].callId;
      assert all[i] == front[i];
    } else {
      assert j > n && calls[j - n - 1] in all[n].calls;
    }
  }

  /** Main result: once the waiting calls are answered, the paused history is valid. */
  lemma AnsweringCompletes(ts: seq<Turn>)
    requires Paused(ts)
    ensures Valid(ts + ResultsFor(ts[|ts| - 1].calls))
  {
    hide Paused, AnsweredAfter, CalledBefore;
    EndsInCalls(ts);
    var all := ts + ResultsFor(ts[|ts| - 1].calls);
    forall i, c | 0 <= i < |all| && all[i].Reply? && c in all[i].calls ensures AnsweredAfter(all, i, c.id) {
      CallsAnswered(ts, i, c);
    }
    forall j | 0 <= j < |all| && all[j].Result? ensures CalledBefore(all, j) {
      ResultsCalled(ts, j);
    }
  }

  lemma EndsInCalls(ts: seq<Turn>)
    requires Paused(ts)
    ensures ts != [] && ts[|ts| - 1].Reply?
  {
  }

  // ---- the stored checkpoint ---------------------------------------------

  /** What is passed to the message reducer: it removes all, removes by id, and replaces by id or appends. */
  datatype Patch = RemoveAll | RemoveId(id: nat) | Put(msg: Msg)

  function IndexOf(ms: seq<Msg>, id: nat): (p: Option<nat>)
    ensures p.Some? ==> p.value < |ms| && ms[p.value].id == id
    ensures p.None? ==> forall i :: 0 <= i < |ms| ==> ms[i].id != id
  {
    if ms == [] then None
    else if ms[|ms| - 1].id == id then Some(|ms| - 1)
    else IndexOf(ms[..|ms| - 1], id)
  }

  function Applied(ms: seq<Msg>, p: Patch): seq<Msg> {
    match p
    case RemoveAll => []
    case RemoveId(id) =>
      var at := IndexOf(ms, id);
      if at.Some? then ms[..at.value] + ms[at.value + 1..] else ms
    case Put(m) =>
      var at := IndexOf(ms, m.id);
      if at.Some? then ms[at.value := m] else ms + [m]
  }

  method AnyCalls(msgs: seq<Msg>) returns (any: bool)
    ensures any <==> LastCalls(Turns(msgs)).Some?
  {
    any := false;
    for i := 0 to |msgs|
      invariant any <==> exists k :: 0 <= k < i && Calls(msgs[k].turn)
    {
      if Calls(msgs[i].turn) { any := true; }
    }
    assert forall k :: 0 <= k < |msgs| ==> Turns(msgs)[k] == msgs[k].turn;
  }

  /** The scan for the end of the last finished answer. */
  method AfterLastAnswer(msgs: seq<Msg>) returns (cut: nat)
    ensures cut == Cut(Turns(msgs))
  {
    ghost var ts := Turns(msgs);
    cut := 0;
    for i := 0 to |msgs|
      invariant cut == Cut(ts[..i])
    {
      assert ts[..i + 1][..i] == ts[..i];
      if Plain(msgs[i].turn) { cut := i + 1; }
    }
    assert ts[..|msgs|] == ts;
  }

  /** The questions and finished answers, under ids from `id` on. */
  method Rebuilt(msgs: seq<Msg>, id: nat) returns (prefix: seq<Msg>, next: nat)
    ensures Turns(prefix) == Conversation(Turns(msgs))
    ensures DistinctIds(prefix) && next >= id && forall k :: 0 <= k < |prefix| ==> prefix[k].id < next
  {
    ghost var ts := Turns(msgs);
    prefix, next := [], id;
    for i := 0 to |msgs|
      invariant Turns(prefix) == Conversation(ts[..i])
      invariant DistinctIds(prefix) && next >= id && forall k :: 0 <= k < |prefix| ==> prefix[k].id < next
    {
      assert ts[..i + 1][..i] == ts[..i];
      if msgs[i].turn.Ask? || Plain(msgs[i].turn) {
        prefix, next := prefix + [Msg(next, msgs[i].turn)], next + 1;
      }
    }
    assert ts[..|msgs|] == ts;
  }

  class ReActCheckpoint {
    var messages: seq<Msg>
    var nextId: nat

    /** Ids are distinct, and the next one is new. */
    ghost predicate Ok()
      reads this
    {
      DistinctIds(messages) && forall i :: 0 <= i < |messages| ==> messages[i].id < nextId
    }

    constructor ()
      ensures Ok() && messages == []
    {
      messages, nextId := [], 0;
    }

    /** Rejection: the message whose calls wait is removed. */
    method RejectPending()
      requires Ok()
      modifies this`messages
      ensures Ok()
      ensures var p := LastCalls(Turns(old(messages)));
              messages == if p.Some? then old(messages)[..p.value] + old(messages)[p.value + 1..] else old(messages)
    {
      var pending := LastCalls(Turns(messages));
      if pending.Some? {
        var id := messages[pending.value].id;
        assert IndexOf(messages, id).Some?;
        messages := Applied(messages, RemoveId(id));
      }
    }

    /** Selective approval: the waiting message is replaced by one with the approved calls only. */
    method ApprovePartial(approved: set<string>) returns (rejected: set<string>)
      requires Ok()
      modifies this`messages
      ensures Ok()
      ensures var p := LastCalls(Turns(old(messages)));
              if p.None? then messages == old(messages) && rejected == {}
              else
                var calls := old(messages)[p.value].turn.calls;
                var kept := KeptCalls(calls, approved);
                && rejected == RejectedIds(calls, approved)
                && messages == if kept == [] then old(messages)[..p.value] + old(messages)[p.value + 1..]
                               else old(messages)[p.value := old(messages)[p.value].(
                                      turn := Reply(old(messages)[p.value].turn.content, kept))]
    {
      var pending := LastCalls(Turns(messages));
      if pending.None? { return {}; }
      var m := messages[pending.value];
      var kept := KeptCalls(m.turn.calls, approved);
      rejected := RejectedIds(m.turn.calls, approved);
      if kept == [] {
        RejectPending();
      } else if rejected != {} {
        assert IndexOf(messages, m.id).Some?;
        messages := Applied(messages, Put(m.(turn := Reply(m.turn.content, kept))));
      } else {
        assert forall c :: c in m.turn.calls && c.id !in approved ==> c.id in rejected;
        AllKept(m.turn.calls, approved);
        assert messages == messages[pending.value := m];
      }
    }

    /** The clean-up after a cancelled turn: find the last finished answer, and rebuild the messages
    before it from their contents under new ids. */
    method ClearInterruptedTools()
      requires Ok()
      modifies this
      ensures Ok() && Turns(messages) == Cleaned(Turns(old(messages)))
    {
      var any := AnyCalls(messages);
      if !any { return; }
      var cut := AfterLastAnswer(messages);
      var prefix, next := Rebuilt(messages[..cut], nextId);
      assert Turns(messages[..cut]) == Turns(messages)[..cut];
      if prefix == [] {
        var first := FirstAsk(Turns(messages));
        if first.None? { return; }
        prefix, next := [Msg(next, messages[first.value].turn)], next + 1;
      }
      messages, nextId := Applied(messages, RemoveAll) + prefix, next;
    }

    /** A fork's checkpoint is seeded from the questions and answers of the transcript it sees. */
    method ForkState(transcript: seq<Message>)
      requires Ok() && messages == []
      modifies this
      ensures Ok() && Turns(messages) == Seeded(transcript)
    {
      for i := 0 to |transcript|
        invariant Ok() && Turns(messages) == Seeded(transcript[..i])
      {
        var m := transcript[i];
        assert transcript[..i + 1][..i] == transcript[..i];
        if !m.role.Tool? {
          var seed := Msg(nextId, if m.role.User? then Ask(m.content) else Reply(m.content, []));
          messages := messages + [seed];
          nextId := nextId + 1;
        }
      }
      assert transcript[..|transcript|] == transcript;
    }
  }

  lemma {:induction false} AllKept(calls: seq<Call>, approved: set<string>)
    requires forall c :: c in calls ==> c.id in approved
    ensures KeptCalls(calls, approved) == calls
  {
    if calls != [] {
      AllKept(calls[1..], approved);
    }
  }

  function Seeded(transcript: seq<Message>): (ts: seq<Turn>)
    ensures forall i :: 0 <= i < |ts| ==> ts[i].Ask? || Plain(ts[i])
  {
    if transcript == [] then []
    else
      var m := transcript[|transcript| - 1];
      Seeded(transcript[..|transcript| - 1])
      + match m.role
        case User => [Ask(m.content)]
        case Agent => [Reply(m.content, [])]
        case Tool => []
  }

  /** Rejecting a paused history, or approving none of its calls, leaves the valid
  history before the pause; approving some leaves a paused history with exactly those calls. */
  lemma SurgeryKeepsHistory(ts: seq<Turn>, approved: set<string>)
    requires Paused(ts)
    ensures var n := |ts| - 1;
            var kept := KeptCalls(ts[n].calls, approved);
            && LastCalls(ts) == Some(n)
            && ts[..n] + ts[n + 1..] == ts[..n] && Valid(ts[..n])
            && (kept == [] <==> forall c :: c in ts[n].calls ==> c.id !in approved)
            && (kept != [] ==> Paused(ts[n := Reply(ts[n].content, kept)])
                               && Valid(ts[n := Reply(ts[n].content, kept)] + ResultsFor(kept)))
  {
    var n := |ts| - 1;
    var kept := KeptCalls(ts[n].calls, approved);
    assert kept != [] ==> kept[0] in kept;
    if kept != [] {
      var after := ts[n := Reply(ts[n].content, kept)];
      assert after[..n] == ts[..n];
      AnsweringCompletes(after);
    }
  }

  // ---- what is kept, in order --------------------------------------------

  /** The conversation of a longer history is that of its parts, one after the other. */
  lemma {:induction false} ConversationJoins(a: seq<Turn>, b: seq<Turn>)
    ensures Conversation(a + b) == Conversation(a) + Conversation(b)
    ensures |a| == 1 ==> Conversation(a) == if a[0].Ask? || Plain(a[0]) then a else []
  {
    if b == [] {
      assert a + b == a;
    } else {
      assert (a + b)[..|a + b| - 1] == a + b[..|b| - 1];
      ConversationJoins(a, b[..|b| - 1]);
    }
    if |a| == 1 { assert a[..0] == [] && a == [a[0]]; }
  }

  /** The kept calls keep their order. */
  lemma {:induction false} KeptCallsJoin(a: seq<Call>, b: seq<Call>, approved: set<string>)
    ensures KeptCalls(a + b, approved) == KeptCalls(a, approved) + KeptCalls(b, approved)
  {
    if a == [] {
      assert a + b == b;
    } else {
      assert (a + b)[1..] == a[1..] + b;
      KeptCallsJoin(a[1..], b, approved);
    }
  }

  /** How many cells of a transcript are not tool cells. */
  function Talks(transcript: seq<Message>): nat {
    if transcript == [] then 0
    else Talks(transcript[..|transcript| - 1]) + if transcript[|transcript| - 1].role.Tool? then 0 else 1
  }

  /** Main result: the seed of a fork holds, for each question and answer of the transcript and in that order,
  a question or a finished answer with its text, and nothing else. */
  lemma {:induction false} SeedHoldsTalk(transcript: seq<Message>, i: nat)
    requires i < |transcript|
    ensures |Seeded(transcript)| == Talks(transcript)
    ensures !transcript[i].role.Tool? ==>
              && Talks(transcript[..i]) < Talks(transcript)
              && Seeded(transcript)[Talks(transcript[..i])] ==
                 if transcript[i].role.User? then Ask(transcript[i].content) else Reply(transcript[i].content, [])
  {
    var n := |transcript| - 1;
    var front := transcript[..n];
    SeedLength(front);
    if i < n {
      SeedHoldsTalk(front, i);
      assert front[..i] == transcript[..i];
    }
  }

  lemma {:induction false} SeedLength(transcript: seq<Message>)
    ensures |Seeded(transcript)| == Talks(transcript)
  {
    if transcript != [] { SeedLength(transcript[..|transcript| - 1]); }
  }
}
