/** Fork by reference: what a thread's history means, and why the flat chain query
with one cut per ancestor computes it. */
module Forks {
  import opened Store

  // ---- the invariant of the tables ---------------------------------------

  predicate ThreadsOk(db: Db) {
    forall t :: 0 <= t < |db.threads| && db.threads[t].fork.Some? ==>
      var f := db.threads[t].fork.value;
      f.parent < t && f.point < |db.messages| && db.messages[f.point].thread == f.parent
  }

  /** The counter value a thread was seeded with. */
  function Base(db: Db, t: ThreadId): nat
    requires t < |db.threads| && ThreadsOk(db)
  {
    if db.threads[t].fork.Some? then db.messages[db.threads[t].fork.value.point].seqNo else 0
  }

  predicate MessagesOk(db: Db)
    requires ThreadsOk(db)
  {
    && (forall t :: 0 <= t < |db.threads| ==> Base(db, t) <= db.threads[t].lastSeq)
    && (forall i :: 0 <= i < |db.messages| ==>
          var m := db.messages[i];
          m.thread < |db.threads| && m.run < |db.runs| && Base(db, m.thread) < m.seqNo <= db.threads[m.thread].lastSeq)
    && (forall i, j :: 0 <= i < j < |db.messages| && db.messages[i].thread == db.messages[j].thread ==>
          db.messages[i].seqNo < db.messages[j].seqNo)
  }

  predicate TablesOk(db: Db) {
    && ThreadsOk(db) && MessagesOk(db)
    && (forall r :: 0 <= r < |db.runs| ==> db.runs[r].thread < |db.threads|)
  }

  /** The parts of a cell that no statement changes after the insert. */
  predicate SameCell(m: Message, n: Message) {
    m.thread == n.thread && m.run == n.run && m.seqNo == n.seqNo && m.role == n.role && m.content == n.content
    && m.callId == n.callId && m.cites == n.cites
  }

  /** Rows are only added: `later` holds every row of `db` with its identity unchanged. */
  predicate Extends(db: Db, later: Db) {
    && |db.threads| <= |later.threads| && |db.runs| <= |later.runs| && |db.messages| <= |later.messages|
    && (forall t :: 0 <= t < |db.threads| ==>
          later.threads[t].fork == db.threads[t].fork && db.threads[t].lastSeq <= later.threads[t].lastSeq)
    && (forall r :: 0 <= r < |db.runs| ==> later.runs[r].thread == db.runs[r].thread)
    && (forall i :: 0 <= i < |db.messages| ==> SameCell(db.messages[i], later.messages[i]))
    && (forall c :: c in db.citations ==> c in later.citations && later.citations[c] == db.citations[c])
  }

  // ---- the meaning of a history ------------------------------------------

  /** The sequence number of a message. */
  function Number(db: Db, i: MessageId): nat {
    if i < |db.messages| then db.messages[i].seqNo else 0
  }

  /** The messages of a thread itself among the first `n` rows, oldest first. */
  function Own(db: Db, t: ThreadId, n: nat): (own: seq<MessageId>)
    requires n <= |db.messages|
    ensures forall i: nat :: i in own <==> i < n && db.messages[i].thread == t
  {
    if n == 0 then []
    else Own(db, t, n - 1) + if db.messages[n - 1].thread == t then [n - 1] else []
  }

  /** The listed messages up to and including sequence number `cut`. */
  function UpTo(db: Db, ids: seq<MessageId>, cut: Option<nat>): seq<MessageId> {
    if ids == [] then [] else UpTo(db, ids[..|ids| - 1], cut) + Last(db, ids, cut)
  }

  predicate Within(db: Db, i: MessageId, cut: Option<nat>) {
    cut.None? || Number(db, i) <= cut.value
  }

  function Last(db: Db, ids: seq<MessageId>, cut: Option<nat>): seq<MessageId>
    requires ids != []
  {
    if Within(db, ids[|ids| - 1], cut) then [ids[|ids| - 1]] else []
  }

  lemma {:induction false} UpToMembers(db: Db, ids: seq<MessageId>, cut: Option<nat>)
    ensures forall i: nat :: i in UpTo(db, ids, cut) <==> i in ids && Within(db, i, cut)
  {
    if ids != [] {
      UpToMembers(db, ids[..|ids| - 1], cut);
      assert ids == ids[..|ids| - 1] + [ids[|ids| - 1]];
    }
  }

  /** The parent's history up to and including the fork point, then the thread's own messages. */
  function History(db: Db, t: ThreadId): (h: seq<MessageId>)
    requires t < |db.threads| && TablesOk(db)
    ensures forall i: nat :: i in h ==> i < |db.messages|
  {
    if db.threads[t].fork.None? then Own(db, t, |db.messages|)
    else
      var inherited := History(db, db.threads[t].fork.value.parent);
      UpToMembers(db, inherited, Some(Base(db, t)));
      UpTo(db, inherited, Some(Base(db, t))) + Own(db, t, |db.messages|)
  }

  /** Which messages a thread sees. */
  predicate Visible(db: Db, t: ThreadId, i: MessageId)
    requires t < |db.threads| && i < |db.messages| && TablesOk(db)
  {
    || db.messages[i].thread == t
    || (db.threads[t].fork.Some? && db.messages[i].seqNo <= Base(db, t)
        && Visible(db, db.threads[t].fork.value.parent, i))
  }

  // ---- the query ---------------------------------------------------------

  datatype Link = Link(thread: ThreadId, cut: Option<nat>)

  /** The recursive part: each ancestor is cut where its child was forked. */
  function Chain(db: Db, t: ThreadId, cut: Option<nat>): (chain: seq<Link>)
    requires t < |db.threads| && TablesOk(db)
    ensures |chain| <= t + 1
    ensures forall k :: 0 <= k < |chain| ==> chain[k].thread <= t
    ensures forall k, l :: 0 <= k < l < |chain| ==> chain[l].thread < chain[k].thread
  {
    [Link(t, cut)]
    + if db.threads[t].fork.None? then []
      else Chain(db, db.threads[t].fork.value.parent, Some(Base(db, t)))
  }

  function Joined(db: Db, chain: seq<Link>): seq<MessageId>
  {
    if chain == [] then []
    else UpTo(db, Own(db, chain[0].thread, |db.messages|), chain[0].cut) + Joined(db, chain[1..])
  }

  predicate Before(db: Db, i: MessageId, j: MessageId) {
    Number(db, i) < Number(db, j) || (Number(db, i) == Number(db, j) && i <= j)
  }

  function Inserted(db: Db, i: MessageId, ids: seq<MessageId>): (out: seq<MessageId>)
    ensures multiset(out) == multiset{i} + multiset(ids)
  {
    if ids == [] || Before(db, i, ids[0]) then [i] + ids
    else
      assert ids == [ids[0]] + ids[1..];
      [ids[0]] + Inserted(db, i, ids[1..])
  }

  /** ORDER BY seq, then age. */
  function OrderBySeq(db: Db, ids: seq<MessageId>): (out: seq<MessageId>)
    ensures multiset(out) == multiset(ids)
  {
    if ids == [] then []
    else
      assert ids == [ids[0]] + ids[1..];
      Inserted(db, ids[0], OrderBySeq(db, ids[1..]))
  }

  function ThreadMessages(db: Db, t: ThreadId): seq<MessageId>
    requires t < |db.threads| && TablesOk(db)
  {
    OrderBySeq(db, Joined(db, Chain(db, t, None)))
  }

  // ---- the query computes the meaning ------------------------------------

  ghost predicate Increasing(db: Db, ids: seq<MessageId>) {
    forall k, l :: 0 <= k < l < |ids| ==> Number(db, ids[k]) < Number(db, ids[l])
  }

  ghost predicate AllBelow(db: Db, ids: seq<MessageId>, bound: nat) {
    forall i: nat :: i in ids ==> Number(db, i) < bound
  }

  lemma IncreasingConcat(db: Db, a: seq<MessageId>, b: seq<MessageId>, bound: nat)
    requires Increasing(db, a) && Increasing(db, b) && AllBelow(db, a, bound)
    requires forall i: nat :: i in b ==> bound <= Number(db, i)
    ensures Increasing(db, a + b)
  {
    var c := a + b;
    forall k, l | 0 <= k < l < |c| ensures Number(db, c[k]) < Number(db, c[l]) {
      if k < |a| <= l {
        assert c[k] in a && c[l] in b;
      }
    }
  }

  lemma OwnBelow(db: Db, t: ThreadId, n: nat)
    requires TablesOk(db) && 0 < n <= |db.messages| && db.messages[n - 1].thread == t
    ensures AllBelow(db, Own(db, t, n - 1), Number(db, n - 1))
  {
  }

  lemma {:induction false} OwnIncreasing(db: Db, t: ThreadId, n: nat)
    requires TablesOk(db) && n <= |db.messages|
    ensures Increasing(db, Own(db, t, n))
  {
    hide TablesOk, AllBelow;
    if n > 0 {
      OwnIncreasing(db, t, n - 1);
      if db.messages[n - 1].thread == t {
        OwnBelow(db, t, n);
        IncreasingConcat(db, Own(db, t, n - 1), [n - 1], Number(db, n - 1));
      }
    }
  }

  lemma {:induction false} UpToIncreasing(db: Db, ids: seq<MessageId>, cut: Option<nat>)
    requires Increasing(db, ids)
    ensures Increasing(db, UpTo(db, ids, cut))
  {
    if ids != [] {
      var front, last := ids[..|ids| - 1], ids[|ids| - 1];
      UpToIncreasing(db, front, cut);
      UpToMembers(db, front, cut);
      forall i: nat | i in UpTo(db, front, cut) ensures Number(db, i) < Number(db, last) {
        assert i in front;
        var k :| 0 <= k < |front| && front[k] == i;
        assert ids[k] == i;
      }
      IncreasingConcat(db, UpTo(db, front, cut), Last(db, ids, cut), Number(db, last));
    }
  }

  /** A history is in strictly increasing order of sequence numbers, which are therefore unique. */
  lemma {:induction false} HistoryIncreasing(db: Db, t: ThreadId)
    requires t < |db.threads| && TablesOk(db)
    ensures Increasing(db, History(db, t))
    ensures forall i: nat :: i in History(db, t) ==> Number(db, i) <= db.threads[t].lastSeq
  {
    var own := Own(db, t, |db.messages|);
    OwnIncreasing(db, t, |db.messages|);
    if db.threads[t].fork.Some? {
      var inherited := History(db, db.threads[t].fork.value.parent);
      HistoryIncreasing(db, db.threads[t].fork.value.parent);
      UpToIncreasing(db, inherited, Some(Base(db, t)));
      UpToMembers(db, inherited, Some(Base(db, t)));
      IncreasingConcat(db, UpTo(db, inherited, Some(Base(db, t))), own, Base(db, t) + 1);
    }
  }

  lemma {:induction false} HistoryIsVisible(db: Db, t: ThreadId, i: MessageId)
    requires t < |db.threads| && i < |db.messages| && TablesOk(db)
    ensures i in History(db, t) <==> Visible(db, t, i)
  {
    if db.threads[t].fork.Some? {
      HistoryIsVisible(db, db.threads[t].fork.value.parent, i);
      UpToMembers(db, History(db, db.threads[t].fork.value.parent), Some(Base(db, t)));
    }
  }

  lemma {:induction false} UpToAll(db: Db, ids: seq<MessageId>, cut: Option<nat>)
    requires forall k :: 0 <= k < |ids| ==> Within(db, ids[k], cut)
    ensures UpTo(db, ids, cut) == ids
  {
    if ids != [] {
      UpToAll(db, ids[..|ids| - 1], cut);
    }
  }

  lemma {:induction false} UpToConcat(db: Db, a: seq<MessageId>, b: seq<MessageId>, cut: Option<nat>)
    ensures UpTo(db, a + b, cut) == UpTo(db, a, cut) + UpTo(db, b, cut)
  {
    if b == [] {
      assert a + b == a;
    } else {
      hide Within;
      var front := b[..|b| - 1];
      var x, y, z := UpTo(db, a, cut), UpTo(db, front, cut), Last(db, b, cut);
      assert UpTo(db, a + b, cut) == UpTo(db, a + front, cut) + z by {
        assert (a + b)[..|a + b| - 1] == a + front;
      }
      assert UpTo(db, b, cut) == y + z;
      hide UpTo, Last;
      UpToConcat(db, a, front, cut);
      assert (x + y) + z == x + (y + z);
    }
  }

  /** Seeding the counter makes the cut of an ancestor imply the cuts above it: a history
  cut at or after the thread's base is the chain of that thread, row for row. */
  lemma {:induction false} CutHistoryIsChain(db: Db, t: ThreadId, cut: Option<nat>)
    requires t < |db.threads| && TablesOk(db)
    requires cut.Some? ==> Base(db, t) <= cut.value
    ensures multiset(UpTo(db, History(db, t), cut)) == multiset(Joined(db, Chain(db, t, cut)))
  {
    var own := Own(db, t, |db.messages|);
    var chain := Chain(db, t, cut);
    if db.threads[t].fork.None? {
      assert chain[1..] == [];
    } else {
      var p := db.threads[t].fork.value.parent;
      var kept := UpTo(db, History(db, p), Some(Base(db, t)));
      UpToConcat(db, kept, own, cut);
      UpToMembers(db, History(db, p), Some(Base(db, t)));
      assert forall k :: 0 <= k < |kept| ==> kept[k] in kept;
      UpToAll(db, kept, cut);
      CutHistoryIsChain(db, p, Some(Base(db, t)));
      assert chain[1..] == Chain(db, p, Some(Base(db, t)));
    }
  }

  ghost predicate InOrder(db: Db, ids: seq<MessageId>) {
    forall k, l :: 0 <= k < l < |ids| ==> Before(db, ids[k], ids[l])
  }

  lemma {:induction false} InsertedInOrder(db: Db, i: MessageId, ids: seq<MessageId>)
    requires InOrder(db, ids)
    ensures InOrder(db, Inserted(db, i, ids))
  {
    if ids != [] && !Before(db, i, ids[0]) {
      InsertedInOrder(db, i, ids[1..]);
      var rest := Inserted(db, i, ids[1..]);
      forall k | 0 <= k < |rest| ensures Before(db, ids[0], rest[k]) {
        assert rest[k] in multiset(rest);
        assert rest[k] == i || rest[k] in ids[1..];
      }
    }
  }

  lemma {:induction false} OrderedInOrder(db: Db, ids: seq<MessageId>)
    ensures InOrder(db, OrderBySeq(db, ids))
  {
    if ids != [] {
      OrderedInOrder(db, ids[1..]);
      InsertedInOrder(db, ids[0], OrderBySeq(db, ids[1..]));
    }
  }

  lemma SameFirst(db: Db, a: seq<MessageId>, b: seq<MessageId>)
    requires InOrder(db, a) && InOrder(db, b) && multiset(a) == multiset(b) && a != []
    ensures b != [] && a[0] == b[0]
  {
    assert |multiset(a)| == |multiset(b)| > 0;
    assert a[0] in multiset(b) && b[0] in multiset(a);
    var k :| 0 <= k < |b| && b[k] == a[0];
    var l :| 0 <= l < |a| && a[l] == b[0];
    assert Before(db, a[0], a[l]) || l == 0;
    assert Before(db, b[0], b[k]) || k == 0;
  }

  lemma {:induction false} OrderIsUnique(db: Db, a: seq<MessageId>, b: seq<MessageId>)
    requires InOrder(db, a) && InOrder(db, b) && multiset(a) == multiset(b)
    ensures a == b
  {
    if a == [] {
      assert |multiset(b)| == 0;
    } else {
      SameFirst(db, a, b);
      assert a == [a[0]] + a[1..] && b == [b[0]] + b[1..];
      assert multiset(a[1..]) == multiset(a) - multiset{a[0]};
      assert multiset(b[1..]) == multiset(b) - multiset{a[0]};
      OrderIsUnique(db, a[1..], b[1..]);
    }
  }

  /** Main result: the chain query returns exactly the history, in its order. */
  lemma {:induction false} QueryIsHistory(db: Db, t: ThreadId)
    requires t < |db.threads| && TablesOk(db)
    ensures ThreadMessages(db, t) == History(db, t)
  {
    var rows := Joined(db, Chain(db, t, None));
    CutHistoryIsChain(db, t, None);
    UpToAll(db, History(db, t), None);
    OrderedInOrder(db, rows);
    HistoryIncreasing(db, t);
    OrderIsUnique(db, ThreadMessages(db, t), History(db, t));
  }

  // ---- later appends -----------------------------------------------------

  /** The thread's own messages among the rows from `from` on. */
  function OwnSince(db: Db, t: ThreadId, from: nat, n: nat): seq<MessageId>
    requires from <= n <= |db.messages|
  {
    if n == from then []
    else OwnSince(db, t, from, n - 1) + if db.messages[n - 1].thread == t then [n - 1] else []
  }

  lemma {:induction false} OwnGrows(db: Db, later: Db, t: ThreadId, n: nat)
    requires Extends(db, later) && |db.messages| <= n <= |later.messages|
    ensures Own(later, t, n) == Own(db, t, |db.messages|) + OwnSince(later, t, |db.messages|, n)
  {
    if n == |db.messages| {
      OwnSame(db, later, t, n);
    } else {
      OwnGrows(db, later, t, n - 1);
    }
  }

  lemma {:induction false} OwnSame(db: Db, later: Db, t: ThreadId, n: nat)
    requires Extends(db, later) && n <= |db.messages|
    ensures Own(later, t, n) == Own(db, t, n)
  {
    if n > 0 {
      assert SameCell(db.messages[n - 1], later.messages[n - 1]);
      OwnSame(db, later, t, n - 1);
    }
  }

  predicate Stored(db: Db, ids: seq<MessageId>) {
    forall k :: 0 <= k < |ids| ==> ids[k] < |db.messages|
  }

  lemma {:induction false} UpToSame(db: Db, later: Db, ids: seq<MessageId>, cut: Option<nat>)
    requires Extends(db, later) && Stored(db, ids)
    ensures UpTo(later, ids, cut) == UpTo(db, ids, cut)
  {
    if ids != [] {
      UpToSame(db, later, ids[..|ids| - 1], cut);
    }
  }

  lemma {:induction false} UpToNone(db: Db, ids: seq<MessageId>, cut: nat)
    requires forall i: nat :: i in ids ==> cut < Number(db, i)
    ensures UpTo(db, ids, Some(cut)) == []
  {
    if ids != [] {
      UpToNone(db, ids[..|ids| - 1], cut);
    }
  }

  lemma {:induction false} OwnSinceMembers(db: Db, t: ThreadId, from: nat, n: nat)
    requires from <= n <= |db.messages|
    ensures forall i: nat :: i in OwnSince(db, t, from, n) <==> from <= i < n && db.messages[i].thread == t
  {
    if n > from {
      OwnSinceMembers(db, t, from, n - 1);
    }
  }

  /** Rows added to the parent after the fork lie beyond the cut. */
  lemma LaterRowsBeyondCut(db: Db, later: Db, t: ThreadId)
    requires t < |db.threads| && TablesOk(db) && TablesOk(later) && Extends(db, later) && db.threads[t].fork.Some?
    ensures Base(later, t) == Base(db, t)
    ensures var p := db.threads[t].fork.value.parent;
            UpTo(later, OwnSince(later, p, |db.messages|, |later.messages|), Some(Base(db, t))) == []
  {
    var f := db.threads[t].fork.value;
    assert SameCell(db.messages[f.point], later.messages[f.point]);
    OwnSinceMembers(later, f.parent, |db.messages|, |later.messages|);
    UpToNone(later, OwnSince(later, f.parent, |db.messages|, |later.messages|), Base(db, t));
  }

  lemma CutKeepsInherited(db: Db, later: Db, t: ThreadId)
    requires t < |db.threads| && TablesOk(db) && TablesOk(later) && Extends(db, later) && db.threads[t].fork.Some?
    requires var p := db.threads[t].fork.value.parent;
             History(later, p) == History(db, p) + OwnSince(later, p, |db.messages|, |later.messages|)
    ensures Base(later, t) == Base(db, t)
    ensures var p := db.threads[t].fork.value.parent;
            UpTo(later, History(later, p), Some(Base(db, t))) == UpTo(db, History(db, p), Some(Base(db, t)))
  {
    var p := db.threads[t].fork.value.parent;
    LaterRowsBeyondCut(db, later, t);
    UpToConcat(later, History(db, p), OwnSince(later, p, |db.messages|, |later.messages|), Some(Base(db, t)));
    assert forall k :: 0 <= k < |History(db, p)| ==> History(db, p)[k] in History(db, p);
    UpToSame(db, later, History(db, p), Some(Base(db, t)));
  }

  /** Main result: whatever is appended later, and to whichever thread, a thread's history only
  grows at its end, and only by messages of the thread itself. */
  lemma {:induction false} LaterAppendsKeepHistory(db: Db, later: Db, t: ThreadId)
    requires t < |db.threads| && TablesOk(db) && TablesOk(later) && Extends(db, later)
    ensures History(later, t) == History(db, t) + OwnSince(later, t, |db.messages|, |later.messages|)
  {
    OwnGrows(db, later, t, |later.messages|);
    if db.threads[t].fork.Some? {
      var p := db.threads[t].fork.value.parent;
      LaterAppendsKeepHistory(db, later, p);
      CutKeepsInherited(db, later, t);
      var inherited := UpTo(db, History(db, p), Some(Base(db, t)));
      var own, added := Own(db, t, |db.messages|), OwnSince(later, t, |db.messages|, |later.messages|);
      assert inherited + (own + added) == (inherited + own) + added;
    }
  }

  lemma {:induction false} VisibleStays(db: Db, later: Db, t: ThreadId, i: MessageId)
    requires t < |db.threads| && i < |db.messages| && TablesOk(db) && TablesOk(later) && Extends(db, later)
    ensures Visible(later, t, i) == Visible(db, t, i)
  {
    LaterAppendsKeepHistory(db, later, t);
    OwnSinceMembers(later, t, |db.messages|, |later.messages|);
    HistoryIsVisible(db, t, i);
    HistoryIsVisible(later, t, i);
  }

  /** What a thread sees, it sees through every message of the prefix: visibility composes. */
  lemma {:induction false} VisibleComposes(db: Db, t: ThreadId, i: MessageId, j: MessageId)
    requires t < |db.threads| && i < |db.messages| && j < |db.messages| && TablesOk(db)
    requires Visible(db, t, i) && Visible(db, db.messages[i].thread, j) && db.messages[j].seqNo <= db.messages[i].seqNo
    ensures Visible(db, t, j)
  {
    if db.messages[i].thread != t {
      VisibleComposes(db, db.threads[t].fork.value.parent, i, j);
    }
  }

  /** `later` is a state the tables can go on to. */
  ghost predicate Follows(db: Db, later: Db) {
    TablesOk(later) && Extends(db, later)
  }

  /** Threads and runs are added or counted up; the messages are the same. */
  ghost predicate Grows(db: Db, later: Db) {
    && later.messages == db.messages && later.citations == db.citations
    && |db.threads| <= |later.threads| && |db.runs| <= |later.runs|
    && (forall t :: 0 <= t < |db.threads| ==>
          later.threads[t].fork == db.threads[t].fork && db.threads[t].lastSeq <= later.threads[t].lastSeq)
    && (forall r :: 0 <= r < |db.runs| ==> later.runs[r].thread == db.runs[r].thread)
    && (forall r :: 0 <= r < |later.runs| ==> later.runs[r].thread < |later.threads|)
    && ThreadsOk(later)
    && (forall t :: |db.threads| <= t < |later.threads| ==> Base(later, t) <= later.threads[t].lastSeq)
  }

  lemma GrowsFollow(db: Db, later: Db)
    requires TablesOk(db) && Grows(db, later)
    ensures Follows(db, later)
  {
    forall t | 0 <= t < |db.threads| ensures Base(later, t) == Base(db, t)
        && Base(later, t) <= later.threads[t].lastSeq {
    }
    hide Base, ThreadsOk;
  }

  lemma ForkKeepsTables(db: Db, parent: ThreadId, point: MessageId)
    requires TablesOk(db) && ForkThread(db, parent, point).Some?
    ensures Follows(db, ForkThread(db, parent, point).value)
  {
    assert db.messages[point].thread < |db.threads|;
    GrowsFollow(db, ForkThread(db, parent, point).value);
  }

  lemma {:induction false} OwnOfNewThread(db: Db, t: ThreadId, n: nat)
    requires n <= |db.messages| && forall i :: 0 <= i < n ==> db.messages[i].thread != t
    ensures Own(db, t, n) == []
  {
    if n > 0 {
      OwnOfNewThread(db, t, n - 1);
    }
  }

  lemma ParentKeepsHistory(db: Db, later: Db, parent: ThreadId)
    requires parent < |db.threads| && TablesOk(db) && TablesOk(later) && Extends(db, later)
              && later.messages == db.messages
    ensures History(later, parent) == History(db, parent)
  {
    LaterAppendsKeepHistory(db, later, parent);
    assert OwnSince(later, parent, |db.messages|, |later.messages|) == [];
  }

  /** A fork sees exactly the parent's history up to the fork point, and counts on from there. */
  lemma ForkStartsAtPoint(db: Db, parent: ThreadId, point: MessageId)
    requires TablesOk(db) && ForkThread(db, parent, point).Some?
    ensures var later := ForkThread(db, parent, point).value;
            var child := |db.threads|;
            && TablesOk(later) && later.threads[child].lastSeq == db.messages[point].seqNo
            && History(later, child) == UpTo(db, History(db, parent), Some(db.messages[point].seqNo))
            && point in History(later, child)
  {
    var later := ForkThread(db, parent, point).value;
    var child := |db.threads|;
    ForkKeepsTables(db, parent, point);
    ParentKeepsHistory(db, later, parent);
    var inherited := History(db, parent);
    assert forall k :: 0 <= k < |inherited| ==> inherited[k] in inherited;
    UpToSame(db, later, inherited, Some(Number(db, point)));
    OwnOfNewThread(later, child, |later.messages|);
    UpToMembers(db, inherited, Some(Number(db, point)));
    HistoryIsVisible(db, parent, point);
  }
}
