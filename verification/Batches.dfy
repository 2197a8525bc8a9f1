/** The remote embedding client: greedy batching under a character budget. */
module Batches {
  import opened Store
  import opened Sorting

  type Texts = seq<string>

  function Total(batch: Texts): nat {
    if batch == [] then 0 else |batch[0]| + Total(batch[1..])
  }

  /** How many more items fit into the characters left. */
  function Room(texts: Texts, left: int): (n: nat)
    ensures n <= |texts|
  {
    if texts == [] || |texts[0]| > left then 0 else 1 + Room(texts[1..], left - |texts[0]|)
  }

  /** The length of the first batch: one item at least, whatever its size. */
  function Fill(texts: Texts, budget: int): (n: nat)
    requires texts != []
    ensures 1 <= n <= |texts|
  {
    1 + Room(texts[1..], budget - |texts[0]|)
  }

  /** The batches, each as long as the budget allows. */
  function Greedy(texts: Texts, budget: int): seq<Texts>
    decreases |texts|
  {
    if texts == [] then []
    else [texts[..Fill(texts, budget)]] + Greedy(texts[Fill(texts, budget)..], budget)
  }

  function Flat<T>(parts: seq<seq<T>>): seq<T> {
    if parts == [] then [] else parts[0] + Flat(parts[1..])
  }

  /** A request within the budget, or a single item that cannot be split. */
  predicate Admissible(batch: Texts, budget: int) {
    Total(batch) <= budget || |batch| <= 1
  }

  predicate AllAdmissible(parts: seq<Texts>, budget: int) {
    forall i :: 0 <= i < |parts| ==> Admissible(parts[i], budget)
  }

  // ---- order and budget ----------------------------------------------------

  lemma {:induction false} TotalConcat(a: Texts, b: Texts)
    ensures Total(a + b) == Total(a) + Total(b)
  {
    if a == [] {
      assert a + b == b;
    } else {
      assert (a + b)[1..] == a[1..] + b;
      TotalConcat(a[1..], b);
    }
  }

  /** What fits, fits, and nothing longer does. */
  lemma {:induction false} RoomBound(texts: Texts, left: int, n: nat)
    requires n <= |texts|
    ensures n <= Room(texts, left) <==> n == 0 || Total(texts[..n]) <= left
  {
    if n > 0 {
      RoomBound(texts[1..], left - |texts[0]|, n - 1);
      assert texts[..n][1..] == texts[1..][..n - 1];
    }
  }

  lemma {:induction false} GreedyBatches(texts: Texts, budget: int)
    ensures Flat(Greedy(texts, budget)) == texts
    ensures AllAdmissible(Greedy(texts, budget), budget)
    ensures forall i :: 0 <= i < |Greedy(texts, budget)| ==> Greedy(texts, budget)[i] != []
    decreases |texts|
  {
    hide Admissible;
    if texts != [] {
      var n := Fill(texts, budget);
      FirstAdmissible(texts, budget);
      GreedyBatches(texts[n..], budget);
      var rest := Greedy(texts[n..], budget);
      assert Greedy(texts, budget) == [texts[..n]] + rest;
    }
  }

  lemma FirstAdmissible(texts: Texts, budget: int)
    requires texts != []
    ensures Admissible(texts[..Fill(texts, budget)], budget)
  {
    var n := Fill(texts, budget);
    RoomBound(texts[1..], budget - |texts[0]|, n - 1);
    assert texts[..n][1..] == texts[1..][..n - 1];
  }

  // ---- fewest requests -----------------------------------------------------

  /** The first `k` items taken off a split. */
  function Without(parts: seq<Texts>, k: nat): (rest: seq<Texts>)
    requires k <= |Flat(parts)|
    ensures |rest| <= |parts|
  {
    if parts == [] then []
    else if k <= |parts[0]| then [parts[0][k..]] + parts[1..]
    else Without(parts[1..], k - |parts[0]|)
  }

  lemma AdmissibleSuffix(batch: Texts, k: nat, budget: int)
    requires k <= |batch| && Admissible(batch, budget)
    ensures Admissible(batch[k..], budget)
  {
    TotalConcat(batch[..k], batch[k..]);
    assert batch == batch[..k] + batch[k..];
  }

  /** A split of a list gives one of any suffix, with no more parts. */
  lemma {:induction false} WithoutSplits(parts: seq<Texts>, k: nat, budget: int)
    requires k <= |Flat(parts)| && AllAdmissible(parts, budget)
    ensures Flat(Without(parts, k)) == Flat(parts)[k..] && AllAdmissible(Without(parts, k), budget)
  {
    hide Admissible;
    if parts != [] {
      if k <= |parts[0]| {
        AdmissibleSuffix(parts[0], k, budget);
        assert ([parts[0][k..]] + parts[1..])[1..] == parts[1..];
      } else {
        WithoutSplits(parts[1..], k - |parts[0]|, budget);
        assert Flat(parts)[k..] == Flat(parts[1..])[k - |parts[0]|..];
      }
    }
  }

  /** No admissible first part is longer than the greedy one. */
  lemma LongestFirst(texts: Texts, n: nat, budget: int)
    requires texts != [] && n <= |texts| && Admissible(texts[..n], budget)
    ensures n <= Fill(texts, budget)
  {
    if n > 1 {
      RoomBound(texts[1..], budget - |texts[0]|, n - 1);
      assert texts[..n][1..] == texts[1..][..n - 1];
    }
  }

  /** Main result: no split of the texts into admissible requests, in order, has fewer of them. */
  lemma {:induction false} FewestRequests(texts: Texts, budget: int, parts: seq<Texts>)
    requires Flat(parts) == texts && AllAdmissible(parts, budget)
    ensures |Greedy(texts, budget)| <= |parts|
    decreases |texts|
  {
    hide Admissible;
    if texts != [] {
      var n, m := Fill(texts, budget), |parts[0]|;
      assert parts[0] == texts[..m] && Flat(parts[1..]) == texts[m..];
      LongestFirst(texts, m, budget);
      WithoutSplits(parts[1..], n - m, budget);
      assert texts[m..][n - m..] == texts[n..];
      FewestRequests(texts[n..], budget, Without(parts[1..], n - m));
    }
  }

  // ---- the client ----------------------------------------------------------

  /** One item of a reply; a missing index counts as 0. */
  datatype Datum<V> = Datum(index: Option<int>, embedding: V)

  function Index<V>(d: Datum<V>): real {
    if d.index.None? then 0.0 else d.index.value as real
  }

  /** The reply sorted by index, or None when the counts differ. */
  function Vectors<V>(batch: Texts, reply: seq<Datum<V>>): Option<seq<V>> {
    if batch == [] then Some([])
    else if |reply| != |batch| then None
    else Some(Embeddings(StableSort(reply, (d: Datum<V>) => Index(d))))
  }

  function Embeddings<V>(reply: seq<Datum<V>>): (out: seq<V>)
    ensures |out| == |reply| && forall i :: 0 <= i < |reply| ==> out[i] == reply[i].embedding
  {
    seq(|reply|, i requires 0 <= i < |reply| => reply[i].embedding)
  }

  /** All batches in turn; the first wrong count fails the call. */
  function AllVectors<V>(batches: seq<Texts>, server: Texts -> seq<Datum<V>>): Option<seq<V>> {
    if batches == [] then Some([])
    else
      var rest := AllVectors(batches[..|batches| - 1], server);
      var last := Vectors(batches[|batches| - 1], server(batches[|batches| - 1]));
      if rest.None? || last.None? then None else Some(rest.value + last.value)
  }

  lemma {:induction false} RoomOfPrefix(a: Texts, b: Texts, left: int)
    requires a == [] || Total(a) <= left
    ensures Room(a + b, left) == |a| + Room(b, left - Total(a))
  {
    if a == [] {
      assert a + b == b;
    } else {
      assert (a + b)[1..] == a[1..] + b;
      RoomOfPrefix(a[1..], b, left - |a[0]|);
    }
  }

  /** A batch that the next item would overflow is the greedy one. */
  lemma FullBatch(batch: Texts, rest: Texts, budget: int)
    requires batch != [] && Admissible(batch, budget)
    requires rest == [] || Total(batch) + |rest[0]| > budget
    ensures Greedy(batch + rest, budget) == [batch] + Greedy(rest, budget)
  {
    var all := batch + rest;
    assert all[1..] == batch[1..] + rest;
    RoomOfPrefix(batch[1..], rest, budget - |batch[0]|);
    assert Fill(all, budget) == |batch|;
    assert all[..|batch|] == batch && all[|batch|..] == rest;
  }

  lemma AddedBatch<V>(sent: seq<Texts>, batch: Texts, server: Texts -> seq<Datum<V>>)
    ensures AllVectors(sent + [batch], server) ==
            var rest, last := AllVectors(sent, server), Vectors(batch, server(batch));
            if rest.None? || last.None? then None else Some(rest.value + last.value)
  {
    assert (sent + [batch])[..|sent|] == sent;
  }

  lemma FailedPrefix<V>(sent: seq<Texts>, more: seq<Texts>, server: Texts -> seq<Datum<V>>)
    requires AllVectors(sent, server).None?
    ensures AllVectors(sent + more, server).None?
    decreases |more|
  {
    if more == [] {
      assert sent + more == sent;
    } else {
      assert (sent + more)[..|sent + more| - 1] == sent + more[..|more| - 1];
      FailedPrefix(sent, more[..|more| - 1], server);
    }
  }

  lemma StillAdmissible(batch: Texts, t: string, budget: int)
    requires batch == [] || Total(batch) + |t| <= budget
    ensures Admissible(batch + [t], budget) && Total(batch + [t]) == Total(batch) + |t|
  {
    TotalConcat(batch, [t]);
    assert Total([t]) == |t|;
  }

  /** The last request is the first whose reply has the wrong length. */
  predicate FirstFailure<V>(sent: seq<Texts>, server: Texts -> seq<Datum<V>>)
    requires sent != []
  {
    && AllVectors(sent[..|sent| - 1], server).Some?
    && Vectors(sent[|sent| - 1], server(sent[|sent| - 1])).None?
  }

  /** The client's loop: it sends exactly the greedy batches, in order, and stops at the first
  reply of the wrong length. */
  method Embed<V>(texts: Texts, budget: int, server: Texts -> seq<Datum<V>>)
    returns (out: Option<seq<V>>, sent: seq<Texts>)
    ensures out == AllVectors(Greedy(texts, budget), server)
    ensures sent <= Greedy(texts, budget) && (out.Some? ==> sent == Greedy(texts, budget))
    ensures out.None? ==> sent != [] && FirstFailure(sent, server)
  {
    hide Vectors, Greedy;
    sent, out := [], Some([]);
    var batch: Texts := [];
    var acc := 0;
    assert [] + texts[0..] == texts;
    for i := 0 to |texts|
      invariant acc == Total(batch) && Admissible(batch, budget) && (i > 0 ==> batch != [])
      invariant Greedy(texts, budget) == sent + Greedy(batch + texts[i..], budget)
      invariant out.Some? && out == AllVectors(sent, server)
    {
      var t := texts[i];
      if batch != [] && acc + |t| > budget {
        FullBatch(batch, texts[i..], budget);
        AddedBatch(sent, batch, server);
        var reply := Vectors(batch, server(batch));
        ghost var sent0 := sent;
        sent := sent + [batch];
        assert Greedy(texts, budget) == sent + Greedy(texts[i..], budget);
        if reply.None? {
          assert sent[..|sent| - 1] == sent0;
          FailedPrefix(sent, Greedy(texts[i..], budget), server);
          return None, sent;
        }
        out := Some(out.value + reply.value);
        batch, acc := [], 0;
        assert [] + texts[i..] == texts[i..];
      }
      StillAdmissible(batch, t, budget);
      assert batch + texts[i..] == (batch + [t]) + texts[i + 1..];
      batch := batch + [t];
      acc := acc + |t|;
    }
    if batch != [] {
      FullBatch(batch, texts[|texts|..], budget);
      GreedyOfNothing(budget);
      AddedBatch(sent, batch, server);
      var reply := Vectors(batch, server(batch));
      assert (sent + [batch])[..|sent|] == sent;
      sent := sent + [batch];
      out := if reply.None? then None else Some(out.value + reply.value);
      assert Greedy(texts, budget) == sent;
    } else {
      GreedyOfNothing(budget);
      assert Greedy(texts, budget) == sent;
    }
  }

  lemma GreedyOfNothing(budget: int)
    ensures Greedy([], budget) == []
  {
  }

  // ---- what a correct server's replies add up to ----------------------------

  /** The server answers a batch with one vector per text, indexed, in whatever order. */
  ghost predicate Honest<V(!new)>(server: Texts -> seq<Datum<V>>, vector: string -> V) {
    forall batch: Texts :: multiset(server(batch)) == multiset(Numbered(batch, vector))
  }

  function Numbered<V>(batch: Texts, vector: string -> V): (out: seq<Datum<V>>)
    ensures |out| == |batch| && forall i :: 0 <= i < |batch| ==> out[i] == Datum(Some(i), vector(batch[i]))
  {
    seq(|batch|, i requires 0 <= i < |batch| => Datum(Some(i), vector(batch[i])))
  }

  function Mapped<V>(texts: Texts, vector: string -> V): (out: seq<V>)
    ensures |out| == |texts| && forall i :: 0 <= i < |texts| ==> out[i] == vector(texts[i])
  {
    seq(|texts|, i requires 0 <= i < |texts| => vector(texts[i]))
  }

  lemma HonestBatch<V(!new)>(batch: Texts, server: Texts -> seq<Datum<V>>, vector: string -> V)
    requires Honest(server, vector)
    ensures Vectors(batch, server(batch)) == Some(Mapped(batch, vector))
  {
    var reply, numbered := server(batch), Numbered(batch, vector);
    var key := (d: Datum<V>) => Index(d);
    assert |reply| == |multiset(reply)| && |numbered| == |multiset(numbered)|;
    SortSorts(reply, key);
    StrictUnique(StableSort(reply, key), numbered, key);
    assert Embeddings(numbered) == Mapped(batch, vector);
    assert batch == [] ==> Mapped(batch, vector) == [];
  }

  lemma {:induction false} HonestBatches<V(!new)>(batches: seq<Texts>, server: Texts -> seq<Datum<V>>,
                                                  vector: string -> V)
    requires Honest(server, vector)
    ensures AllVectors(batches, server) == Some(Mapped(Flat(batches), vector))
  {
    hide Honest, Vectors;
    if batches == [] {
    } else {
      var init, last := batches[..|batches| - 1], batches[|batches| - 1];
      HonestBatches(init, server, vector);
      HonestBatch(last, server, vector);
      FlatLast(batches);
      assert Mapped(Flat(batches), vector) == Mapped(Flat(init), vector) + Mapped(last, vector);
    }
  }

  /** A call that succeeds yields as many vectors as there were texts, whatever the server sends. */
  lemma {:induction false} OneVectorPerText<V>(batches: seq<seq<string>>, server: seq<string> -> seq<Datum<V>>)
    ensures AllVectors(batches, server).Some? ==> |AllVectors(batches, server).value| == |Flat(batches)|
  {
    if batches != [] {
      OneVectorPerText(batches[..|batches| - 1], server);
      FlatLast(batches);
    }
  }

  lemma {:induction false} FlatLast<T>(parts: seq<seq<T>>)
    requires parts != []
    ensures Flat(parts) == Flat(parts[..|parts| - 1]) + parts[|parts| - 1]
  {
    if |parts| > 1 {
      FlatLast(parts[1..]);
      assert parts[1..][..|parts| - 2] == parts[..|parts| - 1][1..];
    }
  }

  /** Main result: batching does not show. The vectors come back one per text and in the order of
  the texts, however the server orders its replies. */
  lemma BatchingIsInvisible<V(!new)>(texts: Texts, budget: int, server: Texts -> seq<Datum<V>>, vector: string -> V)
    requires Honest(server, vector)
    ensures AllVectors(Greedy(texts, budget), server) == Some(Mapped(texts, vector))
  {
    GreedyBatches(texts, budget);
    HonestBatches(Greedy(texts, budget), server, vector);
  }
}
