/** What the stored points hold: the windows of the loaded articles, each with the vector of its own text. */
module LawPoints {
  import opened Store
  import opened Strip
  import opened Ids
  import opened Windows
  import opened Batches
  import opened LawStore

  // ---- each text has its own vector --------------------------------------

  lemma {:induction false} LastOfId(points: Points, batch: seq<(PointId, Point)>, i: nat)
    requires i < |batch| && forall j :: i < j < |batch| ==> batch[j].0 != batch[i].0
    ensures batch[i].0 in Stored(points, batch) && Stored(points, batch)[batch[i].0] == batch[i].1
  {
    if i < |batch| - 1 { LastOfId(points, batch[..|batch| - 1], i); }
  }

  /** Main result: a chunk that no later one of the same id follows is stored with its own vector, and with
  its own text, source and place; the text of its article is the window when the chunk has none. */
  lemma ChunkKeepsItsVector(points: Points, chunks: seq<Chunk>, vectors: seq<Vector>, i: nat)
    requires |chunks| == |vectors| && i < |chunks|
    requires forall j :: i < j < |chunks| ==> Key(chunks[j]) != Key(chunks[i])
    ensures var out := Stored(points, Entries(chunks, vectors));
            && IdOf(chunks[i].uri, chunks[i].part) in out
            && var p := out[IdOf(chunks[i].uri, chunks[i].part)];
               && p.vector == vectors[i]
               && p.payload.(articleText := "") == chunks[i].(articleText := "")
               && p.payload.articleText == if chunks[i].articleText == "" then chunks[i].text else chunks[i].articleText
  {
    hide IdOf;
    LastOfId(points, Entries(chunks, vectors), i);
  }

  /** Every entry of a batch made from honest vectors pairs a text with its vector. */
  lemma {:induction false} StoredVectors(points: Points, chunks: seq<Chunk>, vector: string -> Vector, id: PointId)
    requires InBatch(Entries(chunks, Mapped(LawStore.Texts(chunks), vector)), id)
    ensures id in Stored(points, Entries(chunks, Mapped(LawStore.Texts(chunks), vector)))
    ensures var p := Stored(points, Entries(chunks, Mapped(LawStore.Texts(chunks), vector)))[id];
            p.vector == vector(p.payload.text)
  {
    hide Stored, Key;
    var batch := Entries(chunks, Mapped(LawStore.Texts(chunks), vector));
    StoredAt(points, batch, id);
    var i :| 0 <= i < |batch| && batch[i] == (id, Stored(points, batch)[id]);
    assert batch[i] == (Key(chunks[i]), PointOf(chunks[i], vector(chunks[i].text)));
  }

  /** Main result: with a server that embeds honestly, in whatever order it replies, a load gets its vectors and
  each point that it writes holds the vector of its own text. */
  lemma LoadPairsTexts(points: Points, meta: LawMeta, arts: seq<ArticleRec>, server: seq<string> -> seq<Datum<Vector>>,
                       vector: string -> Vector, id: PointId)
    requires Honest(server, vector) && Written(meta, arts, id)
    ensures var vectors := AllVectors(Greedy(LawStore.Texts(Chunks(meta, arts)), CHAR_BUDGET), server);
            && vectors.Some? && |vectors.value| == |Chunks(meta, arts)|
            && var out := Loaded(points, meta, arts, vectors.value);
               id in out && out[id].vector == vector(out[id].payload.text)
  {
    hide Stored, Chunks, Written, Honest, AllVectors, Greedy, Iso;
    var chunks := Chunks(meta, arts);
    BatchingIsInvisible(LawStore.Texts(chunks), CHAR_BUDGET, server, vector);
    WrittenIsInBatch(meta, arts, Mapped(LawStore.Texts(chunks), vector), id);
    StoredVectors(points, chunks, vector, id);
  }

  // ---- each point is a window of a loaded article ------------------------

  /** The payload is a window of that article of that law, with the whole text of the article. */
  ghost predicate Tells(p: Chunk, raw: LawMeta, a: ArticleRec) {
    var law, date, article, branch := Trim(raw.lawId), Trim(raw.effDate), Int(a.articleNo), AsNum(a.branchNo);
    && p.resourceId == law && p.statute == Trim(raw.statute) && p.effDate == Iso(date) && p.ministry == raw.ministry
    && p.uri == ArticleIri(law, date, article, branch) && p.articleNo == Segment(article, branch)
    && p.articleKey == a.articleKey
    && p.part < |Split(a.text, 450, 64)| && p.text == Split(a.text, 450, 64)[p.part]
    && p.articleText == a.text != ""
  }

  lemma {:induction false} ChunkTells(raw: LawMeta, arts: seq<ArticleRec>, c: Chunk) returns (a: ArticleRec)
    requires c in Chunks(Parsed(raw), arts)
    ensures a in arts && Tells(c, raw, a)
  {
    hide Trim, Split, Iso, ArticleIri, Segment;
    var init, last := arts[..|arts| - 1], arts[|arts| - 1];
    if c in Chunks(Parsed(raw), init) {
      a := ChunkTells(raw, init, c);
    } else {
      a := last;
      var i :| 0 <= i < |ArticleChunks(Parsed(raw), a)| && ArticleChunks(Parsed(raw), a)[i] == c;
      if a.text == "" { NoWindows(); }
    }
  }

  lemma NoWindows()
    ensures Split("", MAX_CHARS, OVERLAP) == []
  {
  }

  /** Some load has an article of which the payload is a window. */
  ghost predicate FromLoads(loads: seq<Load>, p: Chunk) {
    exists j, a :: 0 <= j < |loads| && a in loads[j].arts && Tells(p, loads[j].raw, a)
  }

  lemma LoadedTells(loads: seq<Load>, id: PointId, p: Point)
    requires loads != []
    requires var last := loads[|loads| - 1]; FromChunks(Chunks(Parsed(last.raw), last.arts), id, p)
    ensures FromLoads(loads, p.payload) && id == IdOf(p.payload.uri, p.payload.part)
  {
    hide Chunks, Tells, IdOf, Parsed;
    var last := loads[|loads| - 1];
    var c, v :| c in Chunks(Parsed(last.raw), last.arts) && id == Key(c) && p == PointOf(c, v);
    var a := ChunkTells(last.raw, last.arts, c);
    TextIsKept(c, v, last.raw, a);
    assert loads[|loads| - 1] == last;
  }

  lemma TextIsKept(c: Chunk, v: Vector, raw: LawMeta, a: ArticleRec)
    requires Tells(c, raw, a)
    ensures Tells(PointOf(c, v).payload, raw, a)
  {
    hide Trim, Split, Iso, ArticleIri, Segment;
  }

  lemma DemotedTells(loads: seq<Load>, last: Load, p: Point)
    requires FromLoads(loads, p.payload)
    ensures FromLoads(loads + [last], p.payload) && FromLoads(loads + [last], Demoted(p).payload)
  {
    hide Trim, Split, Iso, ArticleIri, Segment;
    var j, a :| 0 <= j < |loads| && a in loads[j].arts && Tells(p.payload, loads[j].raw, a);
    assert (loads + [last])[j] == loads[j];
    assert Tells(Demoted(p).payload, loads[j].raw, a);
  }

  lemma LoadKeepsTelling(points: Points, loads: seq<Load>, last: Load, id: PointId)
    requires LoadOk(last) && id in LoadedBy(points, last)
    requires id in points ==>
               var p := points[id].payload;
               FromLoads(loads, p) && id == IdOf(p.uri, p.part)
    ensures var p := LoadedBy(points, last)[id].payload; FromLoads(loads + [last], p) && id == IdOf(p.uri, p.part)
  {
    hide Loaded, Chunks, Written, FromChunks, FromLoads, Iso, IdOf, Parsed;
    LoadedAt(points, Parsed(last.raw), last.arts, last.vectors, id);
    if Written(Parsed(last.raw), last.arts, id) {
      LoadedTells(loads + [last], id, LoadedBy(points, last)[id]);
    } else {
      DemotedTells(loads, last, points[id]);
    }
  }

  lemma AfterLoad(loads: seq<Load>)
    requires loads != [] && LoadsOk(loads)
    ensures var before, last := loads[..|loads| - 1], loads[|loads| - 1];
            loads == before + [last] && LoadsOk(before) && LoadOk(last) && After(loads) == LoadedBy(After(before), last)
  {
    hide LoadOk, LoadedBy;
  }

  lemma AfterNothing()
    ensures LoadsOk([]) && After([]) == map[]
  {
  }

  /** Main result: after any sequence of completed loads every stored point is a window of an article of a
  load, carries the whole text of that article, its law, date and place, and lies under their id. */
  lemma {:induction false} PointTellsArticle(loads: seq<Load>, id: PointId)
    requires LoadsOk(loads) && id in After(loads)
    ensures var p := After(loads)[id].payload;
            FromLoads(loads, p) && id == IdOf(p.uri, p.part)
    decreases |loads|
  {
    hide After, LoadsOk, LoadOk, LoadedBy, FromLoads, IdOf;
    if loads == [] {
      AfterNothing();
    } else {
      var before, last := loads[..|loads| - 1], loads[|loads| - 1];
      AfterLoad(loads);
      if id in After(before) { PointTellsArticle(before, id); }
      LoadKeepsTelling(After(before), before, last, id);
    }
  }

  // ---- each window is stored ---------------------------------------------

  /** Main result: a load stores every window of every article under the id of its article and part, as a
  current point of its law and date. */
  lemma {:induction false} EveryWindowIsStored(points: Points, raw: LawMeta, arts: seq<ArticleRec>,
                                               vectors: seq<Vector>, a: ArticleRec, part: nat)
    requires |vectors| == |Chunks(Parsed(raw), arts)| && a in arts && part < |Split(a.text, 450, 64)|
    ensures var law, date := Trim(raw.lawId), Trim(raw.effDate);
            var id := IdOf(ArticleIri(law, date, Int(a.articleNo), AsNum(a.branchNo)), part);
            var out := Loaded(points, Parsed(raw), arts, vectors);
            && id in out && out[id].payload.isCurrent
            && out[id].payload.resourceId == law && out[id].payload.effDate == Iso(date)
  {
    hide Loaded, Chunks, FromChunks, Written, ArticleIri, Iso, IdOf, Trim, Split, Segment;
    var c := ChunkOf(Parsed(raw), a, Split(a.text, 450, 64)[part], part);
    WindowIsChunk(Parsed(raw), arts, a, part);
    var id := Key(c);
    WrittenByChunk(Parsed(raw), arts, c);
    LoadedAt(points, Parsed(raw), arts, vectors, id);
    LoadedPoint(Parsed(raw), arts, id, Loaded(points, Parsed(raw), arts, vectors)[id]);
  }

  lemma WrittenByChunk(meta: LawMeta, arts: seq<ArticleRec>, c: Chunk)
    requires c in Chunks(meta, arts)
    ensures Written(meta, arts, Key(c))
  {
  }

  lemma {:induction false} WindowIsChunk(meta: LawMeta, arts: seq<ArticleRec>, a: ArticleRec, part: nat)
    requires a in arts && part < |Split(a.text, 450, 64)|
    ensures ChunkOf(meta, a, Split(a.text, 450, 64)[part], part) in Chunks(meta, arts)
  {
    hide ChunkOf, Split;
    var init, last := arts[..|arts| - 1], arts[|arts| - 1];
    if a in init {
      WindowIsChunk(meta, init, a, part);
    } else {
      assert ArticleChunks(meta, last)[part] in ArticleChunks(meta, last);
    }
  }
}
