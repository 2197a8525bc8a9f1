/** Loading laws into the vector store: chunks, upsert, and superseding older versions. */
module LawStore {
  import opened Store
  import opened Strip
  import opened Ids
  import opened Windows
  import opened Batches

  type Vector = seq<real>

  datatype LawMeta = LawMeta(lawId: string, statute: string, effDate: string, ministry: string)
  datatype ArticleRec = ArticleRec(articleNo: int, branchNo: Option<int>, articleKey: string, text: string)

  /** A window of an article, and the payload of its point. */
  datatype Chunk = Chunk(
    uri: string, resourceId: string, statute: string, articleNo: string, articleKey: string,
    effDate: string, ministry: string, text: string, isCurrent: bool, part: nat, articleText: string)

  datatype Point = Point(payload: Chunk, vector: Vector)

  type Points = map<PointId, Point>

  /** The parser strips what the law service sends. */
  function Parsed(raw: LawMeta): LawMeta {
    LawMeta(Trim(raw.lawId), Trim(raw.statute), Trim(raw.effDate), raw.ministry)
  }

  // ---- chunks --------------------------------------------------------------

  function ChunkOf(meta: LawMeta, a: ArticleRec, window: string, part: nat): Chunk {
    Chunk(ArticleIri(meta.lawId, meta.effDate, Int(a.articleNo), AsNum(a.branchNo)), meta.lawId, meta.statute,
          Segment(Int(a.articleNo), AsNum(a.branchNo)), a.articleKey, Iso(meta.effDate), meta.ministry,
          window, true, part, a.text)
  }

  function ArticleChunks(meta: LawMeta, a: ArticleRec): (out: seq<Chunk>)
    ensures |out| == |Split(a.text, MAX_CHARS, OVERLAP)|
  {
    var windows := Split(a.text, MAX_CHARS, OVERLAP);
    seq(|windows|, i requires 0 <= i < |windows| => ChunkOf(meta, a, windows[i], i))
  }

  /** The chunks of a law: every window of every article, in order. A blank article has none. */
  function Chunks(meta: LawMeta, arts: seq<ArticleRec>): seq<Chunk> {
    if arts == [] then []
    else Chunks(meta, arts[..|arts| - 1]) + ArticleChunks(meta, arts[|arts| - 1])
  }

  lemma ChunksNext(meta: LawMeta, arts: seq<ArticleRec>, i: nat)
    requires i < |arts|
    ensures Chunks(meta, arts[..i + 1]) == Chunks(meta, arts[..i]) + ArticleChunks(meta, arts[i])
  {
    hide ArticleChunks;
    assert arts[..i + 1][..i] == arts[..i];
  }

  lemma BlankArticle(meta: LawMeta, a: ArticleRec)
    requires Trim(a.text) == ""
    ensures ArticleChunks(meta, a) == []
  {
  }

  method BuildChunks(meta: LawMeta, arts: seq<ArticleRec>) returns (chunks: seq<Chunk>)
    ensures chunks == Chunks(meta, arts)
  {
    hide ChunkOf, Split, Chunks, Trim;
    chunks := [];
    ChunksOfNothing(meta, arts);
    for i := 0 to |arts|
      invariant chunks == Chunks(meta, arts[..i])
    {
      var a := arts[i];
      ChunksNext(meta, arts, i);
      if Trim(a.text) != "" {
        var windows := SplitWindows(a.text, MAX_CHARS, OVERLAP);
        for part := 0 to |windows|
          invariant chunks == Chunks(meta, arts[..i]) + ArticleChunks(meta, a)[..part]
        {
          chunks := chunks + [ChunkOf(meta, a, windows[part], part)];
        }
        assert ArticleChunks(meta, a)[..|windows|] == ArticleChunks(meta, a);
      } else {
        BlankArticle(meta, a);
      }
    }
    assert arts[..|arts|] == arts;
  }

  lemma ChunksOfNothing(meta: LawMeta, arts: seq<ArticleRec>)
    ensures Chunks(meta, arts[..0]) == []
  {
  }

  /** Every chunk is a window of an article of the law. */
  lemma {:induction false} ChunkSource(meta: LawMeta, arts: seq<ArticleRec>, c: Chunk)
    requires c in Chunks(meta, arts)
    ensures exists a, window, part: nat :: a in arts && c == ChunkOf(meta, a, window, part)
  {
    hide ChunkOf, Split;
    var init, last := arts[..|arts| - 1], arts[|arts| - 1];
    if c in Chunks(meta, init) {
      ChunkSource(meta, init, c);
    } else {
      assert c in ArticleChunks(meta, last);
    }
  }

  // ---- the store -----------------------------------------------------------

  function PointOf(c: Chunk, v: Vector): Point {
    Point(c.(articleText := if c.articleText != "" then c.articleText else c.text), v)
  }

  function Key(c: Chunk): PointId {
    IdOf(c.uri, c.part)
  }

  /** Points are stored in order, so of two with the same id the later one stays. */
  function Stored(points: Points, batch: seq<(PointId, Point)>): Points {
    if batch == [] then points
    else Stored(points, batch[..|batch| - 1])[batch[|batch| - 1].0 := batch[|batch| - 1].1]
  }

  function Entries(chunks: seq<Chunk>, vectors: seq<Vector>): (out: seq<(PointId, Point)>)
    requires |chunks| == |vectors|
    ensures |out| == |chunks|
  {
    seq(|chunks|, i requires 0 <= i < |chunks| => (Key(chunks[i]), PointOf(chunks[i], vectors[i])))
  }

  predicate Outdated(p: Point, lawId: string, keep: string) {
    p.payload.resourceId == lawId && p.payload.effDate != keep
  }

  function Demoted(p: Point): Point {
    p.(payload := p.payload.(isCurrent := false))
  }

  function Superseded(points: Points, lawId: string, keep: string): (out: Points)
    ensures out.Keys == points.Keys
  {
    map id | id in points :: if Outdated(points[id], lawId, keep) then Demoted(points[id]) else points[id]
  }

  class QdrantVector {
    var points: Points

    constructor ()
      ensures points == map[]
    {
      points := map[];
    }

    /** Fails, changing nothing, when the lengths differ. */
    method Upsert(chunks: seq<Chunk>, vectors: seq<Vector>) returns (ok: bool)
      modifies this
      ensures ok == (|chunks| == |vectors|)
      ensures points == if |chunks| == |vectors| then Stored(old(points), Entries(chunks, vectors)) else old(points)
    {
      hide Key, PointOf, Stored;
      if |chunks| != |vectors| { return false; }
      var batch: seq<(PointId, Point)> := [];
      for i := 0 to |chunks|
        invariant batch == Entries(chunks, vectors)[..i]
      {
        batch := batch + [(Key(chunks[i]), PointOf(chunks[i], vectors[i]))];
      }
      assert Entries(chunks, vectors)[..|chunks|] == Entries(chunks, vectors);
      points := Stored(points, batch);
      ok := true;
    }

    /** Demotes, never deletes, the other versions of a law. */
    method Supersede(lawId: string, keep: string)
      modifies this
      ensures points.Keys == old(points).Keys
      ensures forall id :: id in points ==>
                var p := old(points)[id];
                points[id] == if p.payload.resourceId == lawId && p.payload.effDate != keep
                              then p.(payload := p.payload.(isCurrent := false)) else p
    {
      var todo := points.Keys;
      while todo != {}
        invariant todo <= points.Keys == old(points).Keys
        invariant forall id :: id in points ==>
                    points[id] == if id !in todo && Outdated(old(points)[id], lawId, keep) then Demoted(old(points)[id])
                                  else old(points)[id]
        decreases |todo|
      {
        var id :| id in todo;
        todo := todo - {id};
        if Outdated(points[id], lawId, keep) { points := points[id := Demoted(points[id])]; }
      }
    }
  }

  // ---- loading a law -------------------------------------------------------

  function Texts(chunks: seq<Chunk>): (out: seq<string>)
    ensures |out| == |chunks|
  {
    seq(|chunks|, i requires 0 <= i < |chunks| => chunks[i].text)
  }

  const CHAR_BUDGET := 4000

  function Loaded(points: Points, meta: LawMeta, arts: seq<ArticleRec>, vectors: seq<Vector>): Points
    requires |vectors| == |Chunks(meta, arts)|
  {
    Superseded(Stored(points, Entries(Chunks(meta, arts), vectors)), meta.lawId, Iso(meta.effDate))
  }

  /** The named graph of a version, standing for its triples. */
  datatype LawGraph = LawGraph(meta: LawMeta, arts: seq<ArticleRec>)

  function GraphUri(meta: LawMeta): string {
    BASE + "/graph/" + meta.lawId + "/" + meta.effDate
  }

  class NamedGraphs {
    var graphs: map<string, LawGraph>

    constructor ()
      ensures graphs == map[]
    {
      graphs := map[];
    }
  }

  /** The steps of loading a law. `resolved` is what the law service answers, None when the name is
  ambiguous or unknown; `accepts` says whether the graph store takes the upload. No point is stored
  unless every text has its vector; when only the vectors fail, the graph has been replaced already. */
  method IngestLaw(store: NamedGraphs, vector: QdrantVector, resolved: Option<(LawMeta, seq<ArticleRec>)>,
                   accepts: bool, server: seq<string> -> seq<Datum<Vector>>) returns (ok: bool)
    modifies store, vector
    ensures ok ==> resolved.Some? && accepts
    ensures resolved.None? || !accepts ==>
              store.graphs == old(store.graphs) && vector.points == old(vector.points)
    ensures resolved.Some? && accepts ==>
              var meta, arts := Parsed(resolved.value.0), resolved.value.1;
              var vectors := AllVectors(Greedy(Texts(Chunks(meta, arts)), CHAR_BUDGET), server);
              && store.graphs == old(store.graphs)[GraphUri(meta) := LawGraph(meta, arts)]
              && ok == vectors.Some?
              && (ok ==> |vectors.value| == |Chunks(meta, arts)|
                         && vector.points == Loaded(old(vector.points), meta, arts, vectors.value))
              && (!ok ==> vector.points == old(vector.points))
  {
    hide AllVectors, Greedy, Stored, Chunks, Texts, Parsed, GraphUri;
    if resolved.None? { return false; }
    var meta, arts := Parsed(resolved.value.0), resolved.value.1;
    if !accepts { return false; }
    store.graphs := store.graphs[GraphUri(meta) := LawGraph(meta, arts)];
    var chunks := BuildChunks(meta, arts);
    var vectors, sent := Embed(Texts(chunks), CHAR_BUDGET, server);
    if vectors.None? { return false; }
    OneVectorPerText(Greedy(Texts(chunks), CHAR_BUDGET), server);
    GreedyBatches(Texts(chunks), CHAR_BUDGET);
    ok := vector.Upsert(chunks, vectors.value);
    vector.Supersede(meta.lawId, Iso(meta.effDate));
    assert vector.points == Loaded(old(vector.points), meta, arts, vectors.value);
  }

  // ---- what a load changes -------------------------------------------------

  ghost predicate InBatch(batch: seq<(PointId, Point)>, id: PointId) {
    exists i :: 0 <= i < |batch| && batch[i].0 == id
  }

  lemma {:induction false} StoredAt(points: Points, batch: seq<(PointId, Point)>, id: PointId)
    ensures id in Stored(points, batch) <==> id in points || InBatch(batch, id)
    ensures !InBatch(batch, id) && id in points ==> Stored(points, batch)[id] == points[id]
    ensures InBatch(batch, id) ==> (id, Stored(points, batch)[id]) in batch
  {
    if batch != [] {
      var n := |batch| - 1;
      StoredAt(points, batch[..n], id);
      assert InBatch(batch, id) <==> InBatch(batch[..n], id) || batch[n].0 == id by {
        if InBatch(batch, id) && batch[n].0 != id {
          var i :| 0 <= i < |batch| && batch[i].0 == id;
          assert batch[..n][i].0 == id;
        }
        if InBatch(batch[..n], id) {
          var i :| 0 <= i < n && batch[..n][i].0 == id;
          assert batch[i].0 == id;
        }
        if batch[n].0 == id { assert InBatch(batch, id); }
      }
      assert batch == batch[..n] + [batch[n]];
    }
  }

  ghost predicate FromChunks(chunks: seq<Chunk>, id: PointId, p: Point) {
    exists c, v :: c in chunks && id == Key(c) && p == PointOf(c, v)
  }

  lemma BatchEntry(chunks: seq<Chunk>, vectors: seq<Vector>, id: PointId, p: Point)
    requires |chunks| == |vectors| && (id, p) in Entries(chunks, vectors)
    ensures FromChunks(chunks, id, p)
  {
    hide Key, PointOf;
    var i :| 0 <= i < |chunks| && Entries(chunks, vectors)[i] == (id, p);
    assert chunks[i] in chunks && id == Key(chunks[i]) && p == PointOf(chunks[i], vectors[i]);
  }

  /** The ids that a load writes. */
  ghost predicate Written(meta: LawMeta, arts: seq<ArticleRec>, id: PointId) {
    exists c :: c in Chunks(meta, arts) && Key(c) == id
  }

  lemma WrittenIsInBatch(meta: LawMeta, arts: seq<ArticleRec>, vectors: seq<Vector>, id: PointId)
    requires |vectors| == |Chunks(meta, arts)|
    ensures Written(meta, arts, id) <==> InBatch(Entries(Chunks(meta, arts), vectors), id)
  {
    hide Key, PointOf, Chunks;
    var chunks := Chunks(meta, arts);
    if Written(meta, arts, id) {
      var i :| 0 <= i < |chunks| && Key(chunks[i]) == id;
      assert Entries(chunks, vectors)[i].0 == id;
    }
    if InBatch(Entries(chunks, vectors), id) {
      var i :| 0 <= i < |chunks| && Entries(chunks, vectors)[i].0 == id;
      assert chunks[i] in chunks;
    }
  }

  /** A point of a load: one of its chunks, current and with its law and date. */
  lemma LoadedPoint(meta: LawMeta, arts: seq<ArticleRec>, id: PointId, p: Point)
    requires FromChunks(Chunks(meta, arts), id, p)
    ensures p.payload.resourceId == meta.lawId && p.payload.effDate == Iso(meta.effDate) && p.payload.isCurrent
    ensures id == IdOf(p.payload.uri, p.payload.part)
    ensures p.payload.uri == ExpressionIri(meta.lawId, meta.effDate) + "/" + p.payload.articleNo
  {
    hide Chunks, Iso, ExpressionIri, Segment;
    var c, v :| c in Chunks(meta, arts) && id == Key(c) && p == PointOf(c, v);
    ChunkSource(meta, arts, c);
  }

  /** Everything a load does to one id. */
  lemma LoadedAt(points: Points, meta: LawMeta, arts: seq<ArticleRec>, vectors: seq<Vector>, id: PointId)
    requires |vectors| == |Chunks(meta, arts)|
    ensures var out := Loaded(points, meta, arts, vectors);
            && (id in out <==> id in points || Written(meta, arts, id))
            && (Written(meta, arts, id) ==> FromChunks(Chunks(meta, arts), id, out[id]))
            && (!Written(meta, arts, id) && id in points ==>
                  out[id] == if Outdated(points[id], meta.lawId, Iso(meta.effDate)) then Demoted(points[id])
                             else points[id])
  {
    hide Stored, InBatch, Written, Entries, FromChunks, Chunks, Iso;
    var chunks := Chunks(meta, arts);
    var batch := Entries(chunks, vectors);
    WrittenIsInBatch(meta, arts, vectors, id);
    StoredAt(points, batch, id);
    if InBatch(batch, id) {
      BatchEntry(chunks, vectors, id, Stored(points, batch)[id]);
      LoadedPoint(meta, arts, id, Stored(points, batch)[id]);
    }
  }

  // ---- sequences of loads --------------------------------------------------

  datatype Load = Load(raw: LawMeta, arts: seq<ArticleRec>, vectors: seq<Vector>)

  predicate LoadOk(l: Load) {
    |l.vectors| == |Chunks(Parsed(l.raw), l.arts)|
  }

  predicate LoadsOk(loads: seq<Load>) {
    forall i :: 0 <= i < |loads| ==> LoadOk(loads[i])
  }

  function LoadedBy(points: Points, l: Load): Points
    requires LoadOk(l)
  {
    Loaded(points, Parsed(l.raw), l.arts, l.vectors)
  }

  function After(loads: seq<Load>): Points
    requires LoadsOk(loads)
  {
    hide LoadOk;
    if loads == [] then map[]
    else LoadedBy(After(loads[..|loads| - 1]), loads[|loads| - 1])
  }

  /** The date of the last load of a law. */
  function LastDate(loads: seq<Load>, lawId: string): Option<string> {
    if loads == [] then None
    else
      var last := Parsed(loads[|loads| - 1].raw);
      if last.lawId == lawId then Some(Iso(last.effDate)) else LastDate(loads[..|loads| - 1], lawId)
  }

  /** A point's IRI is determined by its law, its date and its article. */
  predicate UriOk(p: Point) {
    p.payload.uri == ExpressionIri(p.payload.resourceId, p.payload.effDate) + "/" + p.payload.articleNo
  }

  lemma LoadedUri(raw: LawMeta, arts: seq<ArticleRec>, id: PointId, p: Point)
    requires FromChunks(Chunks(Parsed(raw), arts), id, p)
    ensures UriOk(p)
  {
    hide Chunks, Iso, WithoutDashes, Trim, FromChunks;
    LoadedPoint(Parsed(raw), arts, id, p);
    IsoKeepsDate(Parsed(raw).effDate);
    TrimIdempotent(raw.effDate);
  }

  /** The invariant of every sequence of loads, for one stored point. */
  ghost predicate PointOk(loads: seq<Load>, p: Point) {
    && UriOk(p)
    && (p.payload.isCurrent ==> LastDate(loads, p.payload.resourceId) == Some(p.payload.effDate))
  }

  lemma LastDateAfter(loads: seq<Load>, lawId: string)
    requires loads != []
    ensures var last := Parsed(loads[|loads| - 1].raw);
            LastDate(loads, lawId) == if last.lawId == lawId then Some(Iso(last.effDate))
                                      else LastDate(loads[..|loads| - 1], lawId)
  {
  }

  lemma LoadKeepsPoint(loads: seq<Load>, id: PointId)
    requires loads != [] && LoadsOk(loads) && id in After(loads)
    requires id in After(loads[..|loads| - 1]) ==> PointOk(loads[..|loads| - 1], After(loads[..|loads| - 1])[id])
    ensures PointOk(loads, After(loads)[id])
  {
    hide Loaded, Chunks, Written, FromChunks, Iso, Trim, LastDate, ExpressionIri;
    var last, before := loads[|loads| - 1], loads[..|loads| - 1];
    var meta := Parsed(last.raw);
    LoadedAt(After(before), meta, last.arts, last.vectors, id);
    var p := After(loads)[id];
    LastDateAfter(loads, p.payload.resourceId);
    if Written(meta, last.arts, id) {
      LoadedPoint(meta, last.arts, id, p);
      LoadedUri(last.raw, last.arts, id, p);
    }
  }

  lemma {:induction false} PointsStayOk(loads: seq<Load>, id: PointId)
    requires LoadsOk(loads) && id in After(loads)
    ensures PointOk(loads, After(loads)[id])
    decreases |loads|
  {
    hide PointOk, Loaded, LoadOk;
    if loads != [] {
      if id in After(loads[..|loads| - 1]) { PointsStayOk(loads[..|loads| - 1], id); }
      LoadKeepsPoint(loads, id);
    }
  }

  /** Main result: after any sequence of completed loads, every current point of a law carries the
  date that was loaded last for it. */
  lemma CurrentIsLastLoaded(loads: seq<Load>, id: PointId)
    requires LoadsOk(loads) && id in After(loads)
    ensures var p := After(loads)[id].payload;
            && UriOk(After(loads)[id])
            && (p.isCurrent ==> LastDate(loads, p.resourceId) == Some(p.effDate))
  {
    PointsStayOk(loads, id);
  }

  /** Main result: no load deletes a point, and it changes a point that it does not write itself
  only by demoting it, when it is of another version of the same law. */
  lemma NothingDeleted(points: Points, meta: LawMeta, arts: seq<ArticleRec>, vectors: seq<Vector>, id: PointId)
    requires |vectors| == |Chunks(meta, arts)| && id in points
    ensures var out := Loaded(points, meta, arts, vectors);
            && id in out
            && (!Written(meta, arts, id) ==>
                  || out[id] == points[id]
                  || (out[id] == Demoted(points[id]) && Outdated(points[id], meta.lawId, Iso(meta.effDate))))
  {
    LoadedAt(points, meta, arts, vectors, id);
  }

  /** What the ids of a load tell of its law and date. */
  function VersionOf(meta: LawMeta): string {
    Version(meta.lawId, meta.effDate)
  }

  lemma WrittenIsArticle(meta: LawMeta, arts: seq<ArticleRec>, id: PointId)
    requires Written(meta, arts, id)
    ensures exists a: int, m: Option<int>, part: nat ::
              id == IdOf(ArticleIri(meta.lawId, meta.effDate, Int(a), AsNum(m)), part)
  {
    hide Chunks, ArticleIri, IdOf, Segment, Iso;
    var c :| c in Chunks(meta, arts) && Key(c) == id;
    ChunkSource(meta, arts, c);
    var a, w, i: nat :| a in arts && c == ChunkOf(meta, a, w, i);
    assert id == IdOf(ArticleIri(meta.lawId, meta.effDate, Int(a.articleNo), AsNum(a.branchNo)), i);
  }

  /** Main result: two loads write the same id only if law and date read the same in it. */
  lemma SharedIdIsOneVersion(first: LawMeta, firstArts: seq<ArticleRec>, meta: LawMeta, arts: seq<ArticleRec>,
                             id: PointId)
    requires Written(first, firstArts, id) && Written(meta, arts, id)
    ensures VersionOf(first) == VersionOf(meta)
  {
    hide Written, ArticleIri, IdOf, Version;
    WrittenIsArticle(first, firstArts, id);
    WrittenIsArticle(meta, arts, id);
    var a: int, m: Option<int>, part: nat :|
      id == IdOf(ArticleIri(first.lawId, first.effDate, Int(a), AsNum(m)), part);
    var b: int, n: Option<int>, part': nat :| id == IdOf(ArticleIri(meta.lawId, meta.effDate, Int(b), AsNum(n)), part');
    PointIdsEqual(first.lawId, first.effDate, a, m, part, meta.lawId, meta.effDate, b, n, part');
    ArticleIrisEqual(first.lawId, first.effDate, a, m, meta.lawId, meta.effDate, b, n);
  }

  /** Main result: with dates without a slash, or law ids without one, a load never overwrites a point
  of another law or of another version. */
  lemma OtherVersionsKept(first: LawMeta, firstArts: seq<ArticleRec>, meta: LawMeta, arts: seq<ArticleRec>, id: PointId)
    requires ('/' !in first.effDate && '/' !in meta.effDate) || ('/' !in first.lawId && '/' !in meta.lawId)
    requires Written(first, firstArts, id) && Written(meta, arts, id)
    ensures first.lawId == meta.lawId && WithoutDashes(first.effDate) == WithoutDashes(meta.effDate)
  {
    hide Written, WithoutDashes;
    SharedIdIsOneVersion(first, firstArts, meta, arts, id);
    VersionsEqual(first.lawId, first.effDate, meta.lawId, meta.effDate);
  }

  /** Main result: what was loaded last for a law stays stored and current, whatever is loaded for
  other laws afterwards, as long as their law and date read differently. */
  lemma {:induction false} LastLoadStaysCurrent(loads: seq<Load>, i: nat, c: Chunk)
    requires LoadsOk(loads) && i < |loads| && c in Chunks(Parsed(loads[i].raw), loads[i].arts)
    requires forall j :: i < j < |loads| ==>
               Parsed(loads[j].raw).lawId != Parsed(loads[i].raw).lawId
               && VersionOf(Parsed(loads[j].raw)) != VersionOf(Parsed(loads[i].raw))
    ensures Key(c) in After(loads)
    ensures var p := After(loads)[Key(c)].payload;
            p.isCurrent && p.resourceId == Parsed(loads[i].raw).lawId && p.effDate == Iso(Parsed(loads[i].raw).effDate)
    decreases |loads|
  {
    hide Loaded, Chunks, FromChunks, Iso, Trim, Key, VersionOf;
    var last, before := loads[|loads| - 1], loads[..|loads| - 1];
    LoadedAt(After(before), Parsed(last.raw), last.arts, last.vectors, Key(c));
    if i == |loads| - 1 {
      assert Written(Parsed(last.raw), last.arts, Key(c));
      LoadedPoint(Parsed(last.raw), last.arts, Key(c), After(loads)[Key(c)]);
    } else {
      LastLoadStaysCurrent(before, i, c);
      assert Written(Parsed(loads[i].raw), loads[i].arts, Key(c));
      if Written(Parsed(last.raw), last.arts, Key(c)) {
        SharedIdIsOneVersion(Parsed(loads[i].raw), loads[i].arts, Parsed(last.raw), last.arts, Key(c));
      }
    }
  }

  /** Main result: with dates without a slash other laws always read differently. */
  lemma {:induction false} SlashFreeLoadsStayCurrent(loads: seq<Load>, i: nat, c: Chunk)
    requires LoadsOk(loads) && i < |loads| && c in Chunks(Parsed(loads[i].raw), loads[i].arts)
    requires forall j :: i <= j < |loads| ==> '/' !in Parsed(loads[j].raw).effDate
    requires forall j :: i < j < |loads| ==> Parsed(loads[j].raw).lawId != Parsed(loads[i].raw).lawId
    ensures Key(c) in After(loads) && After(loads)[Key(c)].payload.isCurrent
  {
    hide LoadsOk, Chunks, After, Key, Parsed, WithoutDashes;
    forall j | i < j < |loads| ensures VersionOf(Parsed(loads[j].raw)) != VersionOf(Parsed(loads[i].raw)) {
      var m, n := Parsed(loads[j].raw), Parsed(loads[i].raw);
      VersionsEqual(m.lawId, m.effDate, n.lawId, n.effDate);
    }
    LastLoadStaysCurrent(loads, i, c);
  }

  /** Main result: after a load the current points of its law are exactly those it wrote, if and only
  if it wrote every point of the same version that was current before. Loading a version again with
  fewer or shorter articles leaves the others current. */
  lemma {:induction false} CurrentAreWritten(points: Points, meta: LawMeta, arts: seq<ArticleRec>, vectors: seq<Vector>)
    requires |vectors| == |Chunks(meta, arts)|
    ensures var out := Loaded(points, meta, arts, vectors);
            (forall id :: id in out && out[id].payload.resourceId == meta.lawId ==>
                            (out[id].payload.isCurrent <==> Written(meta, arts, id)))
            <==> (forall id :: id in points && SameVersion(points[id], meta) && points[id].payload.isCurrent ==>
                                 Written(meta, arts, id))
  {
    hide Loaded, Chunks, Written, FromChunks, Iso;
    var out := Loaded(points, meta, arts, vectors);
    forall id
      ensures id in out <==> id in points || Written(meta, arts, id)
      ensures Written(meta, arts, id) ==> out[id].payload.isCurrent
      ensures !Written(meta, arts, id) && id in points ==>
                (out[id].payload.resourceId == meta.lawId && out[id].payload.isCurrent
                 <==> SameVersion(points[id], meta) && points[id].payload.isCurrent)
    {
      LoadedAt(points, meta, arts, vectors, id);
      if Written(meta, arts, id) { LoadedPoint(meta, arts, id, out[id]); }
    }
  }

  predicate SameVersion(p: Point, meta: LawMeta) {
    p.payload.resourceId == meta.lawId && p.payload.effDate == Iso(meta.effDate)
  }

  lemma AfterTwo(first: Load, again: Load)
    requires LoadOk(first) && LoadOk(again)
    ensures LoadsOk([first, again]) && After([first, again]) == LoadedBy(LoadedBy(map[], first), again)
  {
    hide LoadOk, LoadedBy;
    assert [first, again][..1] == [first] && [first][..0] == [];
    assert After([first]) == LoadedBy(After([]), first);
  }

  /** Main result: a version that is loaded again without one of its parts keeps that part current. */
  lemma {:induction false} ReloadKeepsSurplus(first: Load, again: Load, c: Chunk)
    requires LoadOk(first) && LoadOk(again) && again.raw == first.raw
    requires c in Chunks(Parsed(first.raw), first.arts) && !Written(Parsed(again.raw), again.arts, Key(c))
    ensures LoadsOk([first, again]) && Key(c) in After([first, again])
    ensures After([first, again])[Key(c)].payload.isCurrent
    ensures SameVersion(After([first, again])[Key(c)], Parsed(again.raw))
  {
    hide Loaded, Chunks, FromChunks, Iso, Trim, Key;
    AfterTwo(first, again);
    var once := LoadedBy(map[], first);
    assert Written(Parsed(first.raw), first.arts, Key(c));
    LoadedAt(map[], Parsed(first.raw), first.arts, first.vectors, Key(c));
    LoadedPoint(Parsed(first.raw), first.arts, Key(c), once[Key(c)]);
    LoadedAt(once, Parsed(again.raw), again.arts, again.vectors, Key(c));
  }

  const SHORT := "가"

  /** An article whose text is one character. */
  function Short(no: int): ArticleRec {
    ArticleRec(no, None, "", SHORT)
  }

  lemma OneChunk(meta: LawMeta, no: int)
    ensures ArticleChunks(meta, Short(no)) == [ChunkOf(meta, Short(no), SHORT, 0)]
  {
    hide ChunkOf;
    assert Trim(SHORT) == SHORT by { TrimOne('가'); }
    assert Split(SHORT, MAX_CHARS, OVERLAP) == [SHORT];
  }

  lemma ShortChunks(meta: LawMeta)
    ensures Chunks(meta, [Short(1)]) == [ChunkOf(meta, Short(1), SHORT, 0)]
    ensures Chunks(meta, [Short(1), Short(2)]) == [ChunkOf(meta, Short(1), SHORT, 0), ChunkOf(meta, Short(2), SHORT, 0)]
  {
    hide ChunkOf, ArticleChunks;
    OneChunk(meta, 1);
    OneChunk(meta, 2);
    assert [Short(1)][..0] == [] && [Short(1), Short(2)][..1] == [Short(1)];
    assert Chunks(meta, []) == [];
  }

  lemma KeysDiffer(meta: LawMeta)
    ensures Key(ChunkOf(meta, Short(1), SHORT, 0)) != Key(ChunkOf(meta, Short(2), SHORT, 0))
  {
    hide ArticleIri, IdOf, Segment, Iso;
    var law, date := meta.lawId, meta.effDate;
    assert AsNum(None) == None;
    PointIdsEqual(law, date, 1, None, 0, law, date, 2, None, 0);
    ArticleIrisEqual(law, date, 1, None, law, date, 2, None);
  }

  lemma TrimOne(c: char)
    requires !IsSpace(c)
    ensures Trim([c]) == [c]
  {
  }

  /** Main result: the surplus part is reachable: two articles are loaded, and then the first alone. */
  lemma SurplusStaysCurrent() returns (loads: seq<Load>, id: PointId)
    ensures |loads| == 2 && LoadsOk(loads) && loads[0].raw == loads[1].raw && loads[1].arts != []
    ensures loads[1].arts <= loads[0].arts && id in After(loads)
    ensures var meta := Parsed(loads[1].raw);
            && After(loads)[id].payload.isCurrent && SameVersion(After(loads)[id], meta)
            && !Written(meta, loads[1].arts, id)
  {
    var raw := LawMeta("001823", "건축법", "20260227", "");
    var meta := Parsed(raw);
    ShortChunks(meta);
    KeysDiffer(meta);
    hide Chunks, ChunkOf, Key, After, Parsed, SameVersion, Short;
    var first, again := Load(raw, [Short(1), Short(2)], [[], []]), Load(raw, [Short(1)], [[]]);
    var c := ChunkOf(meta, Short(2), SHORT, 0);
    ReloadKeepsSurplus(first, again, c);
    loads, id := [first, again], Key(c);
  }

  /** Main result: with law ids without a slash, or dates without one, each version of each law has a graph of
  its own. */
  lemma GraphPerVersion(m: LawMeta, n: LawMeta)
    requires ('/' !in m.lawId && '/' !in n.lawId) || ('/' !in m.effDate && '/' !in n.effDate)
    ensures GraphUri(m) == GraphUri(n) <==> m.lawId == n.lawId && m.effDate == n.effDate
  {
    GraphUriParts(m);
    GraphUriParts(n);
    SamePrefix(BASE + "/graph/", m.lawId + ['/'] + m.effDate, n.lawId + ['/'] + n.effDate);
    if '/' !in m.lawId && '/' !in n.lawId {
      SplitsOnce(m.lawId, n.lawId, '/', m.effDate, n.effDate);
    } else {
      SplitsLast(m.lawId, n.lawId, '/', m.effDate, n.effDate);
    }
  }

  lemma GraphUriParts(m: LawMeta)
    ensures GraphUri(m) == (BASE + "/graph/") + (m.lawId + ['/'] + m.effDate)
  {
  }
}
