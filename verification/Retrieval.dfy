/** Retrieval: merging the windows of an article and choosing the best articles. */
module Retrieval {
  import opened Store
  import opened Sorting
  import opened Ids
  import opened LawStore
  import opened LawPoints
  import opened Strip
  import opened Windows

  datatype Hit = Hit(uri: string, score: real, payload: Chunk)

  // ---- one hit per article -------------------------------------------------

  /** The first of the best hits of an article, None when it has none. */
  function Best(hits: seq<Hit>, uri: string): Option<Hit> {
    if hits == [] then None
    else
      var before, last := Best(hits[..|hits| - 1], uri), hits[|hits| - 1];
      if last.payload.uri == uri && (before.None? || last.score > before.value.score) then Some(last) else before
  }

  /** The articles in the order of their first hits. */
  function Articles(hits: seq<Hit>): seq<string> {
    if hits == [] then []
    else
      var before, uri := Articles(hits[..|hits| - 1]), hits[|hits| - 1].payload.uri;
      if uri in before then before else before + [uri]
  }

  /** Position `b` holds the first of the best hits of an article. */
  ghost predicate FirstBest(hits: seq<Hit>, uri: string, b: nat) {
    && b < |hits| && hits[b].payload.uri == uri
    && (forall i :: 0 <= i < |hits| && hits[i].payload.uri == uri ==> hits[i].score <= hits[b].score)
    && (forall i :: 0 <= i < b && hits[i].payload.uri == uri ==> hits[i].score < hits[b].score)
  }

  lemma {:induction false} BestIs(hits: seq<Hit>, uri: string)
    ensures Best(hits, uri).None? <==> forall i :: 0 <= i < |hits| ==> hits[i].payload.uri != uri
    ensures Best(hits, uri).Some? ==> exists b: nat :: FirstBest(hits, uri, b) && hits[b] == Best(hits, uri).value
  {
    if hits != [] {
      var n := |hits| - 1;
      var init := hits[..n];
      BestIs(init, uri);
      assert forall i :: 0 <= i < n ==> init[i] == hits[i];
      if Best(init, uri).Some? {
        var b: nat :| FirstBest(init, uri, b) && init[b] == Best(init, uri).value;
        var k := if hits[n].payload.uri == uri && hits[n].score > hits[b].score then n else b;
        assert FirstBest(hits, uri, k) && hits[k] == Best(hits, uri).value;
      } else if hits[n].payload.uri == uri {
        assert FirstBest(hits, uri, n);
      }
    }
  }

  lemma {:induction false} ArticlesAre(hits: seq<Hit>)
    ensures forall uri :: uri in Articles(hits) <==> Best(hits, uri).Some?
    ensures forall i, j :: 0 <= i < j < |Articles(hits)| ==> Articles(hits)[i] != Articles(hits)[j]
  {
    if hits != [] { ArticlesAre(hits[..|hits| - 1]); }
  }

  function Descending(h: Hit): real {
    -h.score
  }

  function Winners(hits: seq<Hit>, uris: seq<string>): (out: seq<Hit>)
    requires forall i :: 0 <= i < |uris| ==> Best(hits, uris[i]).Some?
    ensures |out| == |uris| && forall i :: 0 <= i < |uris| ==> out[i] == Best(hits, uris[i]).value
  {
    seq(|uris|, i requires 0 <= i < |uris| => Best(hits, uris[i]).value)
  }

  function Deduped(hits: seq<Hit>): seq<Hit> {
    ArticlesAre(hits);
    StableSort(Winners(hits, Articles(hits)), (h: Hit) => Descending(h))
  }

  /** The insertion-ordered dictionary of the loop: its keys in order, and its values. */
  method DedupByArticle(hits: seq<Hit>) returns (out: seq<Hit>)
    ensures out == Deduped(hits)
  {
    var keys: seq<string>, best: map<string, Hit> := [], map[];
    for i := 0 to |hits|
      invariant keys == Articles(hits[..i])
      invariant forall uri :: uri in best <==> Best(hits[..i], uri).Some?
      invariant forall uri :: uri in best ==> best[uri] == Best(hits[..i], uri).value
    {
      var h := hits[i];
      var u := h.payload.uri;
      ArticlesAre(hits[..i]);
      assert hits[..i + 1][..i] == hits[..i];
      if u !in best || h.score > best[u].score {
        if u !in best { keys := keys + [u]; }
        best := best[u := h];
      }
    }
    assert hits[..|hits|] == hits;
    ArticlesAre(hits);
    var values := seq(|keys|, i requires 0 <= i < |keys| && keys[i] in best => best[keys[i]]);
    assert values == Winners(hits, Articles(hits));
    out := StableSort(values, (h: Hit) => Descending(h));
  }

  /** The result of merging: each entry is the winner of an article, each article has exactly one,
  and scores do not increase. */
  ghost predicate Merged(hits: seq<Hit>, out: seq<Hit>) {
    && (forall i :: 0 <= i < |out| ==> Best(hits, out[i].payload.uri) == Some(out[i]))
    && (forall i, j :: 0 <= i < j < |out| ==> out[i].payload.uri != out[j].payload.uri)
    && (forall i, j :: 0 <= i < j < |out| ==> out[i].score >= out[j].score)
    && (forall uri :: Best(hits, uri).Some? ==> Best(hits, uri).value in out)
  }

  lemma BestHasUri(hits: seq<Hit>, uri: string)
    ensures Best(hits, uri).Some? ==> Best(hits, uri).value.payload.uri == uri && Best(hits, uri).value in hits
  {
    BestIs(hits, uri);
  }

  lemma SortedMembers(a: seq<Hit>, b: seq<Hit>)
    requires multiset(a) == multiset(b)
    ensures forall h :: h in a <==> h in b
  {
    forall h ensures h in a <==> h in b {
      assert h in multiset(a) <==> h in a;
      assert h in multiset(b) <==> h in b;
    }
  }

  /** A permutation of distinct items has distinct items. */
  lemma DistinctUris(a: seq<Hit>, b: seq<Hit>)
    requires multiset(a) == multiset(b)
    requires forall i, j :: 0 <= i < j < |a| ==> a[i].payload.uri != a[j].payload.uri
    ensures forall i, j :: 0 <= i < j < |b| ==> b[i].payload.uri != b[j].payload.uri
  {
    forall i, j | 0 <= i < j < |b| ensures b[i].payload.uri != b[j].payload.uri {
      SortedMembers(a, b);
      assert b[i] in a && b[j] in a;
      if b[i] == b[j] {
        Twice(b, i, j);
        Once(a, b[i]);
      }
    }
  }

  lemma Twice(s: seq<Hit>, i: nat, j: nat)
    requires i < j < |s| && s[i] == s[j]
    ensures multiset(s)[s[i]] >= 2
  {
    assert s == s[..j] + [s[j]] + s[j + 1..];
    assert s[..j][i] == s[i] && s[i] in multiset(s[..j]);
  }

  lemma {:induction false} Once(s: seq<Hit>, h: Hit)
    requires forall i, j :: 0 <= i < j < |s| ==> s[i].payload.uri != s[j].payload.uri
    ensures multiset(s)[h] <= 1
  {
    if s != [] {
      assert s == [s[0]] + s[1..];
      Once(s[1..], h);
      if h == s[0] { assert forall i :: 0 <= i < |s[1..]| ==> s[1..][i] == s[i + 1]; }
    }
  }

  /** Main result: merging leaves exactly one hit per article, its first best-scoring window, in
  order of score. */
  lemma DedupMerges(hits: seq<Hit>)
    ensures Merged(hits, Deduped(hits))
  {
    hide Best, Articles;
    ArticlesAre(hits);
    var winners, key := Winners(hits, Articles(hits)), (h: Hit) => Descending(h);
    var out := Deduped(hits);
    SortSorts(winners, key);
    SortedMembers(winners, out);
    forall i | 0 <= i < |winners| ensures winners[i].payload.uri == Articles(hits)[i]
        && Best(hits, winners[i].payload.uri) == Some(winners[i]) {
      BestHasUri(hits, Articles(hits)[i]);
    }
    DistinctUris(winners, out);
    forall i | 0 <= i < |out| ensures Best(hits, out[i].payload.uri) == Some(out[i]) {
      assert out[i] in winners;
    }
    forall i, j | 0 <= i < j < |out| ensures out[i].score >= out[j].score {
      assert key(out[i]) <= key(out[j]);
    }
    forall uri | Best(hits, uri).Some? ensures Best(hits, uri).value in out {
      var i :| 0 <= i < |Articles(hits)| && Articles(hits)[i] == uri;
      assert winners[i] in winners;
    }
  }

  // ---- retrieval -----------------------------------------------------------

  datatype LawRef = LawRef(id: PointId, title: string, ref: string, snippet: string, uri: string,
                           resourceId: string, effDate: string, score: real, articleText: string)

  function ToLawRef(h: Hit): LawRef {
    var full := if h.payload.articleText != "" then h.payload.articleText else h.payload.text;
    LawRef(IdOf(h.payload.uri, 0), h.payload.statute, h.payload.statute + " " + h.payload.articleNo,
           full[..if |full| < 200 then |full| else 200], h.payload.uri, h.payload.resourceId, h.payload.effDate,
               h.score, full)
  }

  type Relation = (string, string, string)
  datatype AnswerContext = AnswerContext(articles: seq<LawRef>, relations: seq<Relation>, query: string)
  datatype Outcome = Answer(context: AnswerContext) | NotImplemented

  /** The first `k` entries, as a Python slice takes them. */
  function Top(hits: seq<Hit>, k: int): seq<Hit> {
    hits[..Bound(|hits|, k)]
  }

  function LawRefs(hits: seq<Hit>): (out: seq<LawRef>)
    ensures |out| == |hits| && forall i :: 0 <= i < |hits| ==> out[i] == ToLawRef(hits[i])
  {
    seq(|hits|, i requires 0 <= i < |hits| => ToLawRef(hits[i]))
  }

  /** What a search for current points may answer; scores are the vector store's. */
  ghost predicate FromCurrent(hits: seq<Hit>, points: Points) {
    forall i :: 0 <= i < |hits| ==>
      exists id :: id in points && points[id].payload == hits[i].payload && points[id].payload.isCurrent
  }

  /** A reranker scores the hits anew and may drop and reorder them. */
  ghost predicate Reranks(rerank: seq<Hit> -> seq<Hit>) {
    forall hits: seq<Hit>, i :: 0 <= i < |rerank(hits)| ==>
      exists j :: 0 <= j < |hits| && rerank(hits)[i].payload == hits[j].payload
  }

  /** Reranking comes before merging, so that the window that fits best stands for its article; a
  failing graph costs the relations only. `found` is the answer of the vector store and `expand`
  that of the graph, None when it raises. */
  function Retrieve(query: string, asOf: Option<string>, k: int, found: seq<Hit>,
                    reranker: Option<seq<Hit> -> seq<Hit>>,
                    expand: set<string> -> Option<seq<Relation>>): Outcome
  {
    if asOf.Some? then NotImplemented
    else
      var ranked := if reranker.Some? then reranker.value(found) else found;
      var hits := Top(Deduped(ranked), k);
      var resources := set h <- hits :: ResourceIri(h.payload.resourceId);
      var relations := expand(resources);
      Answer(AnswerContext(LawRefs(hits), if relations.Some? then relations.value else [], query))
  }

  lemma TopIsBest(hits: seq<Hit>, k: nat, h: Hit)
    requires h in hits
    ensures var out := Top(Deduped(hits), k);
            && |out| == (if |Deduped(hits)| < k then |Deduped(hits)| else k)
            && ((exists i :: 0 <= i < |out| && out[i].payload.uri == h.payload.uri && out[i].score >= h.score)
                || (|out| == k && forall i :: 0 <= i < |out| ==> out[i].score >= h.score))
  {
    hide Best, Deduped;
    DedupMerges(hits);
    BestIs(hits, h.payload.uri);
    var all, out := Deduped(hits), Top(Deduped(hits), k);
    var b := Best(hits, h.payload.uri).value;
    assert b.score >= h.score && b in all;
    var p :| 0 <= p < |all| && all[p] == b;
    if p < |out| { assert out[p] == b && b.payload.uri == h.payload.uri; }
    forall i | 0 <= i < |out| && p >= |out| ensures out[i].score >= h.score {
      assert out[i] == all[i] && all[i].score >= all[p].score;
    }
  }

  lemma RetrieveShape(query: string, k: int, found: seq<Hit>, reranker: Option<seq<Hit> -> seq<Hit>>,
                      expand: set<string> -> Option<seq<Relation>>)
    ensures Retrieve(query, None, k, found, reranker, expand).Answer?
    ensures Retrieve(query, None, k, found, reranker, expand).context.articles
         == LawRefs(Top(Deduped(if reranker.Some? then reranker.value(found) else found), k))
  {
    hide Deduped, Top, LawRefs;
  }

  /** Main result: at most `k` articles, each once and under an id of its own, best first; a hit
  that is not represented is beaten by all of them; and the graph does not matter for that. */
  lemma RetrievesBestArticles(query: string, k: nat, found: seq<Hit>, reranker: Option<seq<Hit> -> seq<Hit>>,
                              expand: set<string> -> Option<seq<Relation>>,
                              expand': set<string> -> Option<seq<Relation>>)
    ensures var out := Retrieve(query, None, k, found, reranker, expand);
            var ranked := if reranker.Some? then reranker.value(found) else found;
            && out.Answer? && |out.context.articles| <= k
            && (forall i, j :: 0 <= i < j < |out.context.articles| ==>
                  out.context.articles[i].uri != out.context.articles[j].uri
                      && out.context.articles[i].id != out.context.articles[j].id
                  && out.context.articles[i].score >= out.context.articles[j].score)
            && (forall h :: h in ranked ==>
                  (exists i :: 0 <= i < |out.context.articles| && out.context.articles[i].uri == h.payload.uri
                      && out.context.articles[i].score >= h.score)
                  || (|out.context.articles| == k && forall i :: 0 <= i < k ==>
                      out.context.articles[i].score >= h.score))
            && Retrieve(query, None, k, found, reranker, expand').context.articles == out.context.articles
  {
    hide Deduped, Best;
    var ranked := if reranker.Some? then reranker.value(found) else found;
    var hits := Top(Deduped(ranked), k);
    RetrieveShape(query, k, found, reranker, expand);
    RetrieveShape(query, k, found, reranker, expand');
    DedupMerges(ranked);
    forall h | h in ranked
      ensures (exists i :: 0 <= i < |hits| && hits[i].payload.uri == h.payload.uri && hits[i].score >= h.score)
           || (|hits| == k && forall i :: 0 <= i < k ==> hits[i].score >= h.score)
    {
      TopIsBest(ranked, k, h);
    }
    Represented(ranked, hits, k);
  }

  /** What holds of hits holds of the references made from them. */
  lemma Represented(ranked: seq<Hit>, hits: seq<Hit>, k: nat)
    requires forall h :: h in ranked ==>
               (exists i :: 0 <= i < |hits| && hits[i].payload.uri == h.payload.uri && hits[i].score >= h.score)
               || (|hits| == k && forall i :: 0 <= i < k ==> hits[i].score >= h.score)
    ensures forall h :: h in ranked ==>
              (exists i :: 0 <= i < |LawRefs(hits)| && LawRefs(hits)[i].uri == h.payload.uri
                  && LawRefs(hits)[i].score >= h.score)
              || (|LawRefs(hits)| == k && forall i :: 0 <= i < k ==> LawRefs(hits)[i].score >= h.score)
  {
    forall h | h in ranked
      ensures (exists i :: 0 <= i < |LawRefs(hits)| && LawRefs(hits)[i].uri == h.payload.uri
                && LawRefs(hits)[i].score >= h.score)
           || (|LawRefs(hits)| == k && forall i :: 0 <= i < k ==> LawRefs(hits)[i].score >= h.score)
    {
      if i :| 0 <= i < |hits| && hits[i].payload.uri == h.payload.uri && hits[i].score >= h.score {
        assert LawRefs(hits)[i] == ToLawRef(hits[i]);
      }
    }
  }

  // ---- one version per article ---------------------------------------------

  lemma CurrentHit(loads: seq<Load>, p: Chunk, id: PointId)
    requires LoadsOk(loads) && id in After(loads) && After(loads)[id].payload == p && p.isCurrent
    ensures LastDate(loads, p.resourceId) == Some(p.effDate)
    ensures p.uri == ExpressionIri(p.resourceId, p.effDate) + "/" + p.articleNo
  {
    hide After, LastDate, ExpressionIri;
    CurrentIsLastLoaded(loads, id);
  }

  /** The hits that are ranked are current points as the loads left them. */
  ghost predicate AllCurrent(hits: seq<Hit>, loads: seq<Load>) {
    forall h :: h in hits ==>
      && LastDate(loads, h.payload.resourceId) == Some(h.payload.effDate)
      && h.payload.uri == ExpressionIri(h.payload.resourceId, h.payload.effDate) + "/" + h.payload.articleNo
  }

  lemma FoundAreCurrent(loads: seq<Load>, found: seq<Hit>)
    requires LoadsOk(loads) && FromCurrent(found, After(loads))
    ensures AllCurrent(found, loads)
  {
    hide After, LastDate, ExpressionIri;
    forall h | h in found
      ensures LastDate(loads, h.payload.resourceId) == Some(h.payload.effDate)
      ensures h.payload.uri == ExpressionIri(h.payload.resourceId, h.payload.effDate) + "/" + h.payload.articleNo
    {
      var i :| 0 <= i < |found| && found[i] == h;
      var id :| id in After(loads) && After(loads)[id].payload == found[i].payload
          && After(loads)[id].payload.isCurrent;
      CurrentHit(loads, h.payload, id);
    }
  }

  lemma RerankedAreCurrent(loads: seq<Load>, found: seq<Hit>, rerank: seq<Hit> -> seq<Hit>)
    requires AllCurrent(found, loads) && Reranks(rerank)
    ensures AllCurrent(rerank(found), loads)
  {
    hide LastDate, ExpressionIri;
    forall h | h in rerank(found)
      ensures LastDate(loads, h.payload.resourceId) == Some(h.payload.effDate)
      ensures h.payload.uri == ExpressionIri(h.payload.resourceId, h.payload.effDate) + "/" + h.payload.articleNo
    {
      var i :| 0 <= i < |rerank(found)| && rerank(found)[i] == h;
      var j :| 0 <= j < |found| && rerank(found)[i].payload == found[j].payload;
      assert found[j] in found;
    }
  }

  lemma MergedAreHits(hits: seq<Hit>, k: int, i: nat)
    requires i < |Top(Deduped(hits), k)|
    ensures Top(Deduped(hits), k)[i] in hits
  {
    hide Best, Deduped;
    DedupMerges(hits);
    BestHasUri(hits, Deduped(hits)[i].payload.uri);
  }

  lemma TopDistinct(hits: seq<Hit>, k: int, i: nat, j: nat)
    requires i < j < |Top(Deduped(hits), k)|
    ensures Top(Deduped(hits), k)[i].payload.uri != Top(Deduped(hits), k)[j].payload.uri
  {
    hide Best, Deduped;
    DedupMerges(hits);
  }

  /** Main result: whatever was loaded, in whatever order, no answer shows two versions or two
  windows of an article, and every entry is of the version of its law that was loaded last. */
  lemma OneVersionPerArticle(loads: seq<Load>, k: int, found: seq<Hit>, reranker: Option<seq<Hit> -> seq<Hit>>)
    requires LoadsOk(loads) && FromCurrent(found, After(loads)) && (reranker.Some? ==> Reranks(reranker.value))
    ensures var hits := Top(Deduped(if reranker.Some? then reranker.value(found) else found), k);
            && (forall i :: 0 <= i < |hits| ==>
                  LastDate(loads, hits[i].payload.resourceId) == Some(hits[i].payload.effDate))
            && (forall i, j :: 0 <= i < j < |hits| ==>
                  || hits[i].payload.resourceId != hits[j].payload.resourceId
                  || hits[i].payload.articleNo != hits[j].payload.articleNo)
  {
    hide After, LastDate, ExpressionIri, Deduped, Top, FromCurrent, Reranks;
    var ranked := if reranker.Some? then reranker.value(found) else found;
    var hits := Top(Deduped(ranked), k);
    FoundAreCurrent(loads, found);
    if reranker.Some? { RerankedAreCurrent(loads, found, reranker.value); }
    forall i | 0 <= i < |hits| ensures LastDate(loads, hits[i].payload.resourceId) == Some(hits[i].payload.effDate) {
      MergedAreHits(ranked, k, i);
    }
    forall i, j | 0 <= i < j < |hits|
      ensures hits[i].payload.resourceId != hits[j].payload.resourceId
                || hits[i].payload.articleNo != hits[j].payload.articleNo
    {
      MergedAreHits(ranked, k, i);
      MergedAreHits(ranked, k, j);
      TopDistinct(ranked, k, i, j);
    }
  }

  // ---- what an entry shows -------------------------------------------------

  /** The entry shows the article of a payload: the whole text for answering, which is the window when a
  point has none, a short form for display, and title, reference, law and date. */
  predicate ShowsArticle(entry: LawRef, p: Chunk) {
    && entry.articleText == (if p.articleText == "" then p.text else p.articleText)
    && entry.snippet <= entry.articleText
    && (|entry.snippet| == 200 <= |entry.articleText| || (entry.snippet == entry.articleText && |entry.snippet| < 200))
    && entry.title == p.statute && entry.ref == p.statute + " " + p.articleNo
    && entry.uri == p.uri && entry.resourceId == p.resourceId && entry.effDate == p.effDate
    && entry.id == IdOf(p.uri, 0)
  }

  lemma RefShowsArticle(h: Hit)
    ensures ShowsArticle(ToLawRef(h), h.payload) && ToLawRef(h).score == h.score
  {
  }

  /** Main result: a query for a past date is refused. Otherwise each entry of the answer shows the article of a
  ranked hit with that hit's score, the relations are what the graph finds around exactly the laws of
  the entries, or none when the graph fails, and the query is passed on. */
  lemma {:induction false} AnswerShowsHits(query: string, asOf: Option<string>, k: int, found: seq<Hit>,
                                           reranker: Option<seq<Hit> -> seq<Hit>>,
                                           expand: set<string> -> Option<seq<Relation>>)
    ensures var out := Retrieve(query, asOf, k, found, reranker, expand);
            var ranked := if reranker.Some? then reranker.value(found) else found;
            && (out.NotImplemented? <==> asOf.Some?)
            && (asOf.None? ==>
                  && out.context.query == query
                  && (forall entry :: entry in out.context.articles ==>
                        exists h :: h in ranked && ShowsArticle(entry, h.payload) && entry.score == h.score)
                  && out.context.relations ==
                     match expand(set entry <- out.context.articles :: BASE + "/법령/" + entry.resourceId)
                     case Some(relations) => relations
                     case None => [])
  {
    hide Deduped, Top, ShowsArticle;
    if asOf.None? {
      var ranked := if reranker.Some? then reranker.value(found) else found;
      var hits := Top(Deduped(ranked), k);
      forall i | 0 <= i < |hits| ensures hits[i] in ranked && ShowsArticle(LawRefs(hits)[i], hits[i].payload) {
        MergedAreHits(ranked, k, i);
        RefShowsArticle(hits[i]);
      }
      SameResources(hits);
    }
  }

  lemma SameResources(hits: seq<Hit>)
    ensures (set h <- hits :: ResourceIri(h.payload.resourceId))
         == (set entry <- LawRefs(hits) :: BASE + "/법령/" + entry.resourceId)
  {
    forall h | h in hits ensures exists entry :: entry in LawRefs(hits) && entry.resourceId == h.payload.resourceId {
      var i :| 0 <= i < |hits| && hits[i] == h;
      assert LawRefs(hits)[i] in LawRefs(hits);
    }
  }

  /** The payload is that of some stored point that is current. */
  ghost predicate CurrentPayload(loads: seq<Load>, p: Chunk)
    requires LoadsOk(loads)
  {
    exists id :: id in After(loads) && After(loads)[id].payload == p && p.isCurrent
  }

  lemma RankedAreStored(loads: seq<Load>, found: seq<Hit>, reranker: Option<seq<Hit> -> seq<Hit>>, h: Hit)
    requires LoadsOk(loads) && FromCurrent(found, After(loads)) && (reranker.Some? ==> Reranks(reranker.value))
    requires h in if reranker.Some? then reranker.value(found) else found
    ensures CurrentPayload(loads, h.payload)
  {
    hide After, LoadsOk;
    var f := h;
    if reranker.Some? {
      var i :| 0 <= i < |reranker.value(found)| && reranker.value(found)[i] == h;
      var j :| 0 <= j < |found| && h.payload == found[j].payload;
      f := found[j];
    }
    var i :| 0 <= i < |found| && found[i] == f;
    var id :| id in After(loads) && After(loads)[id].payload == found[i].payload && After(loads)[id].payload.isCurrent;
  }

  /** The entry shows an article of a load of the law's last loaded version, whole. */
  ghost predicate ShowsLoaded(loads: seq<Load>, entry: LawRef, j: nat, a: ArticleRec) {
    && j < |loads| && a in loads[j].arts
    && entry.articleText == a.text && entry.snippet <= a.text && |entry.snippet| <= 200
    && entry.resourceId == Trim(loads[j].raw.lawId) && entry.title == Trim(loads[j].raw.statute)
    && entry.effDate == Iso(Trim(loads[j].raw.effDate)) && LastDate(loads, entry.resourceId) == Some(entry.effDate)
    && entry.ref == entry.title + " " + Segment(Int(a.articleNo), AsNum(a.branchNo))
    && entry.uri == ArticleIri(entry.resourceId, Trim(loads[j].raw.effDate), Int(a.articleNo), AsNum(a.branchNo))
    && entry.id == IdOf(entry.uri, 0)
  }

  lemma EntryShowsLoaded(loads: seq<Load>, entry: LawRef, p: Chunk)
    requires LoadsOk(loads) && CurrentPayload(loads, p) && ShowsArticle(entry, p)
    ensures exists j, a :: ShowsLoaded(loads, entry, j, a)
  {
    hide After, LastDate, Trim, Iso, Segment, ArticleIri, IdOf, Split, LoadsOk;
    var id :| id in After(loads) && After(loads)[id].payload == p;
    PointTellsArticle(loads, id);
    CurrentIsLastLoaded(loads, id);
    var j, a :| 0 <= j < |loads| && a in loads[j].arts && Tells(p, loads[j].raw, a);
    assert ShowsLoaded(loads, entry, j, a);
  }

  /** Main result: after any sequence of loads, whatever the vector store finds and however it is reranked,
  each entry of an answer shows the whole text of an article of a load, under the law and the date of that
  load, and that date is the one loaded last for the law. */
  lemma {:induction false} AnswersShowLoadedArticles(loads: seq<Load>, query: string, k: int, found: seq<Hit>,
                                                     reranker: Option<seq<Hit> -> seq<Hit>>,
                                                     expand: set<string> -> Option<seq<Relation>>)
    requires LoadsOk(loads) && FromCurrent(found, After(loads)) && (reranker.Some? ==> Reranks(reranker.value))
    ensures var out := Retrieve(query, None, k, found, reranker, expand);
            out.Answer? && forall entry :: entry in out.context.articles ==>
                exists j, a :: ShowsLoaded(loads, entry, j, a)
  {
    hide After, LoadsOk, FromCurrent, Reranks, Retrieve, ShowsArticle, ShowsLoaded, CurrentPayload;
    AnswerShowsHits(query, None, k, found, reranker, expand);
    var out := Retrieve(query, None, k, found, reranker, expand);
    var ranked := if reranker.Some? then reranker.value(found) else found;
    forall entry | entry in out.context.articles ensures exists j, a :: ShowsLoaded(loads, entry, j, a) {
      var h :| h in ranked && ShowsArticle(entry, h.payload);
      RankedAreStored(loads, found, reranker, h);
      EntryShowsLoaded(loads, entry, h.payload);
    }
  }
}
