/** Canonical IRIs of laws and articles, and the ids derived from them. */
module Ids {
  import opened Decimals
  import opened Store
  import opened Strip

  const BASE := "https://2026agent.kr/law"

  /** An article or branch number, given as a number or as text. */
  datatype Num = Int(i: int) | Text(s: string)

  function Shown(n: Num): string {
    match n
    case Int(i) => Decimal(i)
    case Text(s) => s
  }

  function ResourceIri(lawId: string): string {
    BASE + "/법령/" + lawId
  }

  function WithoutDashes(s: string): (t: string)
    ensures '-' !in t
  {
    if s == "" then "" else Undashed(s[0]) + WithoutDashes(s[1..])
  }

  function Undashed(c: char): (t: string)
    ensures '-' !in t
  {
    if c == '-' then "" else [c]
  }

  function ExpressionIri(lawId: string, effDate: string): string {
    ResourceIri(lawId) + "/" + WithoutDashes(effDate)
  }

  /** The forms that all mean that an article has no branch. */
  predicate NoBranch(branch: Option<Num>) {
    branch in {None, Some(Text("")), Some(Int(0)), Some(Text("0"))}
  }

  /** The branch as it is shown; the forms that mean none show nothing. */
  function Branch(branch: Option<Num>): string {
    if NoBranch(branch) then "" else "의" + Shown(branch.value)
  }

  function Segment(article: Num, branch: Option<Num>): string {
    "제" + Shown(article) + "조" + Branch(branch)
  }

  function ArticleIri(lawId: string, effDate: string, article: Num, branch: Option<Num>): string {
    ExpressionIri(lawId, effDate) + "/" + Segment(article, branch)
  }

  /** UUIDv5 of a key in the project's name space, taken to be injective. */
  datatype PointId = Uuid5(key: string)

  function IdOf(iri: string, part: int): PointId {
    Uuid5(if part == 0 then iri else iri + "#p" + Decimal(part))
  }

  // ---- identity ------------------------------------------------------------

  lemma {:induction false} UndashedConcat(a: string, b: string)
    ensures WithoutDashes(a + b) == WithoutDashes(a) + WithoutDashes(b)
  {
    hide Undashed;
    if a == "" {
      assert a + b == b;
    } else {
      assert (a + b)[1..] == a[1..] + b;
      UndashedConcat(a[1..], b);
    }
  }

  lemma {:induction false} UndashedSame(s: string)
    requires '-' !in s
    ensures WithoutDashes(s) == s
  {
    if s != "" { UndashedSame(s[1..]); }
  }

  lemma {:induction false} UndashedKeepsOut(s: string, c: char)
    requires c !in s
    ensures c !in WithoutDashes(s)
  {
    if s != "" { UndashedKeepsOut(s[1..], c); }
  }

  /** A text up to the first separator determines, and is determined by, its two sides. */
  lemma SplitsOnce(a: string, b: string, sep: char, x: string, y: string)
    requires sep !in a && sep !in b
    ensures a + [sep] + x == b + [sep] + y <==> a == b && x == y
  {
    var s, t := a + [sep] + x, b + [sep] + y;
    assert s[|a|] == sep && t[|b|] == sep;
    assert |a| < |b| ==> t[|a|] == b[|a|];
    assert |b| < |a| ==> s[|b|] == a[|b|];
    assert s[..|a|] == a && t[..|b|] == b && s[|a| + 1..] == x && t[|b| + 1..] == y;
  }

  /** A text from the last separator on, likewise. */
  lemma SplitsLast(a: string, b: string, sep: char, x: string, y: string)
    requires sep !in x && sep !in y
    ensures a + [sep] + x == b + [sep] + y <==> a == b && x == y
  {
    var s, t := a + [sep] + x, b + [sep] + y;
    assert s[|a|] == sep && t[|b|] == sep;
    assert |s| == |t| && |a| < |b| ==> s[|b|] == x[|b| - |a| - 1];
    assert |s| == |t| && |b| < |a| ==> t[|a|] == y[|a| - |b| - 1];
    assert s[..|a|] == a && t[..|b|] == b && s[|a| + 1..] == x && t[|b| + 1..] == y;
  }

  lemma SamePrefix(p: string, x: string, y: string)
    ensures p + x == p + y <==> x == y
  {
    assert (p + x)[|p|..] == x && (p + y)[|p|..] == y;
  }

  lemma SegmentsEqual(a: Num, m: Option<Num>, b: Num, n: Option<Num>)
    requires '조' !in Shown(a) && '조' !in Shown(b)
    ensures Segment(a, m) == Segment(b, n) <==> Shown(a) == Shown(b) && Branch(m) == Branch(n)
  {
    SplitsOnce(Shown(a), Shown(b), '조', Branch(m), Branch(n));
    SamePrefix("제", Shown(a) + ['조'] + Branch(m), Shown(b) + ['조'] + Branch(n));
    assert Segment(a, m) == "제" + (Shown(a) + ['조'] + Branch(m))
        && Segment(b, n) == "제" + (Shown(b) + ['조'] + Branch(n));
  }

  lemma NumberHas(n: int, c: char)
    requires !('0' <= c <= '9') && c != '-'
    ensures c !in Decimal(n)
  {
    DecimalChars(n);
  }

  /** Branch numbers are equal, with 0 for an absent one. */
  predicate SameBranch(m: Option<int>, n: Option<int>) {
    (if m.None? then 0 else m.value) == (if n.None? then 0 else n.value)
  }

  function AsNum(n: Option<int>): Option<Num> {
    if n.None? then None else Some(Int(n.value))
  }

  lemma BranchesEqual(m: Option<int>, n: Option<int>)
    ensures Branch(AsNum(m)) == Branch(AsNum(n)) <==> SameBranch(m, n)
  {
    if m.Some? && n.Some? {
      DecimalInjective(m.value, n.value);
      SamePrefix("의", Decimal(m.value), Decimal(n.value));
    }
  }

  /** What the IRI says of a law and its version. */
  function Version(law: string, date: string): string {
    law + "/" + WithoutDashes(date)
  }

  lemma ArticleIriParts(law: string, date: string, a: Num, m: Option<Num>)
    ensures ArticleIri(law, date, a, m) == (BASE + "/법령/" + Version(law, date)) + ['/'] + Segment(a, m)
  {
    hide Segment, WithoutDashes;
  }

  lemma SegmentWithout(article: int, branch: Option<int>, c: char)
    requires !('0' <= c <= '9') && c !in "-제조의"
    ensures c !in Segment(Int(article), AsNum(branch))
  {
    hide Decimal;
    NumberHas(article, c);
    if branch.Some? { NumberHas(branch.value, c); }
    assert c !in Branch(AsNum(branch));
    NotInConcat("제", Decimal(article), c);
    NotInConcat("제" + Decimal(article), "조", c);
  }

  /** Main result: two articles have the same IRI exactly when law and date, joined by a slash and
  without the date's dashes, are the same text, and article and branch are the same, with absent for 0. */
  lemma ArticleIrisEqual(law: string, date: string, a: int, m: Option<int>,
                         law': string, date': string, b: int, n: Option<int>)
    ensures ArticleIri(law, date, Int(a), AsNum(m)) == ArticleIri(law', date', Int(b), AsNum(n))
            <==> Version(law, date) == Version(law', date') && a == b && SameBranch(m, n)
  {
    hide WithoutDashes, Segment, NoBranch, Version, ArticleIri;
    var s, t := Segment(Int(a), AsNum(m)), Segment(Int(b), AsNum(n));
    var p := BASE + "/법령/";
    ArticleIriParts(law, date, Int(a), AsNum(m));
    ArticleIriParts(law', date', Int(b), AsNum(n));
    SegmentWithout(a, m, '/');
    SegmentWithout(b, n, '/');
    SplitsLast(p + Version(law, date), p + Version(law', date'), '/', s, t);
    SamePrefix(p, Version(law, date), Version(law', date'));
    NumberHas(a, '조');
    NumberHas(b, '조');
    SegmentsEqual(Int(a), AsNum(m), Int(b), AsNum(n));
    BranchesEqual(m, n);
    DecimalInjective(a, b);
  }

  /** Main result: it is enough that the dates have no slash, or that the law ids have none, for the
  IRI to tell law and date apart. */
  lemma VersionsEqual(law: string, date: string, law': string, date': string)
    requires ('/' !in date && '/' !in date') || ('/' !in law && '/' !in law')
    ensures Version(law, date) == Version(law', date') <==> law == law' && WithoutDashes(date) == WithoutDashes(date')
  {
    hide WithoutDashes;
    var d, e := WithoutDashes(date), WithoutDashes(date');
    assert Version(law, date) == law + ['/'] + d && Version(law', date') == law' + ['/'] + e;
    if '/' !in date && '/' !in date' {
      UndashedKeepsOut(date, '/');
      UndashedKeepsOut(date', '/');
      SplitsLast(law, law', '/', d, e);
    } else {
      SplitsOnce(law, law', '/', d, e);
    }
  }

  /** With a slash on both sides it may not: one pair of versions that share every IRI. */
  lemma SlashesCollide(article: Num, branch: Option<Num>)
    ensures ArticleIri("1/2", "3", article, branch) == ArticleIri("1", "2/3", article, branch)
  {
    hide Segment, WithoutDashes;
    UndashedSame("3");
    UndashedSame("2/3");
    ArticleIriParts("1/2", "3", article, branch);
    ArticleIriParts("1", "2/3", article, branch);
    assert "1/2" + "/" + "3" == "1" + "/" + "2/3";
  }

  lemma NotInConcat(a: string, b: string, c: char)
    requires c !in a && c !in b
    ensures c !in a + b
  {
  }

  /** The last character of an article's IRI that says 조, and what follows it. */
  lemma IriEndsInArticle(law: string, date: string, a: int, m: Option<int>)
    ensures exists head: string ::
              ArticleIri(law, date, Int(a), AsNum(m)) == head + ['조'] + Branch(AsNum(m)) && '#' !in Branch(AsNum(m))
  {
    hide WithoutDashes, Decimal;
    if m.Some? { NumberHas(m.value, '#'); }
    var head := ExpressionIri(law, date) + "/" + ("제" + Decimal(a));
    assert ArticleIri(law, date, Int(a), AsNum(m)) == head + ['조'] + Branch(AsNum(m));
  }

  /** An article's IRI is never another text followed by a part number. */
  lemma IriIsNoPart(law: string, date: string, a: int, m: Option<int>, other: string, part: int)
    ensures ArticleIri(law, date, Int(a), AsNum(m)) != other + "#p" + Decimal(part)
  {
    hide ArticleIri, Branch, Decimal;
    IriEndsInArticle(law, date, a, m);
    var iri := ArticleIri(law, date, Int(a), AsNum(m));
    var head: string :| iri == head + ['조'] + Branch(AsNum(m)) && '#' !in Branch(AsNum(m));
    var t, tail := other + "#p" + Decimal(part), "p" + Decimal(part);
    NumberHas(part, '조');
    assert t == other + ['#'] + tail && '조' !in tail;
    NoCommonText(head, Branch(AsNum(m)), other, tail);
  }

  lemma NoCommonText(head: string, branch: string, other: string, tail: string)
    requires '#' !in branch && '조' !in tail
    ensures head + ['조'] + branch != other + ['#'] + tail
  {
    var s, t := head + ['조'] + branch, other + ['#'] + tail;
    assert s[|head|] == '조' && t[|other|] == '#';
    assert |other| < |s| && |head| < |other| ==> s[|other|] == branch[|other| - |head| - 1];
    assert |head| < |t| && |other| < |head| ==> t[|head|] == tail[|head| - |other| - 1];
  }

  /** Main result, for any laws and dates: the parts of all articles have ids of their own, and part 0
  has the article's. */
  lemma PointIdsEqual(law: string, date: string, a: int, m: Option<int>, part: int,
                      law': string, date': string, b: int, n: Option<int>, part': int)
    ensures var iri, iri' := ArticleIri(law, date, Int(a), AsNum(m)), ArticleIri(law', date', Int(b), AsNum(n));
            IdOf(iri, part) == IdOf(iri', part') <==> iri == iri' && part == part'
  {
    hide ArticleIri, Decimal;
    var iri, iri' := ArticleIri(law, date, Int(a), AsNum(m)), ArticleIri(law', date', Int(b), AsNum(n));
    IriIsNoPart(law, date, a, m, iri', part');
    IriIsNoPart(law', date', b, n, iri, part);
    var x, y := "p" + Decimal(part), "p" + Decimal(part');
    NumberHas(part, '#');
    NumberHas(part', '#');
    assert iri + "#p" + Decimal(part) == iri + ['#'] + x && iri' + "#p" + Decimal(part') == iri' + ['#'] + y;
    SplitsLast(iri, iri', '#', x, y);
    SamePrefix("p", Decimal(part), Decimal(part'));
    DecimalInjective(part, part');
  }

  // ---- dates ---------------------------------------------------------------

  /** The payload's form of a date. */
  function Iso(date: string): string {
    var s := Trim(date);
    if |s| == 8 then s[0..4] + "-" + s[4..6] + "-" + s[6..8] else s
  }

  lemma UndashedDash(a: string, b: string)
    ensures WithoutDashes(a + "-" + b) == WithoutDashes(a) + WithoutDashes(b)
  {
    UndashedConcat(a + "-", b);
    UndashedConcat(a, "-");
  }

  lemma UndashedParts(y: string, m: string, d: string)
    ensures WithoutDashes(y + "-" + m + "-" + d) == WithoutDashes(y + m + d)
  {
    hide WithoutDashes;
    UndashedDash(y + "-" + m, d);
    UndashedDash(y, m);
    UndashedConcat(y + m, d);
    UndashedConcat(y, m);
  }

  /** The payload's date determines the date in the IRI. */
  lemma IsoKeepsDate(date: string)
    ensures WithoutDashes(Iso(date)) == WithoutDashes(Trim(date))
  {
    hide Trim, WithoutDashes;
    var s := Trim(date);
    if |s| == 8 {
      UndashedParts(s[0..4], s[4..6], s[6..8]);
      assert s == s[0..4] + s[4..6] + s[6..8];
    }
  }

  /** Eight characters without dashes, as the source of the laws gives them. */
  predicate PlainDate(s: string) {
    |s| == 8 && '-' !in s && Trim(s) == s
  }

  /** Main result: for plain dates the payload's form, the IRI's form and the date itself agree. */
  lemma IsoAgrees(d: string, e: string)
    requires PlainDate(d) && PlainDate(e)
    ensures Iso(d) == Iso(e) <==> d == e
    ensures WithoutDashes(d) == WithoutDashes(e) <==> d == e
    ensures WithoutDashes(Iso(d)) == d
    ensures |Iso(d)| == 10 && forall i :: 0 <= i < 10 ==> (Iso(d)[i] == '-' <==> i == 4 || i == 7)
  {
    hide WithoutDashes, Trim;
    IsoKeepsDate(d);
    IsoKeepsDate(e);
    UndashedSame(d);
    UndashedSame(e);
  }

  lemma PlainDates()
    ensures WithoutDashes("20260227") == "20260227" && WithoutDashes("2026-02-27") == "20260227"
  {
    hide WithoutDashes;
    UndashedSame("20260227");
    UndashedParts("2026", "02", "27");
    assert "2026" + "-" + "02" + "-" + "27" == "2026-02-27" && "2026" + "02" + "27" == "20260227";
  }

  lemma SegmentExamples()
    ensures Segment(Int(4), None) == Segment(Int(4), Some(Int(0))) == "제4조"
    ensures Segment(Int(4), Some(Int(2))) == "제4조의2"
  {
    assert Decimal(4) == "4" && Decimal(2) == "2";
  }

  /** The forms as they are documented: an article of a version, with and without a branch, and its parts. */
  lemma IriExamples()
    ensures ArticleIri("001823", "2026-02-27", Int(4), None) ==
            "https://2026agent.kr/law" + "/법령/" + "001823" + "/" + "20260227" + "/" + "제4조"
    ensures ArticleIri("001823", "20260227", Int(4), Some(Int(2))) ==
            "https://2026agent.kr/law" + "/법령/" + "001823" + "/" + "20260227" + "/" + "제4조의2"
    ensures IdOf("iri", 0) == Uuid5("iri") && IdOf("iri", 2) == Uuid5("iri" + "#p" + "2")
  {
    PlainDates();
    SegmentExamples();
    assert Decimal(2) == "2";
    hide WithoutDashes, Segment, Decimal;
  }
}
