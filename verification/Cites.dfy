/** Citation markers: the backend's normaliser and the front end's splitter agree. */
module Cites {
  import opened Strip

  const OPEN := "[[cite:"

  // ---- the marker grammar ------------------------------------------------

  /** Whether a character stands for a letter of the pattern; with `fold`, case is ignored as
  Python's re.IGNORECASE does, which lets the dotted capital and the dotless small i pass for i. */
  predicate Letter(c: char, p: char, fold: bool) {
    || c == p
    || (fold && ((p == 'c' && c == 'C') || (p == 't' && c == 'T') || (p == 'e' && c == 'E')
                 || (p == 'i' && (c == 'I' || c == '\U{0130}' || c == '\U{0131}'))))
  }

  /** `s` goes on with the opening of a marker from its `p`-th character. */
  predicate Opens(s: string, p: nat, fold: bool)
    requires p <= 7
  {
    7 - p <= |s| && forall k :: 0 <= k < 7 - p ==> Letter(s[k], OPEN[p + k], fold)
  }

  /** The length of the run up to the first closing bracket. */
  function Run(s: string): (n: nat)
    ensures n <= |s| && (forall k :: 0 <= k < n ==> s[k] != ']') && (n < |s| ==> s[n] == ']')
  {
    if s == "" || s[0] == ']' then 0 else 1 + Run(s[1..])
  }

  predicate Closes(s: string) {
    Run(s) + 1 < |s| && s[Run(s) + 1] == ']'
  }

  /** A marker starts here: the pattern's class excludes the closing bracket, so its greedy run
  ends at the first one, and no shorter run can match. */
  predicate Matches(s: string, fold: bool) {
    Opens(s, 0, fold) && Run(s[7..]) > 0 && Closes(s[7..])
  }

  datatype Token = Char(c: char) | Mark(head: string, id: string)

  /** The leftmost, non-overlapping matches and the characters between them. */
  function Tokens(s: string, fold: bool): seq<Token>
    decreases |s|
  {
    if s == "" then []
    else if Matches(s, fold) then
      var n := Run(s[7..]);
      [Mark(s[..7], s[7..][..n])] + Tokens(s[7..][n + 2..], fold)
    else [Char(s[0])] + Tokens(s[1..], fold)
  }

  /** All captured ids, in order. */
  function Captures(tokens: seq<Token>): seq<string> {
    if tokens == [] then []
    else (if tokens[0].Mark? then [tokens[0].id] else []) + Captures(tokens[1..])
  }

  function Printed(tokens: seq<Token>): string {
    if tokens == [] then ""
    else TokenText(tokens[0]) + Printed(tokens[1..])
  }

  function TokenText(t: Token): string {
    match t
    case Char(c) => [c]
    case Mark(head, id) => head + id + "]]"
  }

  lemma PrintedFirst(t: Token, tokens: seq<Token>)
    ensures Printed([t] + tokens) == TokenText(t) + Printed(tokens)
  {
  }

  /** The parts of a text that starts with a marker. */
  lemma MatchedTokens(s: string, fold: bool)
    requires Matches(s, fold)
    ensures |s| >= 7 && Run(s[7..]) + 2 <= |s[7..]|
    ensures var id, rest := s[7..][..Run(s[7..])], s[7..][Run(s[7..]) + 2..];
            && |rest| < |s| && s == s[..7] + id + "]]" + rest
            && Tokens(s, fold) == [Mark(s[..7], id)] + Tokens(rest, fold)
  {
  }

  /** Scanning loses nothing. */
  lemma {:induction false} PrintedTokens(s: string, fold: bool)
    ensures Printed(Tokens(s, fold)) == s
    decreases |s|
  {
    hide Printed, Run, Opens, Closes;
    if s == "" {
      assert Printed([]) == "" by { NothingPrinted(); }
    } else if Matches(s, fold) {
      MatchedTokens(s, fold);
      var id, rest := s[7..][..Run(s[7..])], s[7..][Run(s[7..]) + 2..];
      PrintedTokens(rest, fold);
      PrintedFirst(Mark(s[..7], id), Tokens(rest, fold));
    } else {
      PrintedTokens(s[1..], fold);
      PrintedFirst(Char(s[0]), Tokens(s[1..], fold));
    }
  }

  lemma NothingPrinted()
    ensures Printed([]) == ""
  {
  }

  // ---- the backend's normaliser ------------------------------------------

  /** Every marker is replaced by its lower-case form with the id trimmed. */
  function Normalised(s: string): string
    decreases |s|
  {
    if s == "" then ""
    else if Matches(s, true) then
      var n := Run(s[7..]);
      OPEN + Trim(s[7..][..n]) + "]]" + Normalised(s[7..][n + 2..])
    else [s[0]] + Normalised(s[1..])
  }

  function Chars(s: string): (t: seq<Token>) {
    if s == "" then [] else [Char(s[0])] + Chars(s[1..])
  }

  /** What the normaliser makes of the tokens: a blank id leaves an empty marker, which is none. */
  function NormalTokens(tokens: seq<Token>): seq<Token> {
    if tokens == [] then [] else NormalToken(tokens[0]) + NormalTokens(tokens[1..])
  }

  function NormalToken(t: Token): seq<Token> {
    match t
    case Char(c) => [t]
    case Mark(_, id) => if Trim(id) == "" then Chars(OPEN + "]]") else [Mark(OPEN, Trim(id))]
  }

  lemma StartsWithBracket(s: string)
    requires Matches(s, true)
    ensures |Normalised(s)| >= 2 && Normalised(s)[0] == '[' && Normalised(s)[1] == '[' && s[0] == '[' && s[1] == '['
  {
    assert OPEN[0] == '[' && OPEN[1] == '[';
  }

  lemma OpeningLetters(p: nat)
    requires 1 <= p < 7
    ensures OPEN[p] == '[' <==> p == 1
    ensures OPEN[2] == 'c'
  {
    assert OPEN == ['[', '[', 'c', 'i', 't', 'e', ':'];
  }

  lemma NormalisedNext(s: string)
    requires s != "" && !Matches(s, true)
    ensures Normalised(s) == [s[0]] + Normalised(s[1..])
  {
    hide Matches;
  }

  lemma InsideNoMarker(s: string, p: nat, fold: bool)
    requires 1 <= p < 7 && Opens(Normalised(s), p, fold)
    ensures s != "" && !Matches(s, true)
  {
    OpeningLetters(p);
    assert Letter(Normalised(s)[0], OPEN[p], fold);
    assert p == 1 ==> Letter(Normalised(s)[1], OPEN[2], fold);
    if Matches(s, true) { StartsWithBracket(s); }
  }

  /** The next character of an opening in the normalised text is one of the text itself. */
  lemma OpeningCharacter(s: string, p: nat, fold: bool)
    requires 1 <= p < 7 && Opens(Normalised(s), p, fold)
    ensures s != "" && !Matches(s, true) && Letter(s[0], OPEN[p], true) && Opens(Normalised(s[1..]), p + 1, fold)
    ensures Normalised(s)[1..] == Normalised(s[1..])
  {
    hide Normalised, Matches;
    InsideNoMarker(s, p, fold);
    NormalisedNext(s);
    assert Letter(Normalised(s)[0], OPEN[p], fold);
    forall k | 0 <= k < 7 - (p + 1) ensures Letter(Normalised(s[1..])[k], OPEN[p + 1 + k], fold) {
      assert Letter(Normalised(s)[k + 1], OPEN[p + (k + 1)], fold);
    }
  }

  lemma OpensFromNext(s: string, p: nat, fold: bool)
    requires p < 7 && s != "" && Letter(s[0], OPEN[p], fold) && Opens(s[1..], p + 1, fold)
    ensures Opens(s, p, fold)
  {
    forall k | 0 <= k < 7 - p ensures Letter(s[k], OPEN[p + k], fold) {
      if k > 0 { assert s[k] == s[1..][k - 1] && Letter(s[1..][k - 1], OPEN[p + 1 + (k - 1)], fold); }
    }
  }

  /** No marker can begin in the text and end its opening in a rewritten one. */
  lemma {:induction false} OpeningIsOriginal(s: string, p: nat, fold: bool)
    requires 1 <= p <= 7 && Opens(Normalised(s), p, fold)
    ensures Opens(s, p, true) && Normalised(s)[7 - p..] == Normalised(s[7 - p..])
    decreases 7 - p
  {
    hide Normalised, Matches, Letter;
    if p == 7 {
      assert s[0..] == s;
    } else {
      OpeningCharacter(s, p, fold);
      OpeningIsOriginal(s[1..], p + 1, fold);
      OpensFromNext(s, p, true);
      assert s[7 - p..] == s[1..][7 - (p + 1)..];
      assert Normalised(s)[7 - p..] == Normalised(s)[1..][7 - (p + 1)..];
    }
  }

  lemma RunOfMarker(head: string, id: string, rest: string)
    requires ']' !in head && ']' !in id
    ensures Run(head + id + "]]" + rest) == |head| + |id| && Closes(head + id + "]]" + rest)
  {
    var s := head + id + "]]" + rest;
    assert s[|head| + |id|] == ']' && s[|head| + |id| + 1] == ']';
    forall k | 0 <= k < |head| + |id| ensures s[k] != ']' {
      assert s[k] == (head + id)[k];
    }
  }

  lemma MarkerParts(s: string, fold: bool)
    requires Matches(s, fold)
    ensures var n := Run(s[7..]);
            && ']' !in s[..7] && ']' !in s[7..][..n]
            && s == s[..7] + s[7..][..n] + "]]" + s[7..][n + 2..]
  {
    assert forall k :: 0 <= k < 7 ==> Letter(s[k], OPEN[k], fold);
    assert OPEN == ['[', '[', 'c', 'i', 't', 'e', ':'];
  }

  /** Nor can it end its run in one: the closing is that of the text. */
  lemma {:induction false} ClosingIsOriginal(s: string)
    requires Closes(Normalised(s))
    ensures Closes(s) && (Run(s) == 0 <==> Run(Normalised(s)) == 0)
    decreases |s|
  {
    if Matches(s, true) {
      StartsWithBracket(s);
      MarkerParts(s, true);
      var n := Run(s[7..]);
      RunOfMarker(s[..7], s[7..][..n], s[7..][n + 2..]);
    } else if s[0] == ']' {
      assert Normalised(s)[1] == Normalised(s[1..])[0] == ']';
      if Matches(s[1..], true) {
        StartsWithBracket(s[1..]);
        assert false;
      }
    } else {
      assert Normalised(s)[1..] == Normalised(s[1..]);
      ClosingIsOriginal(s[1..]);
    }
  }

  lemma TailOpens(s: string, fold: bool)
    requires Opens(s, 0, fold)
    ensures s != "" && Letter(s[0], OPEN[0], fold) && Opens(s[1..], 1, fold)
  {
    forall k | 0 <= k < 6 ensures Letter(s[1..][k], OPEN[1 + k], fold) {
      assert s[1..][k] == s[k + 1];
    }
  }

  /** A marker that starts at an original character was there before. */
  lemma MarkerIsOriginal(s: string, fold: bool)
    requires s != "" && Matches([s[0]] + Normalised(s[1..]), fold)
    ensures Matches(s, true)
  {
    hide Normalised, Closes, Run, Letter;
    var rest := s[1..];
    var out := [s[0]] + Normalised(rest);
    TailOpens(out, fold);
    assert out[1..] == Normalised(rest);
    OpeningIsOriginal(rest, 1, fold);
    assert out[7..] == Normalised(rest)[6..];
    ClosingIsOriginal(rest[6..]);
    assert rest[6..] == s[7..];
    LetterFolds(s[0], OPEN[0], fold);
    OpensFromNext(s, 0, true);
  }

  /** A character that starts no marker starts none after normalisation either. */
  lemma NoNewMarker(s: string, fold: bool)
    requires s != "" && !Matches(s, true)
    ensures !Matches([s[0]] + Normalised(s[1..]), fold)
  {
    if Matches([s[0]] + Normalised(s[1..]), fold) { MarkerIsOriginal(s, fold); }
  }

  lemma LetterFolds(c: char, p: char, fold: bool)
    requires Letter(c, p, fold)
    ensures Letter(c, p, true)
  {
  }

  lemma MatchStarts(s: string, fold: bool)
    requires Matches(s, fold)
    ensures |s| >= 2 && s[0] == '[' && s[1] == '['
  {
    assert Letter(s[0], OPEN[0], fold) && Letter(s[1], OPEN[1], fold);
  }

  lemma {:induction false} CharsThen(a: string, rest: string, fold: bool)
    requires forall k :: 0 <= k < |a| ==> !Matches(a[k..] + rest, fold)
    ensures Tokens(a + rest, fold) == Chars(a) + Tokens(rest, fold)
  {
    if a == "" {
      assert a + rest == rest;
    } else {
      assert a[0..] == a && (a + rest)[1..] == a[1..] + rest;
      forall k | 0 <= k < |a[1..]| ensures !Matches(a[1..][k..] + rest, fold) {
        assert a[1..][k..] == a[k + 1..];
      }
      CharsThen(a[1..], rest, fold);
    }
  }

  lemma NoMarkerInEmpty(k: nat, rest: string, fold: bool)
    requires k < 9
    ensures !Matches((OPEN + "]]")[k..] + rest, fold)
  {
    var a := OPEN + "]]";
    assert a == ['[', '[', 'c', 'i', 't', 'e', ':', ']', ']'];
    var s := a[k..] + rest;
    assert s[0] == a[k] && (k < 8 ==> s[1] == a[k + 1]);
    assert k == 0 ==> s[7..][0] == ']';
    if Matches(s, fold) { MatchStarts(s, fold); }
  }

  lemma EmptyMarkerIsText(rest: string, fold: bool)
    ensures Tokens(OPEN + "]]" + rest, fold) == Chars(OPEN + "]]") + Tokens(rest, fold)
  {
    var a := OPEN + "]]";
    forall k | 0 <= k < |a| ensures !Matches(a[k..] + rest, fold) {
      NoMarkerInEmpty(k, rest, fold);
    }
    CharsThen(a, rest, fold);
  }

  lemma FullMarkerIsMark(id: string, rest: string, fold: bool)
    requires id != "" && ']' !in id
    ensures Tokens(OPEN + id + "]]" + rest, fold) == [Mark(OPEN, id)] + Tokens(rest, fold)
  {
    var s := OPEN + id + "]]" + rest;
    assert s[7..] == [] + id + "]]" + rest;
    RunOfMarker([], id, rest);
    assert forall k :: 0 <= k < 7 ==> s[k] == OPEN[k];
    assert s[..7] == OPEN && s[7..][..|id|] == id && s[7..][|id| + 2..] == rest;
  }

  /** A rewritten marker is a marker with the trimmed id, or plain text when that is blank. */
  lemma RewrittenMarker(head: string, id: string, rest: string, fold: bool)
    requires ']' !in id
    ensures Tokens(OPEN + Trim(id) + "]]" + rest, fold) == NormalToken(Mark(head, id)) + Tokens(rest, fold)
  {
    hide Tokens, Chars, IsSpace, TrimLeft, TrimRight;
    TrimKeepsOut(id, ']');
    if Trim(id) == "" {
      assert OPEN + Trim(id) + "]]" + rest == OPEN + "]]" + rest;
      EmptyMarkerIsText(rest, fold);
    } else {
      FullMarkerIsMark(Trim(id), rest, fold);
    }
  }

  /** The head of the tokens and of the normalised text, when the text starts with a marker. */
  lemma MarkerFirst(s: string)
    requires Matches(s, true)
    ensures |s| >= 7 && Run(s[7..]) + 2 <= |s[7..]|
    ensures var id, rest := s[7..][..Run(s[7..])], s[7..][Run(s[7..]) + 2..];
            && ']' !in id && |rest| < |s|
            && Tokens(s, true) == [Mark(s[..7], id)] + Tokens(rest, true)
            && NormalTokens(Tokens(s, true)) == NormalToken(Mark(s[..7], id)) + NormalTokens(Tokens(rest, true))
            && Normalised(s) == OPEN + Trim(id) + "]]" + Normalised(rest)
  {
    hide Trim, NormalToken, Tokens, NormalTokens, Opens;
    MatchedTokens(s, true);
    var id, rest := s[7..][..Run(s[7..])], s[7..][Run(s[7..]) + 2..];
    NormalFirst(Mark(s[..7], id), Tokens(rest, true));
  }

  lemma NormalFirst(t: Token, tokens: seq<Token>)
    ensures NormalTokens([t] + tokens) == NormalToken(t) + NormalTokens(tokens)
  {
    hide NormalToken;
  }

  lemma CharacterFirst(s: string, out: string, fold: bool)
    requires s != "" && !Matches(s, true) && !Matches([s[0]] + out, fold)
    ensures Tokens([s[0]] + out, fold) == [Char(s[0])] + Tokens(out, fold)
    ensures NormalTokens(Tokens(s, true)) == [Char(s[0])] + NormalTokens(Tokens(s[1..], true))
    ensures Normalised(s) == [s[0]] + Normalised(s[1..])
  {
    assert ([s[0]] + out)[1..] == out;
  }

  /** The key step: the tokens of the normalised text are the normalised tokens, for the backend's
  case-blind scanner and for the front end's exact one alike. */
  lemma {:induction false} TokensOfNormalised(s: string, fold: bool)
    ensures Tokens(Normalised(s), fold) == NormalTokens(Tokens(s, true))
    decreases |s|
  {
    hide Trim, NormalToken, Matches, Run;
    if s == "" {
    } else if Matches(s, true) {
      MarkerFirst(s);
      var id, rest := s[7..][..Run(s[7..])], s[7..][Run(s[7..]) + 2..];
      TokensOfNormalised(rest, fold);
      RewrittenMarker(s[..7], id, Normalised(rest), fold);
    } else {
      NoNewMarker(s, fold);
      TokensOfNormalised(s[1..], fold);
      CharacterFirst(s, Normalised(s[1..]), fold);
    }
  }

  /** The non-blank captures, trimmed. */
  function Trimmed(ids: seq<string>): seq<string> {
    if ids == [] then []
    else (if Trim(ids[0]) == "" then [] else [Trim(ids[0])]) + Trimmed(ids[1..])
  }

  lemma {:induction false} CapturesConcat(a: seq<Token>, b: seq<Token>)
    ensures Captures(a + b) == Captures(a) + Captures(b)
  {
    if a == [] {
      assert a + b == b;
    } else {
      assert (a + b)[1..] == a[1..] + b;
      CapturesConcat(a[1..], b);
    }
  }

  lemma {:induction false} CapturesOfChars(s: string)
    ensures Captures(Chars(s)) == []
  {
    if s != "" { CapturesOfChars(s[1..]); }
  }

  lemma CapturesOfToken(t: Token)
    ensures Captures(NormalToken(t)) == Trimmed(Captures([t]))
  {
    CapturesOfChars(OPEN + "]]");
    if t.Mark? {
      assert Captures([t]) == [t.id] && Captures([Mark(OPEN, Trim(t.id))]) == [Trim(t.id)];
    }
  }

  lemma {:induction false} TrimmedConcat(a: seq<string>, b: seq<string>)
    ensures Trimmed(a + b) == Trimmed(a) + Trimmed(b)
  {
    hide Trim;
    if a == [] {
      assert a + b == b;
    } else {
      assert (a + b)[1..] == a[1..] + b;
      TrimmedConcat(a[1..], b);
    }
  }

  lemma {:induction false} CapturesOfNormal(tokens: seq<Token>)
    ensures Captures(NormalTokens(tokens)) == Trimmed(Captures(tokens))
  {
    hide NormalToken, Captures, Trimmed;
    if tokens == [] {
      NothingCaptured();
    } else {
      CapturesOfNormal(tokens[1..]);
      CapturesOfToken(tokens[0]);
      CapturesConcat(NormalToken(tokens[0]), NormalTokens(tokens[1..]));
      CapturesConcat([tokens[0]], tokens[1..]);
      TrimmedConcat(Captures([tokens[0]]), Captures(tokens[1..]));
      assert tokens == [tokens[0]] + tokens[1..];
    }
  }

  lemma NothingCaptured()
    ensures Captures([]) == [] && Trimmed([]) == []
  {
  }

  /** Main result: scanning the normalised body yields the trimmed non-blank captures in order, in
  the backend and in the front end. */
  lemma ScannersAgree(s: string)
    ensures Captures(Tokens(Normalised(s), true)) == Trimmed(Captures(Tokens(s, true)))
    ensures Captures(Tokens(Normalised(s), false)) == Captures(Tokens(Normalised(s), true))
  {
    TokensOfNormalised(s, true);
    TokensOfNormalised(s, false);
    CapturesOfNormal(Tokens(s, true));
  }

  lemma {:induction false} PrintedConcat(a: seq<Token>, b: seq<Token>)
    ensures Printed(a + b) == Printed(a) + Printed(b)
  {
    if a == [] {
      assert a + b == b;
    } else {
      assert (a + b)[1..] == a[1..] + b;
      PrintedConcat(a[1..], b);
    }
  }

  lemma {:induction false} NormalConcat(a: seq<Token>, b: seq<Token>)
    ensures NormalTokens(a + b) == NormalTokens(a) + NormalTokens(b)
  {
    hide NormalToken;
    if a == [] {
      assert a + b == b;
    } else {
      assert (a + b)[1..] == a[1..] + b;
      NormalConcat(a[1..], b);
    }
  }

  lemma {:induction false} NormalOfChars(s: string)
    ensures NormalTokens(Chars(s)) == Chars(s)
  {
    hide Trim;
    if s != "" { NormalOfChars(s[1..]); }
  }

  lemma NormalTwice(t: Token)
    ensures NormalTokens(NormalToken(t)) == NormalToken(t)
  {
    hide TrimLeft, TrimRight, Trim;
    NormalOfChars(OPEN + "]]");
    if t.Mark? {
      TrimIdempotent(t.id);
      assert NormalTokens([Mark(OPEN, Trim(t.id))]) == NormalToken(Mark(OPEN, Trim(t.id))) + NormalTokens([]);
    }
  }

  lemma {:induction false} NormalTokensIdempotent(tokens: seq<Token>)
    ensures NormalTokens(NormalTokens(tokens)) == NormalTokens(tokens)
  {
    hide NormalToken;
    if tokens != [] {
      NormalTokensIdempotent(tokens[1..]);
      NormalTwice(tokens[0]);
      NormalConcat(NormalToken(tokens[0]), NormalTokens(tokens[1..]));
    }
  }

  /** Main result: normalising twice is normalising once. */
  lemma {:induction false} NormalisedIdempotent(s: string)
    ensures Normalised(Normalised(s)) == Normalised(s)
  {
    var once, twice := Normalised(s), Normalised(Normalised(s));
    TokensOfNormalised(once, true);
    TokensOfNormalised(s, true);
    NormalTokensIdempotent(Tokens(s, true));
    PrintedTokens(once, true);
    PrintedTokens(twice, true);
  }

  // ---- the front end's splitter ------------------------------------------

  datatype Segment = Text(v: string) | Cite(id: string)

  function SegmentText(g: Segment): string {
    match g
    case Text(v) => v
    case Cite(id) => OPEN + id + "]]"
  }

  function Rendered(segments: seq<Segment>): string {
    if segments == [] then ""
    else Rendered(segments[..|segments| - 1]) + SegmentText(segments[|segments| - 1])
  }

  function Ids(segments: seq<Segment>): seq<string> {
    if segments == [] then []
    else Ids(segments[..|segments| - 1]) + if segments[|segments| - 1].Cite? then [segments[|segments| - 1].id] else []
  }

  lemma Added(segments: seq<Segment>, g: Segment)
    ensures Rendered(segments + [g]) == Rendered(segments) + SegmentText(g)
    ensures Ids(segments + [g]) == Ids(segments) + if g.Cite? then [g.id] else []
  {
    assert (segments + [g])[..|segments|] == segments;
  }

  /** The next match at or after a position, as RegExp.exec finds it. */
  method Exec(text: string, from: nat) returns (found: bool, index: nat)
    requires from <= |text|
    ensures found ==> from <= index < |text| && Matches(text[index..], false)
    ensures found ==> forall k :: from <= k < index ==> !Matches(text[k..], false)
    ensures !found ==> index == |text| && forall k :: from <= k < |text| ==> !Matches(text[k..], false)
  {
    for i := from to |text|
      invariant forall k :: from <= k < i ==> !Matches(text[k..], false)
    {
      if Matches(text[i..], false) { return true, i; }
    }
    return false, |text|;
  }

  lemma {:induction false} NoMatchNoCapture(text: string, from: nat, index: nat)
    requires from <= index <= |text| && forall k :: from <= k < index ==> !Matches(text[k..], false)
    ensures Captures(Tokens(text[from..], false)) == Captures(Tokens(text[index..], false))
    decreases index - from
  {
    if from < index {
      assert text[from..][1..] == text[from + 1..];
      NoMatchNoCapture(text, from + 1, index);
    }
  }

  ghost predicate WellSplit(out: seq<Segment>) {
    forall i :: 0 <= i < |out| && out[i].Text? ==> out[i].v != "" && (i > 0 ==> out[i - 1].Cite?)
  }

  /** How far the splitter has come: `out` renders the text before `last` and holds its ids. */
  ghost predicate SplitUpTo(text: string, out: seq<Segment>, last: nat) {
    && last <= |text| && Rendered(out) == text[..last]
    && Ids(out) + Captures(Tokens(text[last..], false)) == Captures(Tokens(text, false))
    && WellSplit(out)
  }

  /** The parts of the text around the match at `index`. */
  lemma MatchAt(text: string, index: nat)
    requires index < |text| && Matches(text[index..], false)
    ensures var id, next := MatchId(text, index), MatchEnd(text, index);
            && next <= |text| && text[..next] == text[..index] + (OPEN + id + "]]")
            && Captures(Tokens(text[index..], false)) == [id] + Captures(Tokens(text[next..], false))
  {
    hide Tokens, Captures, Run, Matches;
    var s := text[index..];
    MatchedTokens(s, false);
    ExactHead(s);
    var id, rest := s[7..][..Run(s[7..])], s[7..][Run(s[7..]) + 2..];
    CapturesFirst(Mark(s[..7], id), Tokens(rest, false));
    Slices(text, index, OPEN + id + "]]", rest);
  }

  lemma CapturesFirst(t: Token, tokens: seq<Token>)
    requires t.Mark?
    ensures Captures([t] + tokens) == [t.id] + Captures(tokens)
  {
  }

  lemma Slices(text: string, index: nat, marker: string, rest: string)
    requires index <= |text| && text[index..] == marker + rest
    ensures index + |marker| <= |text| && text[..index + |marker|] == text[..index] + marker
              && text[index + |marker|..] == rest
  {
    assert text == text[..index] + (marker + rest);
  }

  function MatchId(text: string, index: nat): string
    requires index < |text| && Matches(text[index..], false)
  {
    text[index..][7..][..Run(text[index..][7..])]
  }

  function MatchEnd(text: string, index: nat): nat
    requires index < |text| && Matches(text[index..], false)
  {
    index + 7 + Run(text[index..][7..]) + 2
  }

  lemma SplitsText(text: string, out: seq<Segment>, last: nat, index: nat)
    requires SplitUpTo(text, out, last) && last < index <= |text| && (out != [] ==> out[|out| - 1].Cite?)
    requires forall k :: last <= k < index ==> !Matches(text[k..], false)
    ensures SplitUpTo(text, out + [Text(text[last..index])], index)
  {
    hide Tokens, Captures, Matches, Rendered, Ids;
    NoMatchNoCapture(text, last, index);
    Added(out, Text(text[last..index]));
    assert text[..index] == text[..last] + text[last..index];
  }

  lemma SplitsCite(text: string, out: seq<Segment>, index: nat)
    requires SplitUpTo(text, out, index) && index < |text| && Matches(text[index..], false)
    ensures SplitUpTo(text, out + [Cite(MatchId(text, index))], MatchEnd(text, index))
  {
    hide Tokens, Captures, Matches, Rendered, Ids, MatchId, MatchEnd;
    MatchAt(text, index);
    Added(out, Cite(MatchId(text, index)));
  }

  /** Main result: the splitter's segments print back to the text, its ids are the captures in
  order, and text segments are never empty nor next to each other. */
  method SplitCites(text: string) returns (out: seq<Segment>)
    ensures Rendered(out) == text
    ensures Ids(out) == Captures(Tokens(text, false))
    ensures forall i :: 0 <= i < |out| && out[i].Text? ==> out[i].v != "" && (i > 0 ==> out[i - 1].Cite?)
  {
    hide Tokens, Captures, Matches, MatchId, MatchEnd;
    out := [];
    var last := 0;
    assert text[0..] == text;
    var found, index := Exec(text, 0);
    while found
      invariant SplitUpTo(text, out, last) && (out != [] ==> out[|out| - 1].Cite?)
      invariant last <= index <= |text| && (found <==> index < |text| && Matches(text[index..], false))
      invariant forall k :: last <= k < index ==> !Matches(text[k..], false)
      invariant found || index == |text|
      decreases |text| - last, if found then 1 else 0
    {
      if index > last {
        SplitsText(text, out, last, index);
        out := out + [Text(text[last..index])];
      }
      MatchAt(text, index);
      SplitsCite(text, out, index);
      out := out + [Cite(MatchId(text, index))];
      last := MatchEnd(text, index);
      MatchProgress(text, index);
      found, index := Exec(text, last);
    }
    if last < |text| {
      SplitsText(text, out, last, |text|);
      out := out + [Text(text[last..])];
    }
    NothingLeft(text);
  }

  lemma MatchProgress(text: string, index: nat)
    requires index < |text| && Matches(text[index..], false)
    ensures MatchEnd(text, index) > index
  {
  }

  lemma NothingLeft(text: string)
    ensures text[..|text|] == text && Captures(Tokens(text[|text|..], false)) == []
  {
  }

  lemma ExactHead(s: string)
    requires Matches(s, false)
    ensures s[..7] == OPEN
  {
    assert forall k :: 0 <= k < 7 ==> Letter(s[k], OPEN[k], false);
  }
}
