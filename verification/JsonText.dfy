/** A reader of the payloads: what a client's JSON parser gets back from the printed text. */
module JsonText {
  import opened Store
  import opened Decimals
  import opened Sse

  // ---- strings -----------------------------------------------------------

  function HexValue(c: char): Option<nat> {
    if '0' <= c <= '9' then Some(c as nat - '0' as nat)
    else if 'a' <= c <= 'f' then Some(c as nat - 'a' as nat + 10)
    else if 'A' <= c <= 'F' then Some(c as nat - 'A' as nat + 10)
    else None
  }

  /** A two-letter escape. */
  function Short(c: char): Option<char> {
    match c
    case '"' => Some('"')
    case '\\' => Some('\\')
    case '/' => Some('/')
    case 'b' => Some('\U{0008}')
    case 'f' => Some('\U{000C}')
    case 'n' => Some('\n')
    case 'r' => Some('\r')
    case 't' => Some('\t')
    case _ => None
  }

  /** The character of a four-digit escape; none for half a surrogate pair. */
  function Long(s: string): Option<char>
    requires |s| == 4
  {
    var a, b, c, d := HexValue(s[0]), HexValue(s[1]), HexValue(s[2]), HexValue(s[3]);
    if a.None? || b.None? || c.None? || d.None? then None
    else
      var code := ((a.value * 16 + b.value) * 16 + c.value) * 16 + d.value;
      if code < 0xD800 || 0xE000 <= code < 0x10000 then Some(code as char) else None
  }

  /** The text up to the closing quote, and what follows it. A raw control character is an error. */
  function ReadText(s: string): (r: Option<(string, string)>)
    ensures r.Some? ==> |r.value.1| < |s|
    decreases |s|
  {
    if s == "" || s[0] < ' ' then None
    else if s[0] == '"' then Some(("", s[1..]))
    else if s[0] != '\\' then Prepended(s[0], ReadText(s[1..]))
    else if |s| < 2 then None
    else if s[1] == 'u' then
      if |s| < 6 || Long(s[2..6]).None? then None else Prepended(Long(s[2..6]).value, ReadText(s[6..]))
    else if Short(s[1]).None? then None
    else Prepended(Short(s[1]).value, ReadText(s[2..]))
  }

  function Prepended(c: char, r: Option<(string, string)>): (out: Option<(string, string)>)
    ensures out.Some? <==> r.Some?
    ensures out.Some? ==> out.value.1 == r.value.1
  {
    if r.Some? then Some(([c] + r.value.0, r.value.1)) else None
  }

  predicate HasShort(c: char) {
    c == '"' || c == '\\' || c == '\n' || c == '\r' || c == '\t' || c == '\U{0008}' || c == '\U{000C}'
  }

  lemma ShortReads(c: char, rest: string)
    requires HasShort(c)
    ensures ReadText(Escaped(c) + rest) == Prepended(c, ReadText(rest))
  {
    hide HexDigit, Long;
    assert (Escaped(c) + rest)[2..] == rest;
  }

  lemma LongReads(c: char, rest: string)
    requires c < ' ' && !HasShort(c)
    ensures ReadText(Escaped(c) + rest) == Prepended(c, ReadText(rest))
  {
    hide HexDigit, Short;
    var s := Escaped(c) + rest;
    assert s[6..] == rest && s[2..6] == "00" + [HexDigit(c as nat / 16), HexDigit(c as nat % 16)];
    HexReads(c as nat / 16);
    HexReads(c as nat % 16);
  }

  lemma EscapeReads(c: char, rest: string)
    ensures ReadText(Escaped(c) + rest) == Prepended(c, ReadText(rest))
  {
    hide HexDigit, Short, Long;
    if HasShort(c) {
      ShortReads(c, rest);
    } else if c < ' ' {
      LongReads(c, rest);
    } else {
      assert (Escaped(c) + rest)[1..] == rest;
    }
  }

  lemma HexReads(n: nat)
    requires n < 16
    ensures HexValue(HexDigit(n)) == Some(n)
  {
  }

  lemma {:induction false} TextReads(s: string, rest: string)
    ensures ReadText(EscapedText(s) + "\"" + rest) == Some((s, rest))
  {
    hide Escaped, Short, Long;
    if s == "" {
      assert EscapedText(s) + "\"" + rest == "\"" + rest && ("\"" + rest)[1..] == rest;
    } else {
      TextReads(s[1..], rest);
      var tail := EscapedText(s[1..]) + "\"" + rest;
      assert EscapedText(s) + "\"" + rest == Escaped(s[0]) + tail;
      EscapeReads(s[0], tail);
      assert [s[0]] + s[1..] == s;
    }
  }

  // ---- values ------------------------------------------------------------

  function NumberLength(s: string): (n: nat)
    ensures n <= |s| && (n < |s| ==> !NumberChar(s[n])) && forall i :: 0 <= i < n ==> NumberChar(s[i])
  {
    if s == "" || !NumberChar(s[0]) then 0 else 1 + NumberLength(s[1..])
  }

  function SkipSpaces(s: string): (t: string)
    ensures |t| <= |s|
  {
    if s != "" && s[0] == ' ' then SkipSpaces(s[1..]) else s
  }

  /** A value at the start of the text, and what follows it. */
  function ReadValue(s: string): (r: Option<(Json, string)>)
    ensures r.Some? ==> |r.value.1| < |s|
    decreases |s|, 0
  {
    if s == "" then None
    else if "null" <= s then Some((Null, s[4..]))
    else if "true" <= s then Some((Bool(true), s[4..]))
    else if "false" <= s then Some((Bool(false), s[5..]))
    else if s[0] == '"' then
      var text := ReadText(s[1..]);
      if text.Some? then Some((Str(text.value.0), text.value.1)) else None
    else if s[0] == '[' then
      if |s| > 1 && s[1] == ']' then Some((Arr([]), s[2..]))
      else var items := ReadItems(s[1..]); if items.Some? then Some((Arr(items.value.0), items.value.1)) else None
    else if s[0] == '{' then
      if |s| > 1 && s[1] == '}' then Some((Obj([]), s[2..]))
      else var fields := ReadFields(s[1..]); if fields.Some? then Some((Obj(fields.value.0), fields.value.1)) else None
    else
      var n := NumberLength(s);
      if n == 0 then None else Some((Number(s[..n]), s[n..]))
  }

  /** The items of an array after its bracket, up to the closing one. */
  function ReadItems(s: string): (r: Option<(seq<Json>, string)>)
    ensures r.Some? ==> |r.value.1| < |s|
    decreases |s|, 1
  {
    var item := ReadValue(s);
    if item.None? || item.value.1 == "" then None
    else
      var next := item.value.1;
      if next[0] == ']' then Some(([item.value.0], next[1..]))
      else if next[0] != ',' then None
      else
        var rest := ReadItems(SkipSpaces(next[1..]));
        if rest.Some? then Some(([item.value.0] + rest.value.0, rest.value.1)) else None
  }

  function ReadFields(s: string): (r: Option<(seq<(string, Json)>, string)>)
    ensures r.Some? ==> |r.value.1| < |s|
    decreases |s|, 1
  {
    if s == "" || s[0] != '"' then None
    else
      var key := ReadText(s[1..]);
      if key.None? || key.value.1 == "" || key.value.1[0] != ':' then None
      else
        var item := ReadValue(SkipSpaces(key.value.1[1..]));
        if item.None? || item.value.1 == "" then None
        else
          var field, next := (key.value.0, item.value.0), item.value.1;
          if next[0] == '}' then Some(([field], next[1..]))
          else if next[0] != ',' then None
          else
            var rest := ReadFields(SkipSpaces(next[1..]));
            if rest.Some? then Some(([field] + rest.value.0, rest.value.1)) else None
  }

  /** The whole text is one value. */
  function Loads(s: string): Option<Json> {
    var r := ReadValue(s);
    if r.Some? && r.value.1 == "" then Some(r.value.0) else None
  }

  // ---- the round trip ----------------------------------------------------

  /** What may follow a value: the end, or a delimiter. */
  predicate Delimited(rest: string) {
    rest == "" || rest[0] == ',' || rest[0] == ']' || rest[0] == '}'
  }

  lemma {:induction false} NumberLengthIs(text: string, rest: string)
    requires (forall i :: 0 <= i < |text| ==> NumberChar(text[i])) && Delimited(rest)
    ensures NumberLength(text + rest) == |text|
  {
    if text == "" {
      assert text + rest == rest;
    } else {
      assert (text + rest)[1..] == text[1..] + rest;
      NumberLengthIs(text[1..], rest);
    }
  }

  lemma NumberReads(text: string, rest: string)
    requires NumberText(text) && Delimited(rest)
    ensures ReadValue(text + rest) == Some((Number(text), rest))
  {
    hide NumberLength;
    var s := text + rest;
    NumberLengthIs(text, rest);
    assert s[..|text|] == text && s[|text|..] == rest && s[0] == text[0];
    NoKeyword(text, rest);
    ReadsNumber(s);
  }

  lemma ReadsNumber(s: string)
    requires s != "" && s[0] != '"' && s[0] != '[' && s[0] != '{'
    requires !("null" <= s) && !("true" <= s) && !("false" <= s) && NumberLength(s) > 0
    ensures ReadValue(s) == Some((Number(s[..NumberLength(s)]), s[NumberLength(s)..]))
  {
    hide NumberLength, ReadText, ReadItems, ReadFields;
  }

  /** No number starts like a keyword that goes on beyond it. */
  lemma NoKeyword(text: string, rest: string)
    requires NumberText(text) && Delimited(rest)
    ensures !("null" <= text + rest) && !("true" <= text + rest) && !("false" <= text + rest)
  {
    var s := text + rest;
    assert forall i :: 0 <= i < |text| ==> NumberChar(s[i]);
    assert |text| < |s| ==> s[|text|] == rest[0];
    Breaks(s, |text|);
  }

  lemma Breaks(s: string, n: nat)
    requires 1 <= n <= |s| && (n < |s| ==> s[n] == ',' || s[n] == ']' || s[n] == '}')
    requires forall i :: 0 <= i < n ==> s[i] != 'u' && s[i] != 'r' && s[i] != 'l'
    ensures !("null" <= s) && !("true" <= s) && !("false" <= s)
  {
    KeywordChars(s);
  }

  lemma KeywordChars(s: string)
    ensures "null" <= s ==> |s| >= 4 && s[0] == 'n' && s[1] == 'u'
    ensures "true" <= s ==> |s| >= 4 && s[0] == 't' && s[1] == 'r'
    ensures "false" <= s ==> |s| >= 5 && s[0] == 'f' && s[1] == 'a' && s[2] == 'l'
  {
    if "null" <= s { assert s[0] == "null"[0] && s[1] == "null"[1]; }
    if "true" <= s { assert s[0] == "true"[0] && s[1] == "true"[1]; }
    if "false" <= s { assert s[0] == "false"[0] && s[1] == "false"[1] && s[2] == "false"[2]; }
  }

  lemma QuotedReads(t: string, rest: string)
    ensures ReadValue(Quoted(t) + rest) == Some((Str(t), rest))
    ensures Quoted(t) + rest != "" && (Quoted(t) + rest)[0] ==
              '"' && ReadText((Quoted(t) + rest)[1..]) == Some((t, rest))
  {
    hide EscapedText, ReadText, ReadItems, ReadFields, NumberLength;
    var s := Quoted(t) + rest;
    assert s[0] == '"' && s[1..] == EscapedText(t) + "\"" + rest;
    KeywordChars(s);
    TextReads(t, rest);
  }

  predicate AllNumbers(items: seq<Json>) {
    forall i :: 0 <= i < |items| ==> NumbersOk(items[i])
  }

  predicate FieldNumbers(fields: seq<(string, Json)>) {
    forall i :: 0 <= i < |fields| ==> NumbersOk(fields[i].1)
  }

  lemma {:induction false} ValueReads(j: Json, rest: string)
    requires NumbersOk(j) && Delimited(rest)
    ensures ReadValue(Dumps(j) + rest) == Some((j, rest))
    decreases j, 1
  {
    match j {
      case Null => KeywordReads(rest);
      case Bool(_) => KeywordReads(rest);
      case Number(text) => NumberReads(text, rest);
      case Str(t) => QuotedReads(t, rest);
      case Arr(items) =>
        if items == [] { EmptyReads(rest); } else {
          ItemsRead(items, rest);
          BracketReads(items, rest);
        }
      case Obj(fields) =>
        if fields == [] { EmptyReads(rest); } else {
          FieldsRead(fields, rest);
          BraceReads(fields, rest);
        }
    }
  }

  lemma KeywordReads(rest: string)
    ensures ReadValue("null" + rest) == Some((Null, rest))
    ensures ReadValue("true" + rest) == Some((Bool(true), rest))
    ensures ReadValue("false" + rest) == Some((Bool(false), rest))
  {
    hide ReadText, ReadItems, ReadFields, NumberLength;
    KeywordChars("true" + rest);
    KeywordChars("false" + rest);
    assert ("null" + rest)[4..] == rest && ("true" + rest)[4..] == rest && ("false" + rest)[5..] == rest;
    assert ("true" + rest)[0] == 't' && ("false" + rest)[0] == 'f';
  }

  lemma EmptyReads(rest: string)
    ensures ReadValue(Dumps(Arr([])) + rest) == Some((Arr([]), rest))
    ensures ReadValue(Dumps(Obj([])) + rest) == Some((Obj([]), rest))
  {
    hide ReadText, ReadItems, ReadFields, NumberLength;
    assert Dumps(Arr([])) == "[]" && Dumps(Obj([])) == "{}";
    KeywordChars("[]" + rest);
    KeywordChars("{}" + rest);
    assert ("[]" + rest)[2..] == rest && ("{}" + rest)[2..] == rest;
    assert ("[]" + rest)[0] == '[' && ("{}" + rest)[0] == '{';
  }

  /** No value starts like the end of a collection. */
  lemma DumpsStarts(j: Json)
    requires NumbersOk(j)
    ensures Dumps(j) != "" && Dumps(j)[0] != ']' && Dumps(j)[0] != '}' && Dumps(j)[0] != ' '
  {
    hide DumpsItems, DumpsFields, EscapedText;
    if j.Number? { assert NumberChar(j.text[0]); }
  }

  lemma BracketReads(items: seq<Json>, rest: string)
    requires items != [] && AllNumbers(items)
    requires ReadItems(DumpsItems(items) + "]" + rest) == Some((items, rest))
    ensures ReadValue(Dumps(Arr(items)) + rest) == Some((Arr(items), rest))
  {
    hide ReadText, ReadItems, ReadFields, NumberLength;
    DumpsStarts(items[0]);
    ItemsStart(items);
    var s := Dumps(Arr(items)) + rest;
    assert s[1..] == DumpsItems(items) + "]" + rest;
    KeywordChars(s);
    assert s[0] == '[' && s[1] == DumpsItems(items)[0];
  }

  lemma ItemsStart(items: seq<Json>)
    requires items != [] && Dumps(items[0]) != ""
    ensures DumpsItems(items) != "" && DumpsItems(items)[0] == Dumps(items[0])[0]
  {
    hide Dumps;
  }

  lemma FieldsStart(fields: seq<(string, Json)>)
    requires fields != []
    ensures DumpsFields(fields) != "" && DumpsFields(fields)[0] == '"'
  {
    hide Dumps, EscapedText;
  }

  lemma BraceReads(fields: seq<(string, Json)>, rest: string)
    requires fields != []
    requires ReadFields(DumpsFields(fields) + "}" + rest) == Some((fields, rest))
    ensures ReadValue(Dumps(Obj(fields)) + rest) == Some((Obj(fields), rest))
  {
    hide ReadText, ReadItems, ReadFields, NumberLength, DumpsFields;
    FieldsStart(fields);
    var s := Dumps(Obj(fields)) + rest;
    assert s[1..] == DumpsFields(fields) + "}" + rest;
    KeywordChars(s);
    assert s[0] == '{' && s[1] == DumpsFields(fields)[0];
  }

  lemma LastItemReads(text: string, item: Json, rest: string)
    requires ReadValue(text + "]" + rest) == Some((item, "]" + rest))
    ensures ReadItems(text + "]" + rest) == Some(([item], rest))
  {
    hide ReadValue;
    assert ("]" + rest)[1..] == rest;
  }

  lemma FirstItemReads(text: string, item: Json, tail: string, items: seq<Json>, rest: string)
    requires ReadValue(text + (", " + tail)) == Some((item, ", " + tail))
    requires tail != "" && tail[0] != ' ' && ReadItems(tail) == Some((items, rest))
    ensures ReadItems(text + (", " + tail)) == Some(([item] + items, rest))
  {
    hide ReadValue;
    var s, next := text + (", " + tail), ", " + tail;
    assert next[1..] == " " + tail && (" " + tail)[1..] == tail;
    assert SkipSpaces(next[1..]) == tail;
    assert ReadItems(s) == Some(([item] + items, rest)) by {
      assert ReadValue(s) == Some((item, next)) && next != "" && next[0] == ',';
    }
  }

  lemma {:induction false} ItemsRead(items: seq<Json>, rest: string)
    requires items != [] && AllNumbers(items)
    ensures ReadItems(DumpsItems(items) + "]" + rest) == Some((items, rest))
    decreases items, 0
  {
    hide ReadValue, ReadItems, Dumps, NumbersOk;
    var first := Dumps(items[0]);
    if |items| == 1 {
      assert first + "]" + rest == first + ("]" + rest);
      ValueReads(items[0], "]" + rest);
      LastItemReads(first, items[0], rest);
      assert [items[0]] == items;
    } else {
      var tail := DumpsItems(items[1..]) + "]" + rest;
      assert DumpsItems(items) + "]" + rest == first + (", " + tail);
      ValueReads(items[0], ", " + tail);
      ItemsRead(items[1..], rest);
      DumpsStarts(items[1]);
      ItemsStart(items[1..]);
      FirstItemReads(first, items[0], tail, items[1..], rest);
      assert [items[0]] + items[1..] == items;
    }
  }

  /** A printed field is read as its key, a colon and its value. */
  lemma FieldReads(key: string, value: Json, after: string)
    requires NumbersOk(value) && ReadValue(Dumps(value) + after) == Some((value, after))
    ensures var s, rest := Quoted(key) + ": " + Dumps(value) + after, ": " + (Dumps(value) + after);
            && s != "" && s[0] == '"' && ReadText(s[1..]) == Some((key, rest)) && rest[0] == ':'
            && ReadValue(SkipSpaces(rest[1..])) == Some((value, after))
  {
    hide ReadValue, ReadText, Dumps, NumbersOk, Quoted;
    var text := Dumps(value) + after;
    assert Quoted(key) + ": " + Dumps(value) + after == Quoted(key) + (": " + text);
    QuotedReads(key, ": " + text);
    DumpsStarts(value);
    assert (": " + text)[1..] == " " + text && (" " + text)[1..] == text;
  }

  lemma {:induction false} FieldsRead(fields: seq<(string, Json)>, rest: string)
    requires fields != [] && FieldNumbers(fields)
    ensures ReadFields(DumpsFields(fields) + "}" + rest) == Some((fields, rest))
    decreases fields, 0
  {
    hide ReadValue, ReadText, Dumps, NumbersOk, Quoted, NumberLength;
    var after := if |fields| == 1 then "}" + rest else ", " + (DumpsFields(fields[1..]) + "}" + rest);
    assert DumpsFields(fields) + "}" + rest == Quoted(fields[0].0) + ": " + Dumps(fields[0].1) + after;
    assert fields[0].1 < fields[0];
    ValueReads(fields[0].1, after);
    FieldReads(fields[0].0, fields[0].1, after);
    assert (fields[0].0, fields[0].1) == fields[0];
    if |fields| == 1 {
      assert after[1..] == rest && [fields[0]] == fields;
    } else {
      FieldsRead(fields[1..], rest);
      FieldsStart(fields[1..]);
      var tail := DumpsFields(fields[1..]) + "}" + rest;
      assert after[1..] == " " + tail && (" " + tail)[1..] == tail && SkipSpaces(after[1..]) == tail;
      assert [fields[0]] + fields[1..] == fields;
    }
  }

  /** Main result: every payload whose numbers are printed as numbers reads back as itself. */
  lemma DumpsReadsBack(j: Json)
    requires NumbersOk(j)
    ensures Loads(Dumps(j)) == Some(j)
  {
    ValueReads(j, "");
    assert Dumps(j) + "" == Dumps(j);
  }

  // ---- what a client reads -----------------------------------------------

  /** The value of a key in an object. */
  function Lookup(fields: seq<(string, Json)>, key: string): Option<Json> {
    if fields == [] then None
    else if fields[0].0 == key then Some(fields[0].1)
    else Lookup(fields[1..], key)
  }

  lemma {:induction false} WithLooksUp(data: seq<(string, Json)>, key: string, value: Json)
    ensures Lookup(With(data, key, value), key) == Some(value)
    ensures forall other :: other != key ==> Lookup(With(data, key, value), other) == Lookup(data, other)
  {
    if data != [] && data[0].0 != key {
      WithLooksUp(data[1..], key, value);
      assert With(data, key, value)[1..] == With(data[1..], key, value);
    } else {
      assert With(data, key, value)[1..] == if data == [] then [] else data[1..];
    }
  }

  /** Main result: a client that decodes the stream and parses each payload gets, event for event and in
  order, the sequence number under its key and every other entry of the event's data as it was. */
  lemma {:induction false} ClientReadsEvents(events: seq<RunEvent>, i: nat)
    requires (forall k :: 0 <= k < |events| ==> EventOk(events[k])) && i < |events|
    ensures |Decode(Wires(events))| == |events|
    ensures var read := Loads(Decode(Wires(events))[i].data);
            && read.Some? && read.value.Obj?
            && Lookup(read.value.fields, "seq") == Some(Number(Decimal(events[i].seqNo)))
            && forall key :: key != "seq" ==> Lookup(read.value.fields, key) == Lookup(events[i].data, key)
  {
    hide Wires, Decode, Decimal, With, Lookup, Loads, Dumps, NumbersOk;
    WireRoundTrip(events);
    ExpectedAt(events, i);
    var n := Number(Decimal(events[i].seqNo));
    NumberIsOk(events[i].seqNo);
    WithNumbers(events[i].data, "seq", n);
    WithLooksUp(events[i].data, "seq", n);
    ObjectIsOk(With(events[i].data, "seq", n));
    DumpsReadsBack(Obj(With(events[i].data, "seq", n)));
  }

  lemma NumberIsOk(n: int)
    ensures NumbersOk(Number(Decimal(n)))
  {
    hide Decimal;
    DecimalIsNumber(n);
  }

  lemma ObjectIsOk(fields: seq<(string, Json)>)
    requires forall i :: 0 <= i < |fields| ==> NumbersOk(fields[i].1)
    ensures NumbersOk(Obj(fields))
  {
  }

  lemma CleanedNext(c: char, rest: string)
    ensures Cleaned([c] + rest) == (if c == '\n' || c == '\r' then "" else [c]) + Cleaned(rest)
  {
    assert ([c] + rest)[1..] == rest;
  }

  /** Cleaning a name drops exactly its line breaks. */
  lemma {:induction false} CleanedDropsBreaks(line: string, c: char, rest: string)
    requires OneLine(line) && (c == '\n' || c == '\r')
    ensures Cleaned(line + [c] + rest) == line + Cleaned(rest)
  {
    hide Cleaned;
    if line == "" {
      assert line + [c] + rest == [c] + rest;
      CleanedNext(c, rest);
      assert "" + Cleaned(rest) == Cleaned(rest);
    } else {
      var tail := line[1..] + [c] + rest;
      assert line + [c] + rest == [line[0]] + tail;
      CleanedNext(line[0], tail);
      CleanedDropsBreaks(line[1..], c, rest);
      assert [line[0]] + (line[1..] + Cleaned(rest)) == line + Cleaned(rest);
    }
  }
}
