/** The SSE wire format of run events against the decoder of section 9.2.6 of the WHATWG HTML
Living Standard. */
module Sse {
  import opened Decimals

  // ---- the payload: json.dumps with ensure_ascii off -----------------------

  datatype Json = Null | Bool(b: bool) | Number(text: string) | Str(s: string)
                | Arr(items: seq<Json>) | Obj(fields: seq<(string, Json)>)

  /** What Python prints numbers with, not-a-number and infinities included. */
  predicate NumberChar(c: char) {
    || '0' <= c <= '9' || c == '+' || c == '-' || c == '.' || c == 'e'
    || c == 'N' || c == 'a' || c == 'I' || c == 'n' || c == 'f' || c == 'i' || c == 't' || c == 'y'
  }

  predicate NumberText(s: string) {
    s != "" && forall i :: 0 <= i < |s| ==> NumberChar(s[i])
  }

  /** The numbers in a payload are printed as Python prints them: no other characters. */
  predicate NumbersOk(j: Json) {
    match j
    case Number(text) => NumberText(text)
    case Arr(items) => forall i :: 0 <= i < |items| ==> NumbersOk(items[i])
    case Obj(fields) => forall i :: 0 <= i < |fields| ==> NumbersOk(fields[i].1)
    case _ => true
  }

  function HexDigit(n: nat): char
    requires n < 16
  {
    "0123456789abcdef"[n]
  }

  function Escaped(c: char): string {
    if c == '"' then "\\\""
    else if c == '\\' then "\\\\"
    else if c == '\n' then "\\n"
    else if c == '\r' then "\\r"
    else if c == '\t' then "\\t"
    else if c == '\U{0008}' then "\\b"
    else if c == '\U{000C}' then "\\f"
    else if c < ' ' then "\\u00" + [HexDigit(c as int / 16), HexDigit(c as int % 16)]
    else [c]
  }

  function EscapedText(s: string): string {
    if s == "" then "" else Escaped(s[0]) + EscapedText(s[1..])
  }

  function Quoted(s: string): string {
    "\"" + EscapedText(s) + "\""
  }

  function Dumps(j: Json): string {
    match j
    case Null => "null"
    case Bool(b) => if b then "true" else "false"
    case Number(text) => text
    case Str(s) => Quoted(s)
    case Arr(items) => "[" + DumpsItems(items) + "]"
    case Obj(fields) => "{" + DumpsFields(fields) + "}"
  }

  function DumpsItems(items: seq<Json>): string {
    if items == [] then ""
    else if |items| == 1 then Dumps(items[0])
    else Dumps(items[0]) + ", " + DumpsItems(items[1..])
  }

  function DumpsFields(fields: seq<(string, Json)>): string {
    if fields == [] then ""
    else
      assert fields[0].1 < fields[0];
      var head := Quoted(fields[0].0) + ": " + Dumps(fields[0].1);
      if |fields| == 1 then head else head + ", " + DumpsFields(fields[1..])
  }

  predicate OneLine(s: string) {
    '\n' !in s && '\r' !in s
  }

  lemma {:induction false} QuotedOneLine(s: string)
    ensures OneLine(EscapedText(s)) && OneLine(Quoted(s))
  {
    hide Escaped;
    if s != "" {
      EscapedOneLine(s[0]);
      QuotedOneLine(s[1..]);
    }
  }

  lemma EscapedOneLine(c: char)
    ensures OneLine(Escaped(c))
  {
    hide HexDigit;
    if c < ' ' {
      HexOneLine(c as int / 16);
      HexOneLine(c as int % 16);
    }
  }

  lemma HexOneLine(n: nat)
    requires n < 16
    ensures HexDigit(n) != '\n' && HexDigit(n) != '\r'
  {
  }

  lemma NumberOneLine(text: string)
    requires NumberText(text)
    ensures OneLine(text)
  {
    forall i | 0 <= i < |text| ensures text[i] != '\n' && text[i] != '\r' {
      assert NumberChar(text[i]);
    }
  }

  /** A payload never contains a raw line break: every control character is escaped. */
  lemma {:induction false} DumpsOneLine(j: Json)
    requires NumbersOk(j)
    ensures OneLine(Dumps(j))
    decreases j, 1
  {
    match j {
      case Null =>
      case Bool(b) =>
      case Number(text) => NumberOneLine(text);
      case Str(s) => QuotedOneLine(s);
      case Arr(items) => ItemsOneLine(items);
      case Obj(fields) => FieldsOneLine(fields);
    }
  }

  lemma {:induction false} ItemsOneLine(items: seq<Json>)
    requires forall i :: 0 <= i < |items| ==> NumbersOk(items[i])
    ensures OneLine(DumpsItems(items))
    decreases items, 0
  {
    if items != [] {
      DumpsOneLine(items[0]);
      if |items| > 1 { ItemsOneLine(items[1..]); }
    }
  }

  lemma {:induction false} FieldsOneLine(fields: seq<(string, Json)>)
    requires forall i :: 0 <= i < |fields| ==> NumbersOk(fields[i].1)
    ensures OneLine(DumpsFields(fields))
    decreases fields, 0
  {
    if fields != [] {
      QuotedOneLine(fields[0].0);
      assert fields[0].1 < fields[0];
      DumpsOneLine(fields[0].1);
      if |fields| > 1 { FieldsOneLine(fields[1..]); }
    }
  }

  // ---- the wire format -----------------------------------------------------

  datatype RunEvent = RunEvent(name: string, data: seq<(string, Json)>, seqNo: int)

  predicate EventOk(ev: RunEvent) {
    forall i :: 0 <= i < |ev.data| ==> NumbersOk(ev.data[i].1)
  }

  /** A dict display that overrides one key: an existing entry keeps its place. */
  function With(data: seq<(string, Json)>, key: string, value: Json): seq<(string, Json)> {
    if data == [] then [(key, value)]
    else if data[0].0 == key then [(key, value)] + data[1..]
    else [data[0]] + With(data[1..], key, value)
  }

  function Payload(ev: RunEvent): string {
    Dumps(Obj(With(ev.data, "seq", Number(Decimal(ev.seqNo)))))
  }

  function Cleaned(name: string): (clean: string)
    ensures OneLine(clean)
    ensures OneLine(name) ==> clean == name
  {
    if name == "" then ""
    else (if name[0] == '\n' || name[0] == '\r' then "" else [name[0]]) + Cleaned(name[1..])
  }

  function Wire(ev: RunEvent): string {
    "id: " + Decimal(ev.seqNo) + "\n" + "event: " + Cleaned(ev.name) + "\n" + "data: " + Payload(ev) + "\n" + "\n"
  }

  function Wires(events: seq<RunEvent>): string {
    if events == [] then "" else Wire(events[0]) + Wires(events[1..])
  }

  // ---- the standard's decoder ----------------------------------------------

  datatype Delivered = Delivered(kind: string, data: string, lastId: string)

  /** The buffers of the standard and the events dispatched so far. */
  datatype Reader = Reader(lastId: string, data: string, kind: string, out: seq<Delivered>)

  const START := Reader("", "", "", [])

  /** The length of the line a text starts with. */
  function LineLength(s: string): (n: nat)
    ensures n <= |s| && OneLine(s[..n]) && (n < |s| ==> s[n] == '\n' || s[n] == '\r')
  {
    if s == "" || s[0] == '\n' || s[0] == '\r' then 0 else 1 + LineLength(s[1..])
  }

  /** Where the next line starts: CR LF, LF and CR each end one. */
  function NextLine(s: string): (n: nat)
    requires LineLength(s) < |s|
    ensures LineLength(s) < n <= |s|
  {
    var n := LineLength(s);
    if s[n] == '\r' && n + 1 < |s| && s[n + 1] == '\n' then n + 2 else n + 1
  }

  /** Every finished line in turn; what follows the last line break is discarded. */
  function Read(s: string, reader: Reader): Reader
    decreases |s|
  {
    if LineLength(s) == |s| then reader
    else Read(s[NextLine(s)..], ProcessLine(reader, s[..LineLength(s)]))
  }

  function ColonAt(line: string): (n: nat)
    ensures n <= |line| && ':' !in line[..n] && (n < |line| ==> line[n] == ':')
  {
    if line == "" || line[0] == ':' then 0 else 1 + ColonAt(line[1..])
  }

  function ProcessLine(reader: Reader, line: string): Reader {
    var n := ColonAt(line);
    if line == "" then Dispatch(reader)
    else if n == |line| then ProcessField(reader, line, "")
    else if n == 0 then reader
    else ProcessField(reader, line[..n], WithoutSpace(line[n + 1..]))
  }

  function WithoutSpace(value: string): string {
    if value != "" && value[0] == ' ' then value[1..] else value
  }

  function ProcessField(reader: Reader, name: string, value: string): Reader {
    if name == "event" then reader.(kind := value)
    else if name == "data" then reader.(data := reader.data + value + "\n")
    else if name == "id" && '\0' !in value then reader.(lastId := value)
    else reader
  }

  function Dispatch(reader: Reader): Reader {
    if reader.data == "" then reader.(kind := "")
    else
      var data := if reader.data[|reader.data| - 1] == '\n' then reader.data[..|reader.data| - 1] else reader.data;
      Reader(reader.lastId, "", "",
             reader.out + [Delivered(if reader.kind == "" then "message" else reader.kind, data, reader.lastId)])
  }

  function Decode(s: string): seq<Delivered> {
    Read(s, START).out
  }

  // ---- the round trip ------------------------------------------------------

  lemma {:induction false} LineLengthIs(line: string, rest: string)
    requires OneLine(line)
    ensures LineLength(line + "\n" + rest) == |line|
  {
    if line != "" {
      assert (line + "\n" + rest)[1..] == line[1..] + "\n" + rest;
      LineLengthIs(line[1..], rest);
    }
  }

  lemma ReadLine(line: string, rest: string, reader: Reader)
    requires OneLine(line)
    ensures Read(line + "\n" + rest, reader) == Read(rest, ProcessLine(reader, line))
  {
    hide ProcessLine, LineLength;
    var s := line + "\n" + rest;
    LineLengthIs(line, rest);
    assert s[|line|] == '\n' && s[..|line|] == line && s[|line| + 1..] == rest;
  }

  lemma {:induction false} ColonAtIs(name: string, rest: string)
    requires ':' !in name
    ensures ColonAt(name + ":" + rest) == |name|
  {
    if name != "" {
      assert (name + ":" + rest)[1..] == name[1..] + ":" + rest;
      ColonAtIs(name[1..], rest);
    }
  }

  lemma ReadField(name: string, value: string, reader: Reader)
    requires ':' !in name && name != ""
    ensures ProcessLine(reader, name + ": " + value) == ProcessField(reader, name, value)
  {
    hide ProcessField;
    ColonAtIs(name, " " + value);
    var line := name + ": " + value;
    assert line == name + ":" + (" " + value);
    assert line[..|name|] == name && line[|name| + 1..] == " " + value && (" " + value)[1..] == value;
  }

  lemma PayloadIsObject(ev: RunEvent)
    requires EventOk(ev)
    ensures OneLine(Payload(ev)) && Payload(ev) != ""
  {
    var n := Number(Decimal(ev.seqNo));
    assert NumbersOk(n) by { DecimalIsNumber(ev.seqNo); }
    WithNumbers(ev.data, "seq", n);
    DumpsOneLine(Obj(With(ev.data, "seq", n)));
  }

  lemma DecimalIsNumber(n: int)
    ensures NumberText(Decimal(n))
  {
    DecimalChars(n);
  }

  lemma {:induction false} WithNumbers(data: seq<(string, Json)>, key: string, value: Json)
    requires NumbersOk(value) && forall i :: 0 <= i < |data| ==> NumbersOk(data[i].1)
    ensures forall i :: 0 <= i < |With(data, key, value)| ==> NumbersOk(With(data, key, value)[i].1)
  {
    if data != [] && data[0].0 != key { WithNumbers(data[1..], key, value); }
  }

  /** What a client gets for an event: the name without line breaks, the JSON text unchanged, and
  the sequence number as the last event id. */
  function Expected(ev: RunEvent): Delivered {
    Delivered(if Cleaned(ev.name) == "" then "message" else Cleaned(ev.name), Payload(ev), Decimal(ev.seqNo))
  }

  function ExpectedAll(events: seq<RunEvent>): seq<Delivered> {
    if events == [] then [] else [Expected(events[0])] + ExpectedAll(events[1..])
  }

  lemma WireLines(ev: RunEvent, rest: string)
    ensures var id, kind, data := Decimal(ev.seqNo), Cleaned(ev.name), Payload(ev);
            Wire(ev) + rest == ("id: " + id) + "\n" + (("event: " + kind) + "\n" +
                (("data: " + data) + "\n" + ("" + "\n" + rest)))
  {
    hide Payload, Decimal, Cleaned;
  }

  lemma DispatchOne(reader: Reader, data: string)
    requires data != "" && reader.data == data + "\n"
    ensures ProcessLine(reader, "") ==
            var kind := if reader.kind == "" then "message" else reader.kind;
            Reader(reader.lastId, "", "", reader.out + [Delivered(kind, data, reader.lastId)])
  {
    assert reader.data[..|reader.data| - 1] == data;
  }

  lemma WireFields(reader: Reader, id: string, kind: string, data: string)
    requires '\0' !in id
    ensures ProcessLine(reader, "id: " + id) == reader.(lastId := id)
    ensures ProcessLine(reader, "event: " + kind) == reader.(kind := kind)
    ensures ProcessLine(reader, "data: " + data) == reader.(data := reader.data + data + "\n")
  {
    hide ProcessLine;
    ReadField("id", id, reader);
    ReadField("event", kind, reader);
    ReadField("data", data, reader);
    assert "id" + ": " == "id: " && "event" + ": " == "event: " && "data" + ": " == "data: ";
  }

  lemma ExpectedIs(ev: RunEvent)
    ensures var kind := if Cleaned(ev.name) == "" then "message" else Cleaned(ev.name);
            Expected(ev) == Delivered(kind, Payload(ev), Decimal(ev.seqNo))
  {
  }

  lemma ReadWire(ev: RunEvent, rest: string, reader: Reader)
    requires EventOk(ev) && reader.data == ""
    ensures Read(Wire(ev) + rest, reader) == Read(rest, Reader(Decimal(ev.seqNo), "", "", reader.out + [Expected(ev)]))
  {
    hide *;
    var id, kind, data := Decimal(ev.seqNo), Cleaned(ev.name), Payload(ev);
    DecimalChars(ev.seqNo);
    LinesOfWire(ev);
    var r1 := reader.(lastId := id);
    var r2 := r1.(kind := kind);
    WireFields(reader, id, kind, data);
    WireFields(r1, id, kind, data);
    WireFields(r2, id, kind, data);
    DispatchOne(r2.(data := data + "\n"), data);
    assert "" + data + "\n" == data + "\n";
    WireLines(ev, rest);
    ExpectedIs(ev);
    FourLines("id: " + id, "event: " + kind, "data: " + data, "", rest, reader);
  }

  lemma LinesOfWire(ev: RunEvent)
    requires EventOk(ev)
    ensures OneLine("id: " + Decimal(ev.seqNo)) && OneLine("event: " + Cleaned(ev.name))
    ensures OneLine("data: " + Payload(ev)) && OneLine("") && Payload(ev) != ""
  {
    hide Decimal, Cleaned, Payload, EventOk;
    DecimalChars(ev.seqNo);
    PayloadIsObject(ev);
  }

  lemma FourLines(a: string, b: string, c: string, d: string, rest: string, reader: Reader)
    requires OneLine(a) && OneLine(b) && OneLine(c) && OneLine(d)
    ensures Read(a + "\n" + (b + "\n" + (c + "\n" + (d + "\n" + rest))), reader)
         == Read(rest, ProcessLine(ProcessLine(ProcessLine(ProcessLine(reader, a), b), c), d))
  {
    hide *;
    ReadLine(a, b + "\n" + (c + "\n" + (d + "\n" + rest)), reader);
    ReadLine(b, c + "\n" + (d + "\n" + rest), ProcessLine(reader, a));
    ReadLine(c, d + "\n" + rest, ProcessLine(ProcessLine(reader, a), b));
    ReadLine(d, rest, ProcessLine(ProcessLine(ProcessLine(reader, a), b), c));
  }

  lemma {:induction false} ReadWires(events: seq<RunEvent>, reader: Reader)
    requires reader.data == "" && forall i :: 0 <= i < |events| ==> EventOk(events[i])
    ensures Read(Wires(events), reader).out == reader.out + ExpectedAll(events)
    decreases |events|
  {
    hide EventOk, Wire, Expected, Decimal;
    if events != [] {
      ReadWire(events[0], Wires(events[1..]), reader);
      ReadWires(events[1..], Reader(Decimal(events[0].seqNo), "", "", reader.out + [Expected(events[0])]));
    }
  }

  /** Main result: decoding the concatenated wire forms gives back every event, once and in order,
  and the last event ids read back as the sequence numbers. */
  lemma WireRoundTrip(events: seq<RunEvent>)
    requires forall i :: 0 <= i < |events| ==> EventOk(events[i])
    ensures Decode(Wires(events)) == ExpectedAll(events)
    ensures |ExpectedAll(events)| == |events|
    ensures forall i :: 0 <= i < |events| ==> ExpectedAll(events)[i].lastId == Decimal(events[i].seqNo)
    ensures forall i :: 0 <= i < |events| ==> Value(ExpectedAll(events)[i].lastId) == events[i].seqNo
  {
    hide Decimal, Value, EventOk;
    ReadWires(events, START);
    forall i | 0 <= i < |events|
      ensures |ExpectedAll(events)| == |events| && ExpectedAll(events)[i] == Expected(events[i])
           && Value(Decimal(events[i].seqNo)) == events[i].seqNo
    {
      ExpectedAt(events, i);
      DecimalRoundTrip(events[i].seqNo);
    }
  }

  lemma {:induction false} ExpectedAt(events: seq<RunEvent>, i: nat)
    requires i < |events|
    ensures |ExpectedAll(events)| == |events| && ExpectedAll(events)[i] == Expected(events[i])
  {
    hide Expected;
    if |events| > 1 { ExpectedAt(events[1..], if i == 0 then 0 else i - 1); }
  }

  // ---- broken connections --------------------------------------------------

  lemma LineOfPrefix(s: string, k: nat)
    requires k <= |s|
    ensures LineLength(s[..k]) == if LineLength(s) < k then LineLength(s) else k
  {
    var n := LineLength(s);
    assert forall i :: 0 <= i < n ==> s[i] != '\n' && s[i] != '\r' by {
      forall i | 0 <= i < n ensures s[i] != '\n' && s[i] != '\r' { assert s[i] == s[..n][i]; }
    }
    var m := LineLength(s[..k]);
    assert forall i :: 0 <= i < m ==> s[i] != '\n' && s[i] != '\r' by {
      forall i | 0 <= i < m ensures s[i] != '\n' && s[i] != '\r' { assert s[i] == s[..k][..m][i]; }
    }
  }

  lemma LineExtends(reader: Reader, line: string)
    ensures reader.out <= ProcessLine(reader, line).out
  {
  }

  lemma {:induction false} ReadExtends(s: string, reader: Reader)
    ensures reader.out <= Read(s, reader).out
    decreases |s|
  {
    hide ProcessLine, LineLength, NextLine;
    if LineLength(s) != |s| {
      LineExtends(reader, s[..LineLength(s)]);
      ReadExtends(s[NextLine(s)..], ProcessLine(reader, s[..LineLength(s)]));
    }
  }

  lemma NextOfPrefix(s: string, k: nat)
    requires LineLength(s) < k <= |s|
    ensures LineLength(s[..k]) == LineLength(s) && s[..k][..LineLength(s)] == s[..LineLength(s)]
    ensures NextLine(s[..k]) == if NextLine(s) <= k then NextLine(s) else k
  {
    LineOfPrefix(s, k);
  }

  /** Main result: for any stream of characters at all, a connection cut at any point has delivered
  a prefix of what the whole stream delivers, never a partial or altered event. */
  lemma {:induction false} CutDeliversPrefix(s: string, k: nat, reader: Reader)
    requires k <= |s|
    ensures Read(s[..k], reader).out <= Read(s, reader).out
    decreases |s|
  {
    hide ProcessLine, LineLength, NextLine;
    LineOfPrefix(s, k);
    if LineLength(s) >= k {
      ReadExtends(s, reader);
    } else {
      var next, later := NextLine(s), ProcessLine(reader, s[..LineLength(s)]);
      NextOfPrefix(s, k);
      if next <= k {
        assert s[..k][next..] == s[next..][..k - next];
        CutDeliversPrefix(s[next..], k - next, later);
      } else {
        assert s[..k][k..] == "";
        ReadExtends(s[next..], later);
      }
    }
  }
}
