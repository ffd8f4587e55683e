/**
 Event streams as section 9.2.6 of the WHATWG HTML standard reads them, and when the parser of the HTTP
 client (src/http/client.rs) reads printed events the same way.
 */
module EventStream {
  import opened Basics
  import opened Text
  import opened Sse
  import opened SseRoundTrip

  /** The event type buffer, the lines of the data buffer, and the events dispatched. */
  datatype Reader = Reader(kind: string, data: seq<string>, calls: seq<Call>)

  const FIRST := Reader("", [], [])

  /** A value without the one space that may lead it. */
  function Value(s: string): string {
    if |s| > 0 && s[0] == ' ' then s[1..] else s
  }

  function OnField(r: Reader, name: string, value: string): Reader {
    if name == "event" then r.(kind := value)
    else if name == "data" then r.(data := r.data + [value])
    else r
  }

  /** A blank line dispatches an event if there are data, and forgets the type either way. */
  function OnBlank(r: Reader): Reader {
    if |r.data| == 0 then r.(kind := "")
    else Reader("", [], r.calls + [Call(if r.kind == "" then "message" else r.kind, Join(r.data))])
  }

  /** One line; a comment is a field without a name. */
  function OnLine(r: Reader, line: string): Reader {
    if line == "" then OnBlank(r)
    else match Find(line, ':')
      case None => OnField(r, line, "")
      case Some(i) => OnField(r, line[..i], Value(line[i + 1..]))
  }

  /** The position of the first line end. */
  function LineEnd(s: string): (r: Option<nat>)
    ensures r.Some? ==> r.value < |s|
  {
    if |s| == 0 then None
    else if s[0] == '\n' || s[0] == '\r' then Some(0)
    else match LineEnd(s[1..])
      case None => None
      case Some(i) => Some(i + 1)
  }

  /** A line ends with a newline, a carriage return, or both in a row; what follows the last end is dropped. */
  function Read(r: Reader, text: string): Reader
    decreases |text|
  {
    match LineEnd(text)
    case None => r
    case Some(i) =>
      var next := if text[i] == '\r' && i + 1 < |text| && text[i + 1] == '\n' then i + 2 else i + 1;
      Read(OnLine(r, text[..i]), text[next..])
  }

  /** The events of a stream; a byte order mark at its start is not part of it. */
  function Dispatched(text: string): seq<Call> {
    Read(FIRST, if |text| > 0 && text[0] == '\U{FEFF}' then text[1..] else text).calls
  }

  // ------------------------------------------------------------------
  // Printed events, read by the standard
  // ------------------------------------------------------------------

  /** A field the standard reads as one line. */
  predicate OneField(s: string) {
    '\n' !in s && '\r' !in s
  }

  ghost predicate WellFormed(e: SseRoundTrip.Event) {
    && (e.kind.Some? ==> OneField(e.kind.value))
    && forall line | line in e.lines :: OneField(line)
  }

  function Values(lines: seq<string>): (r: seq<string>)
    ensures |r| == |lines|
  {
    seq(|lines|, i requires 0 <= i < |lines| => Value(lines[i]))
  }

  /** What the standard makes of an event's own type. */
  function KindOf(e: SseRoundTrip.Event): string {
    if e.kind.None? || Value(e.kind.value) == "" then "message" else Value(e.kind.value)
  }

  /** The events that have data, with their own types. */
  function Standard(events: seq<SseRoundTrip.Event>): seq<Call> {
    if |events| == 0 then []
    else if |events[0].lines| == 0 then Standard(events[1..])
    else [Call(KindOf(events[0]), Join(Values(events[0].lines)))] + Standard(events[1..])
  }

  lemma {:induction false} LineEndAt(line: string, rest: string)
    requires OneField(line)
    ensures LineEnd(line + "\n" + rest) == Some(|line|)
  {
    var text := line + "\n" + rest;
    if |line| > 0 {
      assert text[0] == line[0] && line[0] in line;
      assert text[1..] == line[1..] + "\n" + rest;
      LineEndAt(line[1..], rest);
    }
  }

  lemma ReadOne(r: Reader, line: string, rest: string)
    requires OneField(line)
    ensures Read(r, line + "\n" + rest) == Read(OnLine(r, line), rest)
  {
    var text := line + "\n" + rest;
    LineEndAt(line, rest);
    assert text[..|line|] == line && text[|line|] == '\n' && text[|line| + 1..] == rest;
  }

  lemma {:induction false} FindAfter(tag: string, value: string)
    requires ':' !in tag
    ensures Find(tag + ":" + value, ':') == Some(|tag|)
  {
    var s := tag + ":" + value;
    if |tag| > 0 {
      assert s[0] == tag[0] && tag[0] in tag;
      assert s[1..] == tag[1..] + ":" + value;
      FindAfter(tag[1..], value);
    }
  }

  lemma FieldLine(r: Reader, tag: string, value: string)
    requires ':' !in tag
    ensures OnLine(r, tag + ":" + value) == OnField(r, tag, Value(value))
  {
    var line := tag + ":" + value;
    FindAfter(tag, value);
    assert line[..|tag|] == tag && line[|tag| + 1..] == value;
  }

  lemma ReadDataLine(r: Reader, line: string, tail: string)
    requires OneField(line)
    ensures Read(r, "data:" + line + "\n" + tail) == Read(r.(data := r.data + [Value(line)]), tail)
  {
    assert "data" + ":" + line == "data:" + line;
    ReadOne(r, "data:" + line, tail);
    FieldLine(r, "data", line);
  }

  lemma ValuesCons(data: seq<string>, lines: seq<string>)
    requires |lines| > 0
    ensures (data + [Value(lines[0])]) + Values(lines[1..]) == data + Values(lines)
  {
  }

  lemma {:induction false} ReadData(r: Reader, lines: seq<string>, rest: string)
    requires forall line | line in lines :: OneField(line)
    ensures Read(r, PrintData(lines) + rest) == Read(r.(data := r.data + Values(lines)), rest)
    decreases |lines|
  {
    if |lines| == 0 {
      assert PrintData(lines) + rest == rest && r.data + Values(lines) == r.data;
    } else {
      DataApart(lines, rest);
      ReadDataLine(r, lines[0], PrintData(lines[1..]) + rest);
      ReadData(r.(data := r.data + [Value(lines[0])]), lines[1..], rest);
      ValuesCons(r.data, lines);
    }
  }

  /** The reader after one whole event. */
  function AfterEvent(r: Reader, e: SseRoundTrip.Event): Reader {
    Reader("", [], if |e.lines| == 0 then r.calls else r.calls + [Call(KindOf(e), Join(Values(e.lines)))])
  }

  /** The line of the type, if there is one. */
  function KindLine(e: SseRoundTrip.Event): string {
    if e.kind.Some? then "event:" + e.kind.value + "\n" else ""
  }

  /** The reader once it has the type. */
  function AfterKind(r: Reader, e: SseRoundTrip.Event): Reader {
    r.(kind := if e.kind.Some? then Value(e.kind.value) else "")
  }

  lemma ReadKind(r: Reader, e: SseRoundTrip.Event, tail: string)
    requires WellFormed(e) && r.kind == ""
    ensures Read(r, KindLine(e) + tail) == Read(AfterKind(r, e), tail)
  {
    if e.kind.Some? {
      assert "event" + ":" + e.kind.value == "event:" + e.kind.value;
      ReadOne(r, "event:" + e.kind.value, tail);
      FieldLine(r, "event", e.kind.value);
    } else {
      assert "" + tail == tail;
    }
  }

  lemma EventApart(e: SseRoundTrip.Event, rest: string)
    ensures PrintEvent(e) + rest == KindLine(e) + (PrintData(e.lines) + ("\n" + rest))
  {
  }

  lemma ReadBlank(r: Reader, rest: string)
    ensures Read(r, "\n" + rest) == Read(OnBlank(r), rest)
  {
    assert "" + "\n" + rest == "\n" + rest;
    ReadOne(r, "", rest);
  }

  lemma ReadEvent(r: Reader, e: SseRoundTrip.Event, rest: string)
    requires WellFormed(e) && r.kind == "" && r.data == []
    ensures Read(r, PrintEvent(e) + rest) == Read(AfterEvent(r, e), rest)
  {
    var q := AfterKind(r, e);
    EventApart(e, rest);
    ReadKind(r, e, PrintData(e.lines) + ("\n" + rest));
    ReadData(q, e.lines, "\n" + rest);
    assert [] + Values(e.lines) == Values(e.lines);
    ReadBlank(q.(data := Values(e.lines)), rest);
  }

  lemma StandardStep(r: Reader, events: seq<SseRoundTrip.Event>)
    requires |events| > 0
    ensures AfterEvent(r, events[0]).calls + Standard(events[1..]) == r.calls + Standard(events)
  {
    if |events[0].lines| > 0 {
      var call := [Call(KindOf(events[0]), Join(Values(events[0].lines)))];
      assert (r.calls + call) + Standard(events[1..]) == r.calls + (call + Standard(events[1..]));
    }
  }

  lemma {:induction false} ReadAll(r: Reader, events: seq<SseRoundTrip.Event>)
    requires r.kind == "" && r.data == [] && forall e | e in events :: WellFormed(e)
    ensures Read(r, Print(events)).calls == r.calls + Standard(events)
    decreases |events|
  {
    if |events| == 0 {
      assert r.calls + [] == r.calls;
    } else {
      ReadEvent(r, events[0], Print(events[1..]));
      ReadAll(AfterEvent(r, events[0]), events[1..]);
      StandardStep(r, events);
    }
  }

  /** The standard reads printed events as the events that have data, each with its own type. */
  lemma StandardReads(events: seq<SseRoundTrip.Event>)
    requires forall e | e in events :: WellFormed(e)
    ensures Dispatched(Print(events)) == Standard(events)
  {
    ReadAll(FIRST, events);
    assert [] + Standard(events) == Standard(events);
    if |events| > 0 {
      var e := events[0];
      assert Print(events)[0] == PrintEvent(e)[0];
      assert PrintEvent(e)[0] == if e.kind.Some? then 'e' else if |e.lines| > 0 then 'd' else '\n';
    }
  }

  // ------------------------------------------------------------------
  // When the client agrees
  // ------------------------------------------------------------------

  /** The space the standard drops is white space, which the client trims anyway. */
  lemma TrimValue(s: string)
    ensures Trim(Value(s)) == Trim(s)
  {
  }

  /** An event that the client reads as the standard does: no white space at an end but one leading space, and no empty type. */
  ghost predicate ReadAlike(e: SseRoundTrip.Event) {
    && (e.kind.Some? ==> Value(e.kind.value) != "" && Trim(e.kind.value) == Value(e.kind.value))
    && LinesTrimmed(Values(e.lines))
  }

  ghost predicate AllAlike(events: seq<SseRoundTrip.Event>) {
    forall e | e in events && |e.lines| > 0 :: ReadAlike(e)
  }

  lemma AllAlikeStep(events: seq<SseRoundTrip.Event>)
    requires |events| > 0
    ensures AllAlike(events) <==> (|events[0].lines| > 0 ==> ReadAlike(events[0])) && AllAlike(events[1..])
  {
    assert events == [events[0]] + events[1..];
  }

  lemma TrimAllValues(lines: seq<string>)
    ensures TrimAll(Values(lines)) == TrimAll(lines)
  {
    forall i | 0 <= i < |lines| ensures TrimAll(Values(lines))[i] == TrimAll(lines)[i] {
      TrimValue(lines[i]);
    }
  }

  /** Client and standard report the same data exactly when the values are trimmed. */
  lemma SameData(lines: seq<string>)
    ensures Join(TrimAll(lines)) == Join(Values(lines)) <==> LinesTrimmed(Values(lines))
  {
    TrimAllValues(lines);
    JoinTrimmed(Values(lines));
    if LinesTrimmed(Values(lines)) {
      TrimmedLinesStay(Values(lines));
    }
  }

  /** And the same type exactly when the event's own is trimmed and not empty, or it has none and "message" is in force. */
  lemma SameKind(kind: string, e: SseRoundTrip.Event)
    ensures KindAfter(kind, e) == KindOf(e) <==>
              if e.kind.Some? then Value(e.kind.value) != "" && Trim(e.kind.value) == Value(e.kind.value) else kind == "message"
  {
    if e.kind.Some? {
      TrimValue(e.kind.value);
    }
  }

  lemma {:induction false} ExpectedIsStandard(kind: string, events: seq<SseRoundTrip.Event>)
    ensures Expected(kind, events) == Standard(events) <==> NothingInherited(kind, events) && AllAlike(events)
    decreases events
  {
    if |events| > 0 {
      var e, rest := events[0], events[1..];
      NothingInheritedStep(kind, events);
      AllAlikeStep(events);
      if |e.lines| == 0 {
        ExpectedIsStandard(KindAfter(kind, e), rest);
      } else {
        ExpectedIsStandard("message", rest);
        SameData(e.lines);
        SameKind(kind, e);
        HeadAndTail(Call(KindAfter(kind, e), Join(TrimAll(e.lines))), Expected("message", rest),
                    Call(KindOf(e), Join(Values(e.lines))), Standard(rest));
      }
    }
  }

  /**
   The client and the standard. Printed events whose fields hold no line end reach the client's handler,
   under any chunking, as the standard dispatches them exactly when no event with data and no type of its
   own meets a type, other than "message", left by an event without data, and every field of an event
   with data is free of white space at its ends, but for one leading space, and no such type is empty.
   */
  lemma StandardIff(events: seq<SseRoundTrip.Event>, chunks: seq<string>)
    requires (forall e | e in events :: WellFormed(e)) && Flatten(chunks) == Print(events)
    ensures FeedAll(START, chunks).calls == Dispatched(Print(events)) <==> NothingInherited("message", events) && AllAlike(events)
  {
    forall e | e in events ensures Printable(e) {
      assert WellFormed(e);
    }
    RoundTrip(events, chunks);
    StandardReads(events);
    ExpectedIsStandard("message", events);
  }

  const RETURN: SseRoundTrip.Event := SseRoundTrip.Event(None, ["a\rb"])

  lemma ReturnTrimmed()
    ensures Join(TrimAll(["a\rb"])) == "a\rb"
  {
    assert TrimAll(["a\rb"]) == ["a\rb"];
  }

  lemma ReturnExpected()
    ensures Expected("message", [RETURN]) == [Call("message", "a\rb")]
  {
    ReturnTrimmed();
    assert [RETURN][1..] == [];
  }

  lemma ReturnPrinted()
    ensures Print([RETURN]) == "data:a\rb\n\n"
  {
    assert [RETURN][1..] == [] && ["a\rb"][1..] == [];
    assert PrintData(["a\rb"]) == "data:" + "a\rb" + "\n" + "";
    assert PrintEvent(RETURN) == "" + ("data:" + "a\rb" + "\n") + "\n";
  }

  /** A carriage return inside a field is a line end to the standard and data to the client. */
  lemma LoneReturn(chunks: seq<string>)
    requires Flatten(chunks) == Print([RETURN])
    ensures FeedAll(START, chunks).calls == [Call("message", "a\rb")]
    ensures Dispatched(Print([RETURN])) == [Call("message", "a")]
  {
    RoundTrip([RETURN], chunks);
    ReturnExpected();
    ReturnPrinted();
    ReturnRead();
  }

  /** A carriage return by itself ends a line. */
  lemma ReadReturn(r: Reader, line: string, rest: string)
    requires OneField(line) && |rest| > 0 && rest[0] != '\n'
    ensures Read(r, line + "\r" + rest) == Read(OnLine(r, line), rest)
  {
    var text := line + "\r" + rest;
    ReturnAt(line, rest);
    assert text[..|line|] == line && text[|line|] == '\r' && text[|line| + 1..] == rest && text[|line| + 1] == rest[0];
  }

  lemma ReadRest(r: Reader)
    requires |r.data| > 0
    ensures Read(r, "b\n\n") == OnBlank(r)
  {
    assert "b\n\n" == "b" + "\n" + "\n" && "\n" == "" + "\n" + "";
    ReadOne(r, "b", "\n");
    assert OnLine(r, "b") == r;
    ReadOne(r, "", "");
  }

  lemma ReturnRead()
    ensures Read(FIRST, "data:a\rb\n\n").calls == [Call("message", "a")]
  {
    assert "data:a\rb\n\n" == "data:a" + "\r" + "b\n\n" && "data:a" == "data" + ":" + "a";
    ReadReturn(FIRST, "data:a", "b\n\n");
    FieldLine(FIRST, "data", "a");
    assert FIRST.data + ["a"] == ["a"];
    ReadRest(FIRST.(data := ["a"]));
  }

  lemma {:induction false} ReturnAt(line: string, rest: string)
    requires OneField(line)
    ensures LineEnd(line + "\r" + rest) == Some(|line|)
  {
    var text := line + "\r" + rest;
    if |line| > 0 {
      assert text[0] == line[0] && line[0] in line;
      assert text[1..] == line[1..] + "\r" + rest;
      ReturnAt(line[1..], rest);
    }
  }
}
