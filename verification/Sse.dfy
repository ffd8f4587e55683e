/**
 The incremental event-stream parser inside `connect_sse` (src/http/client.rs), on decoded text.
 */
module Sse {
  import opened Basics
  import opened Text

  /** One call of the event handler. */
  datatype Call = Call(kind: string, data: string)

  /** The parser's variables, and the handler calls it has made. */
  datatype Parser = Parser(eventType: string, dataLines: seq<string>, leftover: string, calls: seq<Call>)

  // ------------------------------------------------------------------
  // The parser, one character at a time
  // ------------------------------------------------------------------

  /** A complete line, its newline removed. */
  function OnLine(p: Parser, raw: string): Parser {
    var line := TrimEndChar(raw, '\r');
    if line == "" then
      if p.dataLines == [] then p
      else p.(calls := p.calls + [Call(p.eventType, Join(p.dataLines))], dataLines := [], eventType := "message")
    else match StripPrefix(line, "event:")
      case Some(value) => p.(eventType := Trim(value))
      case None =>
        match StripPrefix(line, "data:")
        case Some(value) => p.(dataLines := p.dataLines + [Trim(value)])
        case None => p
  }

  function OnChar(p: Parser, c: char): Parser {
    if c == '\n' then OnLine(p, p.leftover).(leftover := "") else p.(leftover := p.leftover + [c])
  }

  /** What the text does to the parser when read one character at a time: the reference for the chunked loops. */
  function Chars(p: Parser, text: string): Parser {
    if |text| == 0 then p else OnChar(Chars(p, text[..|text| - 1]), text[|text| - 1])
  }

  const START := Parser("message", [], "", [])

  lemma {:induction false} CharsAppend(p: Parser, a: string, b: string)
    ensures Chars(p, a + b) == Chars(Chars(p, a), b)
  {
    if |b| == 0 {
      assert a + b == a;
    } else {
      assert (a + b)[..|a + b| - 1] == a + b[..|b| - 1];
      CharsAppend(p, a, b[..|b| - 1]);
    }
  }

  /** Text without a newline only extends the leftover. */
  lemma {:induction false} CharsNoNewline(p: Parser, text: string)
    requires '\n' !in text
    ensures Chars(p, text) == p.(leftover := p.leftover + text)
  {
    if |text| == 0 {
      assert p.leftover + text == p.leftover;
    } else {
      CharsNoNewline(p, text[..|text| - 1]);
      assert p.leftover + text == (p.leftover + text[..|text| - 1]) + [text[|text| - 1]];
    }
  }

  /** The first line of a text, once complete, acts as one line. */
  lemma CharsLine(p: Parser, line: string, rest: string)
    requires '\n' !in line && p.leftover == ""
    ensures Chars(p, line + "\n" + rest) == Chars(OnLine(p.(leftover := line), line).(leftover := ""), rest)
  {
    CharsAppend(p, line + "\n", rest);
    CharsNoNewline(p, line);
    assert "" + line == line;
    assert (line + "\n")[..|line|] == line;
  }

  /** Between characters the leftover never holds a newline. */
  lemma {:induction false} LeftoverNoNewline(p: Parser, text: string)
    requires '\n' !in p.leftover
    ensures '\n' !in Chars(p, text).leftover
  {
    if |text| > 0 {
      LeftoverNoNewline(p, text[..|text| - 1]);
    }
  }

  /** What the parser becomes when its leftover is read as new text. */
  ghost function Unread(p: Parser): Parser {
    Chars(p.(leftover := ""), p.leftover)
  }

  lemma FeedStart(p: Parser, text: string)
    requires '\n' !in p.leftover
    ensures Unread(p.(leftover := p.leftover + text)) == Chars(p, text)
  {
    CharsAppend(p.(leftover := ""), p.leftover, text);
    FeedEnd(p);
  }

  lemma FeedLine(p: Parser, i: nat)
    requires i < |p.leftover| && p.leftover[i] == '\n' && '\n' !in p.leftover[..i]
    ensures Unread(OnLine(p.(leftover := p.leftover[i + 1..]), p.leftover[..i])) == Unread(p)
  {
    assert p.leftover == p.leftover[..i] + "\n" + p.leftover[i + 1..];
    CharsLine(p.(leftover := ""), p.leftover[..i], p.leftover[i + 1..]);
  }

  lemma FeedEnd(p: Parser)
    requires '\n' !in p.leftover
    ensures Unread(p) == p
  {
    CharsNoNewline(p.(leftover := ""), p.leftover);
    assert "" + p.leftover == p.leftover;
  }

  // ------------------------------------------------------------------
  // The parser as it runs: chunk by chunk, line by line
  // ------------------------------------------------------------------

  class SseParser {
    var eventType: string
    var dataLines: seq<string>
    var leftover: string
    var calls: seq<Call>

    ghost function View(): Parser
      reads this
    {
      Parser(eventType, dataLines, leftover, calls)
    }

    constructor ()
      ensures View() == START
    {
      eventType := "message";
      dataLines := [];
      leftover := "";
      calls := [];
    }

    method HandleLine(drained: string)
      requires |drained| > 0 && drained[|drained| - 1] == '\n' && '\n' !in drained[..|drained| - 1]
      modifies this
      ensures View() == OnLine(old(View()), drained[..|drained| - 1])
    {
      var raw := TrimEndChar(drained, '\n');
      TrimEndCharStops(drained[..|drained| - 1], '\n');
      var line := TrimEndChar(raw, '\r');
      if line == "" {
        if dataLines != [] {
          var data := Join(dataLines);
          calls := calls + [Call(eventType, data)];
          dataLines := [];
          eventType := "message";
        }
      } else {
        var event := StripPrefix(line, "event:");
        var data := StripPrefix(line, "data:");
        if event.Some? {
          eventType := Trim(event.value);
        } else if data.Some? {
          dataLines := dataLines + [Trim(data.value)];
        }
      }
    }

    /** The first line is drained from the leftover, newline included, and handled. */
    method TakeLine(i: nat)
      requires i < |leftover| && leftover[i] == '\n' && '\n' !in leftover[..i]
      modifies this
      ensures View() == OnLine(old(View()).(leftover := old(leftover)[i + 1..]), old(leftover)[..i])
      ensures Unread(View()) == Unread(old(View()))
    {
      FeedLine(View(), i);
      var drained := leftover[..i + 1];
      assert drained[..i] == leftover[..i];
      leftover := leftover[i + 1..];
      HandleLine(drained);
    }

    /** One chunk: the lines it completes are handled, and what follows the last newline is kept. */
    method Feed(text: string)
      requires '\n' !in leftover
      modifies this
      ensures View() == Chars(old(View()), text)
      ensures '\n' !in leftover
    {
      ghost var whole := Chars(View(), text);
      FeedStart(View(), text);
      leftover := leftover + text;
      var newline := Find(leftover, '\n');
      while newline.Some?
        invariant newline == Find(leftover, '\n')
        invariant Unread(View()) == whole
        decreases |leftover|
      {
        TakeLine(newline.value);
        newline := Find(leftover, '\n');
      }
      FeedEnd(View());
    }

    /** The stream's chunks in turn; a stream error (None) ends the connection with what came before it parsed. */
    method ReadStream(chunks: seq<Option<string>>) returns (ok: bool)
      requires View() == START
      modifies this
      ensures ok == (None !in chunks)
      ensures View() == Chars(START, Flatten(BeforeError(chunks)))
      ensures '\n' !in leftover
    {
      var i := 0;
      while i < |chunks|
        invariant i <= |chunks| && '\n' !in leftover
        invariant None !in chunks[..i] && i <= |BeforeError(chunks)|
        invariant View() == FeedAll(START, BeforeError(chunks)[..i])
      {
        BeforeErrorAt(chunks, i);
        if chunks[i] == None {
          assert BeforeError(chunks)[..i] == BeforeError(chunks) && None == chunks[i];
          FeedAllIsChars(START, BeforeError(chunks));
          return false;
        }
        assert BeforeError(chunks)[..i + 1][..i] == BeforeError(chunks)[..i];
        Feed(chunks[i].value);
        BeforeErrorAt(chunks, i + 1);
        i := i + 1;
      }
      BeforeErrorAt(chunks, i);
      assert BeforeError(chunks)[..i] == BeforeError(chunks) && chunks[..i] == chunks;
      FeedAllIsChars(START, BeforeError(chunks));
      ok := true;
    }
  }

  /** The text chunks ahead of the first stream error. */
  function BeforeError(chunks: seq<Option<string>>): (texts: seq<string>)
    ensures |texts| <= |chunks|
  {
    if |chunks| == 0 || chunks[0].None? then [] else [chunks[0].value] + BeforeError(chunks[1..])
  }

  lemma {:induction false} BeforeErrorAt(chunks: seq<Option<string>>, i: nat)
    requires i <= |chunks| && None !in chunks[..i]
    ensures |BeforeError(chunks)| >= i
    ensures i < |chunks| && chunks[i].Some? ==> |BeforeError(chunks)| > i && BeforeError(chunks)[i] == chunks[i].value
    ensures (i < |chunks| && chunks[i].None?) || i == |chunks| ==> |BeforeError(chunks)| == i
  {
    if i > 0 {
      assert chunks[..i][0] == chunks[0];
      forall c | c in chunks[1..][..i - 1] ensures c in chunks[..i] {
      }
      BeforeErrorAt(chunks[1..], i - 1);
    }
  }

  /** Feeding chunk after chunk. */
  function FeedAll(p: Parser, chunks: seq<string>): Parser {
    if |chunks| == 0 then p else Chars(FeedAll(p, chunks[..|chunks| - 1]), chunks[|chunks| - 1])
  }

  lemma {:induction false} FeedAllIsChars(p: Parser, chunks: seq<string>)
    ensures FeedAll(p, chunks) == Chars(p, Flatten(chunks))
  {
    var n := |chunks|;
    if n > 0 {
      FeedAllIsChars(p, chunks[..n - 1]);
      FlattenAppend(chunks[..n - 1], chunks[n - 1..]);
      assert chunks[..n - 1] + chunks[n - 1..] == chunks;
      assert Flatten(chunks[n - 1..]) == chunks[n - 1] + Flatten(chunks[n - 1..][1..]) == chunks[n - 1];
      CharsAppend(p, Flatten(chunks[..n - 1]), chunks[n - 1]);
    }
  }

  /** Chunking does not matter: two ways of cutting up the same text make the same calls and leave the same parser. */
  lemma ChunkingIndependent(p: Parser, a: seq<string>, b: seq<string>)
    requires Flatten(a) == Flatten(b)
    ensures FeedAll(p, a) == FeedAll(p, b)
  {
    FeedAllIsChars(p, a);
    FeedAllIsChars(p, b);
  }
}

/** Printing events and parsing them back. */
module SseRoundTrip {
  import opened Basics
  import opened Text
  import opened Sse

  /** An event as a server prints it: an optional event line, then data lines. */
  datatype Event = Event(kind: Option<string>, lines: seq<string>)

  predicate OneLine(s: string) {
    '\n' !in s
  }

  ghost predicate Printable(e: Event) {
    && (e.kind.Some? ==> OneLine(e.kind.value))
    && forall line | line in e.lines :: OneLine(line)
  }

  function PrintData(lines: seq<string>): string {
    if |lines| == 0 then "" else "data:" + lines[0] + "\n" + PrintData(lines[1..])
  }

  function PrintEvent(e: Event): string {
    (if e.kind.Some? then "event:" + e.kind.value + "\n" else "") + PrintData(e.lines) + "\n"
  }

  function Print(events: seq<Event>): string {
    if |events| == 0 then "" else PrintEvent(events[0]) + Print(events[1..])
  }

  function TrimAll(lines: seq<string>): (r: seq<string>)
    ensures |r| == |lines|
  {
    seq(|lines|, i requires 0 <= i < |lines| => Trim(lines[i]))
  }

  /** The type in force after an event's own line, if it has one. */
  function KindAfter(kind: string, e: Event): string {
    if e.kind.Some? then Trim(e.kind.value) else kind
  }

  /** The calls a list of events makes when `kind` is in force before it: events without data make none, and their type stays in force. */
  function Expected(kind: string, events: seq<Event>): seq<Call>
    decreases events
  {
    if |events| == 0 then []
    else if |events[0].lines| == 0 then Expected(KindAfter(kind, events[0]), events[1..])
    else [Call(KindAfter(kind, events[0]), Join(TrimAll(events[0].lines)))] + Expected("message", events[1..])
  }

  function KindLeft(kind: string, events: seq<Event>): string
    decreases events
  {
    if |events| == 0 then kind
    else KindLeft(if |events[0].lines| == 0 then KindAfter(kind, events[0]) else "message", events[1..])
  }

  // ------------------------------------------------------------------
  // Carriage returns at the end of a line are white space anyway
  // ------------------------------------------------------------------

  lemma {:induction false} TrimAfterCut(s: string)
    ensures Trim(TrimEndChar(s, '\r')) == Trim(s)
  {
    if |s| > 0 && s[|s| - 1] == '\r' {
      var cut := s[..|s| - 1];
      TrimAfterCut(cut);
      assert cut + ['\r'] == s;
      TrimStartSnoc(cut, '\r');
      var t := TrimStart(cut);
      assert (t + ['\r'])[..|t|] == t;
    }
  }

  /** The tag of a line survives the cut. */
  lemma {:induction false} CutKeepsTag(tag: string, value: string)
    requires |tag| > 0 && tag[|tag| - 1] == ':'
    ensures TrimEndChar(tag + value, '\r') == tag + TrimEndChar(value, '\r')
  {
    if |value| == 0 {
      assert tag + value == tag;
    } else if value[|value| - 1] == '\r' {
      assert (tag + value)[..|tag + value| - 1] == tag + value[..|value| - 1];
      CutKeepsTag(tag, value[..|value| - 1]);
    }
  }

  lemma DataLine(p: Parser, value: string)
    ensures OnLine(p, "data:" + value) == p.(dataLines := p.dataLines + [Trim(value)])
  {
    CutKeepsTag("data:", value);
    TrimAfterCut(value);
    var line := "data:" + TrimEndChar(value, '\r');
    assert line[0] == 'd' && !("event:" <= line);
    assert line[5..] == TrimEndChar(value, '\r');
  }

  lemma EventLine(p: Parser, value: string)
    ensures OnLine(p, "event:" + value) == p.(eventType := Trim(value))
  {
    CutKeepsTag("event:", value);
    TrimAfterCut(value);
    var line := "event:" + TrimEndChar(value, '\r');
    assert line[6..] == TrimEndChar(value, '\r');
  }

  // ------------------------------------------------------------------
  // The round trip
  // ------------------------------------------------------------------

  /** One line of a printed event, read by a parser that has nothing left over. */
  lemma ReadLine(p: Parser, tag: string, value: string, rest: string)
    requires p.leftover == "" && OneLine(value) && OneLine(tag)
    ensures Chars(p, tag + value + "\n" + rest) == Chars(OnLine(p.(leftover := tag + value), tag + value).(leftover := ""), rest)
  {
    CharsLine(p, tag + value, rest);
  }

  lemma ParseDataLine(p: Parser, line: string, tail: string)
    requires p.leftover == "" && OneLine(line)
    ensures Chars(p, "data:" + line + "\n" + tail) == Chars(p.(dataLines := p.dataLines + [Trim(line)]), tail)
  {
    ReadLine(p, "data:", line, tail);
    DataLine(p.(leftover := "data:" + line), line);
  }

  lemma TrimAllCons(data: seq<string>, lines: seq<string>)
    requires |lines| > 0
    ensures (data + [Trim(lines[0])]) + TrimAll(lines[1..]) == data + TrimAll(lines)
  {
  }

  lemma DataApart(lines: seq<string>, rest: string)
    requires |lines| > 0
    ensures PrintData(lines) + rest == "data:" + lines[0] + "\n" + (PrintData(lines[1..]) + rest)
  {
  }

  lemma {:induction false} ParseData(p: Parser, lines: seq<string>, rest: string)
    requires p.leftover == "" && forall line | line in lines :: OneLine(line)
    ensures Chars(p, PrintData(lines) + rest) == Chars(p.(dataLines := p.dataLines + TrimAll(lines)), rest)
    decreases |lines|
  {
    if |lines| == 0 {
      assert PrintData(lines) + rest == rest && p.dataLines + TrimAll(lines) == p.dataLines;
    } else {
      DataApart(lines, rest);
      ParseDataLine(p, lines[0], PrintData(lines[1..]) + rest);
      ParseData(p.(dataLines := p.dataLines + [Trim(lines[0])]), lines[1..], rest);
      TrimAllCons(p.dataLines, lines);
    }
  }

  /** The parser after one whole event. */
  function AfterEvent(p: Parser, e: Event): Parser {
    if |e.lines| == 0 then p.(eventType := KindAfter(p.eventType, e))
    else p.(eventType := "message", calls := p.calls + [Call(KindAfter(p.eventType, e), Join(TrimAll(e.lines)))])
  }

  lemma ParseKind(p: Parser, e: Event, tail: string)
    requires p.leftover == "" && Printable(e)
    ensures Chars(p, (if e.kind.Some? then "event:" + e.kind.value + "\n" else "") + tail) ==
              Chars(p.(eventType := KindAfter(p.eventType, e)), tail)
  {
    if e.kind.Some? {
      ReadLine(p, "event:", e.kind.value, tail);
      EventLine(p.(leftover := "event:" + e.kind.value), e.kind.value);
    } else {
      assert "" + tail == tail;
    }
  }

  lemma ParseBlank(p: Parser, rest: string)
    requires p.leftover == ""
    ensures Chars(p, "\n" + rest) == Chars(OnLine(p, "").(leftover := ""), rest)
  {
    assert "\n" + rest == "" + "\n" + rest;
    CharsLine(p, "", rest);
  }

  lemma ParseEvent(p: Parser, e: Event, rest: string)
    requires p.leftover == "" && p.dataLines == [] && Printable(e)
    ensures Chars(p, PrintEvent(e) + rest) == Chars(AfterEvent(p, e), rest)
  {
    var q := p.(eventType := KindAfter(p.eventType, e));
    var head := if e.kind.Some? then "event:" + e.kind.value + "\n" else "";
    assert PrintEvent(e) + rest == head + (PrintData(e.lines) + ("\n" + rest));
    ParseKind(p, e, PrintData(e.lines) + ("\n" + rest));
    ParseData(q, e.lines, "\n" + rest);
    assert [] + TrimAll(e.lines) == TrimAll(e.lines);
    ParseBlank(q.(dataLines := TrimAll(e.lines)), rest);
  }

  lemma ExpectedStep(p: Parser, events: seq<Event>)
    requires |events| > 0
    ensures var q := AfterEvent(p, events[0]);
            && q.calls + Expected(q.eventType, events[1..]) == p.calls + Expected(p.eventType, events)
            && KindLeft(q.eventType, events[1..]) == KindLeft(p.eventType, events)
            && q.leftover == p.leftover && q.dataLines == p.dataLines
            && forall kind, calls :: q.(eventType := kind, calls := calls) == p.(eventType := kind, calls := calls)
  {
    if |events[0].lines| > 0 {
      var call := [Call(KindAfter(p.eventType, events[0]), Join(TrimAll(events[0].lines)))];
      assert p.calls + (call + Expected("message", events[1..])) == (p.calls + call) + Expected("message", events[1..]);
    }
  }

  /** Any printed events, parsed: exactly the expected calls in order, and a parser ready for the next event. */
  lemma {:induction false} ParseAll(p: Parser, events: seq<Event>)
    requires p.leftover == "" && p.dataLines == [] && forall e | e in events :: Printable(e)
    ensures Chars(p, Print(events)) ==
              p.(eventType := KindLeft(p.eventType, events), calls := p.calls + Expected(p.eventType, events))
    decreases events
  {
    if |events| == 0 {
      assert p.calls + [] == p.calls;
    } else {
      ParseEvent(p, events[0], Print(events[1..]));
      var q := AfterEvent(p, events[0]);
      ParseAll(q, events[1..]);
      ExpectedStep(p, events);
    }
  }

  /** What a client reading printed events under any chunking calls and keeps. */
  lemma RoundTrip(events: seq<Event>, chunks: seq<string>)
    requires (forall e | e in events :: Printable(e)) && Flatten(chunks) == Print(events)
    ensures FeedAll(START, chunks) == Parser(KindLeft("message", events), [], "", Expected("message", events))
  {
    FeedAllIsChars(START, chunks);
    ParseAll(START, events);
    assert [] + Expected("message", events) == Expected("message", events);
  }

  // ------------------------------------------------------------------
  // What the calls carry
  // ------------------------------------------------------------------

  /** The events that have data. */
  function WithData(events: seq<Event>): seq<Event> {
    if |events| == 0 then []
    else (if |events[0].lines| > 0 then [events[0]] else []) + WithData(events[1..])
  }

  /** One call for each event with data, and its data, cut at the newlines, are the event's trimmed lines. */
  ghost predicate Carry(calls: seq<Call>, events: seq<Event>) {
    |calls| == |events| && forall k | 0 <= k < |calls| :: CarriesLines(calls[k], events[k])
  }

  ghost predicate CarriesLines(call: Call, e: Event) {
    Split(call.data, '\n') == TrimAll(e.lines) && (e.kind.Some? ==> call.kind == Trim(e.kind.value))
  }

  lemma TrimOneLine(s: string)
    requires OneLine(s)
    ensures OneLine(Trim(s))
  {
    var i, j := TrimIs(s);
    assert forall c | c in s[i..j] :: c in s;
  }

  lemma LinesCarried(kind: string, e: Event)
    requires Printable(e) && |e.lines| > 0
    ensures CarriesLines(Call(KindAfter(kind, e), Join(TrimAll(e.lines))), e)
  {
    forall line | line in TrimAll(e.lines) ensures '\n' !in line {
      var i :| 0 <= i < |e.lines| && TrimAll(e.lines)[i] == line;
      assert e.lines[i] in e.lines;
      TrimOneLine(e.lines[i]);
    }
    SplitJoin(TrimAll(e.lines));
  }

  lemma {:induction false} ExpectedCarry(kind: string, events: seq<Event>)
    requires forall e | e in events :: Printable(e)
    ensures Carry(Expected(kind, events), WithData(events))
    decreases events
  {
    if |events| > 0 {
      var e, rest := events[0], events[1..];
      assert e in events && forall f | f in rest :: f in events;
      if |e.lines| == 0 {
        ExpectedCarry(KindAfter(kind, e), rest);
        assert [] + WithData(rest) == WithData(rest);
      } else {
        ExpectedCarry("message", rest);
        LinesCarried(kind, e);
      }
    }
  }

  /** Under any chunking, the handler gets one call for each event with data: its own type, if it has one, and its trimmed lines with a newline between two. */
  lemma CallsCarry(events: seq<Event>, chunks: seq<string>)
    requires (forall e | e in events :: Printable(e)) && Flatten(chunks) == Print(events)
    ensures Carry(FeedAll(START, chunks).calls, WithData(events))
  {
    RoundTrip(events, chunks);
    ExpectedCarry("message", events);
  }

  // ------------------------------------------------------------------
  // When the events come back exactly
  // ------------------------------------------------------------------

  /** The calls a reader of the events themselves would make. */
  function AsGiven(events: seq<Event>): seq<Call> {
    if |events| == 0 then []
    else [Call(if events[0].kind.Some? then events[0].kind.value else "message", Join(events[0].lines))] + AsGiven(events[1..])
  }

  ghost predicate LinesTrimmed(lines: seq<string>) {
    forall line | line in lines :: Trim(line) == line
  }

  ghost predicate Trimmed(e: Event) {
    (e.kind.Some? ==> Trim(e.kind.value) == e.kind.value) && LinesTrimmed(e.lines)
  }

  /** Trimming any line makes the joined text shorter. */
  lemma {:induction false} JoinTrimmed(lines: seq<string>)
    ensures |Join(TrimAll(lines))| <= |Join(lines)|
    ensures |Join(TrimAll(lines))| == |Join(lines)| <==> LinesTrimmed(lines)
  {
    if |lines| > 0 {
      JoinTrimmed(lines[1..]);
      assert TrimAll(lines)[1..] == TrimAll(lines[1..]);
      assert LinesTrimmed(lines) <==> Trim(lines[0]) == lines[0] && LinesTrimmed(lines[1..]) by {
        assert lines == [lines[0]] + lines[1..];
      }
    }
  }

  lemma TrimmedLinesStay(lines: seq<string>)
    requires LinesTrimmed(lines)
    ensures TrimAll(lines) == lines
  {
    forall i | 0 <= i < |lines| ensures TrimAll(lines)[i] == lines[i] {
      assert lines[i] in lines;
    }
  }

  lemma {:induction false} ExpectedIsGiven(events: seq<Event>)
    requires forall e | e in events :: |e.lines| > 0
    ensures Expected("message", events) == AsGiven(events) <==> forall e | e in events :: Trimmed(e)
  {
    if |events| > 0 {
      var e, rest := events[0], events[1..];
      assert e in events && events == [e] + rest;
      ExpectedIsGiven(rest);
      var expected, given := Expected("message", events), AsGiven(events);
      assert expected[1..] == Expected("message", rest) && given[1..] == AsGiven(rest);
      assert expected == given <==> expected[0] == given[0] && expected[1..] == given[1..] by {
        assert expected == [expected[0]] + expected[1..] && given == [given[0]] + given[1..];
      }
      assert expected[0] == given[0] <==> Trimmed(e) by {
        JoinTrimmed(e.lines);
        if LinesTrimmed(e.lines) {
          TrimmedLinesStay(e.lines);
        }
      }
    }
  }

  /**
   The round trip. Events with at least one data line each, and no newline in a field, come back in
   order and unchanged under any chunking, and leave the parser as it began, exactly when no field
   has white space at an end.
   */
  lemma ExactRoundTrip(events: seq<Event>, chunks: seq<string>)
    requires (forall e | e in events :: Printable(e) && |e.lines| > 0) && Flatten(chunks) == Print(events)
    ensures FeedAll(START, chunks) == START.(calls := AsGiven(events)) <==> forall e | e in events :: Trimmed(e)
  {
    RoundTrip(events, chunks);
    ExpectedIsGiven(events);
    NoKindLeft(events);
  }

  lemma {:induction false} NoKindLeft(events: seq<Event>)
    requires forall e | e in events :: |e.lines| > 0
    ensures KindLeft("message", events) == "message"
  {
    if |events| > 0 {
      assert events[0] in events;
      NoKindLeft(events[1..]);
    }
  }

  // ------------------------------------------------------------------
  // When a type outlives its event
  // ------------------------------------------------------------------

  /** The type an event of its own is reported with: an empty one is "message". */
  function OwnKind(e: Event): string {
    if e.kind.None? || Trim(e.kind.value) == "" then "message" else Trim(e.kind.value)
  }

  /** The calls under the rule that every blank line forgets the type and an empty type is "message", with this parser's trimming and line ends. */
  function Reset(events: seq<Event>): seq<Call> {
    if |events| == 0 then []
    else if |events[0].lines| == 0 then Reset(events[1..])
    else [Call(OwnKind(events[0]), Join(TrimAll(events[0].lines)))] + Reset(events[1..])
  }

  /** No event with data has a type of its own that is empty once trimmed. */
  ghost predicate NoEmptyKind(events: seq<Event>) {
    forall e | e in events && |e.lines| > 0 && e.kind.Some? :: Trim(e.kind.value) != ""
  }

  lemma NoEmptyKindStep(events: seq<Event>)
    requires |events| > 0
    ensures NoEmptyKind(events) <==>
              (|events[0].lines| > 0 && events[0].kind.Some? ==> Trim(events[0].kind.value) != "") && NoEmptyKind(events[1..])
  {
    assert events == [events[0]] + events[1..];
  }

  /** Each event with data and no type of its own comes when no earlier event's type other than "message" is still in force. */
  ghost predicate NothingInherited(kind: string, events: seq<Event>) {
    forall j | 0 <= j < |events| && events[j].kind.None? && |events[j].lines| > 0 :: KindLeft(kind, events[..j]) == "message"
  }

  /** The type in force before the first event and after it. */
  lemma NothingInheritedStep(kind: string, events: seq<Event>)
    requires |events| > 0
    ensures var after := if |events[0].lines| == 0 then KindAfter(kind, events[0]) else "message";
            NothingInherited(kind, events) <==>
              && (events[0].kind.None? && |events[0].lines| > 0 ==> kind == "message")
              && NothingInherited(after, events[1..])
  {
    var after := if |events[0].lines| == 0 then KindAfter(kind, events[0]) else "message";
    assert events[..0] == [];
    forall j | 0 < j < |events| ensures KindLeft(kind, events[..j]) == KindLeft(after, events[1..][..j - 1]) {
      assert events[..j][0] == events[0] && events[..j][1..] == events[1..][..j - 1];
    }
    if NothingInherited(kind, events) {
      forall j | 0 <= j < |events[1..]| && events[1..][j].kind.None? && |events[1..][j].lines| > 0
        ensures KindLeft(after, events[1..][..j]) == "message"
      {
        assert events[j + 1] == events[1..][j];
        assert KindLeft(kind, events[..j + 1]) == "message";
      }
    }
  }

  lemma {:induction false} ExpectedIsReset(kind: string, events: seq<Event>)
    ensures Expected(kind, events) == Reset(events) <==> NothingInherited(kind, events) && NoEmptyKind(events)
    decreases events
  {
    if |events| > 0 {
      var e, rest := events[0], events[1..];
      NothingInheritedStep(kind, events);
      NoEmptyKindStep(events);
      if |e.lines| == 0 {
        ExpectedIsReset(KindAfter(kind, e), rest);
      } else {
        ExpectedIsReset("message", rest);
        var data := Join(TrimAll(e.lines));
        HeadAndTail(Call(KindAfter(kind, e), data), Expected("message", rest), Call(OwnKind(e), data), Reset(rest));
      }
    }
  }

  lemma HeadAndTail<T>(x: T, xs: seq<T>, y: T, ys: seq<T>)
    ensures [x] + xs == [y] + ys <==> x == y && xs == ys
  {
    assert ([x] + xs)[0] == x && ([x] + xs)[1..] == xs && ([y] + ys)[0] == y && ([y] + ys)[1..] == ys;
  }

  /**
   The reset. Under any chunking the calls are those of the reset rule, with this parser's own trimming
   and line ends, exactly when no event with data and no type of its own meets a type, other than
   "message", left by an event without data, and no event with data has an empty type of its own.
   */
  lemma ResetIff(events: seq<Event>, chunks: seq<string>)
    requires (forall e | e in events :: Printable(e)) && Flatten(chunks) == Print(events)
    ensures FeedAll(START, chunks).calls == Reset(events) <==> NothingInherited("message", events) && NoEmptyKind(events)
  {
    RoundTrip(events, chunks);
    ExpectedIsReset("message", events);
  }

  /** The shortest case: the type of an event without data is reported for the next event, which is wrong unless it is "message". */
  lemma KindLeaks(kind: string, lines: seq<string>, chunks: seq<string>)
    requires OneLine(kind) && |lines| > 0 && forall line | line in lines :: OneLine(line)
    requires Flatten(chunks) == Print([Event(Some(kind), []), Event(None, lines)])
    ensures FeedAll(START, chunks).calls == [Call(Trim(kind), Join(TrimAll(lines)))]
    ensures FeedAll(START, chunks).calls == Reset([Event(Some(kind), []), Event(None, lines)]) <==> Trim(kind) == "message"
  {
    var events := [Event(Some(kind), []), Event(None, lines)];
    RoundTrip(events, chunks);
    var last := [Event(None, lines)];
    assert events[1..] == last && last[1..] == [];
    assert Expected("message", events) == Expected(Trim(kind), last);
    assert Expected(Trim(kind), last) == [Call(Trim(kind), Join(TrimAll(lines)))] + Expected("message", last[1..]);
    assert Reset(events) == Reset(last) == [Call("message", Join(TrimAll(lines)))] + Reset(last[1..]);
    HeadAndTail(Call(Trim(kind), Join(TrimAll(lines))), [], Call("message", Join(TrimAll(lines))), []);
  }
}
