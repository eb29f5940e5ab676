/** A parser that handles a text line by line as the text arrives: what it does with a line
    is a parameter. */
module LineFeed {

  type Handler<!P> = (P, string) -> P

  datatype State<P> = State(buffer: string, pending: P)

  function OnChar<P>(h: Handler<P>, s: State<P>, c: char): State<P> {
    if c == '\n' then State("", h(s.pending, s.buffer)) else State(s.buffer + [c], s.pending)
  }

  /** The state after a text, one character at a time, however the text is cut into chunks. */
  function Fed<P>(h: Handler<P>, s: State<P>, text: string): State<P> {
    if text == "" then s else OnChar(h, Fed(h, s, text[..|text| - 1]), text[|text| - 1])
  }

  /** JavaScript's `text.split('\n')`. */
  function SplitLines(text: string): (lines: seq<string>)
    ensures lines != []
    ensures forall k :: 0 <= k < |lines| ==> '\n' !in lines[k]
  {
    if text == "" then [""] else
      var lines := SplitLines(text[..|text| - 1]);
      var c := text[|text| - 1];
      if c == '\n' then lines + [""]
      else lines[..|lines| - 1] + [lines[|lines| - 1] + [c]]
  }

  function OnLines<P>(h: Handler<P>, p: P, lines: seq<string>): P {
    if lines == [] then p else h(OnLines(h, p, lines[..|lines| - 1]), lines[|lines| - 1])
  }

  lemma OnLinesStep<P>(h: Handler<P>, p: P, lines: seq<string>, i: nat)
    requires i < |lines|
    ensures OnLines(h, p, lines[..i + 1]) == h(OnLines(h, p, lines[..i]), lines[i])
  {
    assert lines[..i + 1][..i] == lines[..i];
  }

  /** Splitting a text into lines and handling all but the last does what feeding it does. */
  lemma {:induction false} FedByLines<P>(h: Handler<P>, p: P, text: string)
    ensures var lines := SplitLines(text);
            Fed(h, State("", p), text) == State(lines[|lines| - 1], OnLines(h, p, lines[..|lines| - 1]))
  {
    if text != "" {
      FedByLines(h, p, text[..|text| - 1]);
      var lines := SplitLines(text[..|text| - 1]);
      if text[|text| - 1] == '\n' {
        assert (lines + [""])[..|lines|] == lines;
      } else {
        var longer := lines[|lines| - 1] + [text[|text| - 1]];
        assert (lines[..|lines| - 1] + [longer])[..|lines| - 1] == lines[..|lines| - 1];
      }
    }
  }

  lemma {:induction false} FedAppend<P>(h: Handler<P>, s: State<P>, a: string, b: string)
    ensures Fed(h, s, a + b) == Fed(h, Fed(h, s, a), b)
  {
    if b == "" {
      assert a + b == a;
    } else {
      FedAppend(h, s, a, b[..|b| - 1]);
      assert (a + b)[..|a + b| - 1] == a + b[..|b| - 1];
    }
  }

  lemma {:induction false} FedWithoutBreak<P>(h: Handler<P>, p: P, text: string)
    requires '\n' !in text
    ensures Fed(h, State("", p), text) == State(text, p)
  {
    if text != "" {
      var init, last := text[..|text| - 1], text[|text| - 1];
      LastIsNoBreak(init, last, text);
      FedWithoutBreak(h, p, init);
      assert Fed(h, State("", p), text) == OnChar(h, Fed(h, State("", p), init), last);
    }
  }

  lemma LastIsNoBreak(init: string, last: char, text: string)
    requires '\n' !in text && text != "" && init == text[..|text| - 1] && last == text[|text| - 1]
    ensures '\n' !in init && last != '\n' && init + [last] == text
  {
    assert last in text;
    assert init + [last] == text;
  }

  /** What one chunk does: the buffered text and the chunk are handled line by line. */
  lemma ChunkByLines<P>(h: Handler<P>, s: State<P>, chunk: string)
    requires '\n' !in s.buffer
    ensures var lines := SplitLines(s.buffer + chunk);
            Fed(h, s, chunk) == State(lines[|lines| - 1], OnLines(h, s.pending, lines[..|lines| - 1]))
  {
    FedWithoutBreak(h, s.pending, s.buffer);
    FedAppend(h, State("", s.pending), s.buffer, chunk);
    FedByLines(h, s.pending, s.buffer + chunk);
  }

  function Concatenation(chunks: seq<string>): string {
    if chunks == [] then "" else Concatenation(chunks[..|chunks| - 1]) + chunks[|chunks| - 1]
  }

  lemma FedNextChunk<P>(h: Handler<P>, s: State<P>, chunks: seq<string>, i: nat)
    requires i < |chunks|
    ensures Fed(h, s, Concatenation(chunks[..i + 1])) == Fed(h, Fed(h, s, Concatenation(chunks[..i])), chunks[i])
  {
    assert chunks[..i + 1][..i] == chunks[..i];
    FedAppend(h, s, Concatenation(chunks[..i]), chunks[i]);
  }

  lemma FedLine<P>(h: Handler<P>, p: P, line: string)
    requires '\n' !in line
    ensures Fed(h, State("", p), line + "\n") == State("", h(p, line))
  {
    FedWithoutBreak(h, p, line);
    assert (line + "\n")[..|line|] == line;
  }

  lemma FedTwoLines<P>(h: Handler<P>, p: P, first: string, second: string)
    requires '\n' !in first && '\n' !in second
    ensures Fed(h, State("", p), first + "\n" + second + "\n") == State("", h(h(p, first), second))
  {
    FedLine(h, p, first);
    FedLine(h, h(p, first), second);
    FedAppend(h, State("", p), first + "\n", second + "\n");
    assert first + "\n" + second + "\n" == (first + "\n") + (second + "\n");
  }

  lemma FedThreeLines<P>(h: Handler<P>, p: P, first: string, second: string, third: string)
    requires '\n' !in first && '\n' !in second && '\n' !in third
    ensures Fed(h, State("", p), first + "\n" + second + "\n" + third + "\n") == State("", h(h(h(p, first), second), third))
  {
    var two := first + "\n" + second + "\n";
    FedTwoLines(h, p, first, second);
    FedLine(h, h(h(p, first), second), third);
    FedAppend(h, State("", p), two, third + "\n");
    assert two + third + "\n" == two + (third + "\n");
  }

  lemma {:induction false} FedKeeps<P>(h: Handler<P>, keeps: P -> bool, s: State<P>, text: string)
    requires keeps(s.pending) && '\n' !in s.buffer
    requires forall p, line {:trigger h(p, line)} :: keeps(p) && '\n' !in line ==> keeps(h(p, line))
    ensures keeps(Fed(h, s, text).pending) && '\n' !in Fed(h, s, text).buffer
  {
    if text != "" { FedKeeps(h, keeps, s, text[..|text| - 1]); }
  }
}

/** The event stream of /invoke/stream: the server's printer, and the widget's parser, which
    gets the text in chunks of any size. Frames follow section 9.2.5 of the HTML Living Standard. */
module Sse {
  import Json
  import JsonReader
  import opened LineFeed

  datatype Event = Event(name: string, data: string)

  // ---- The printer ----

  function Frame(e: Event): string {
    "event: " + e.name + "\n" + "data: " + e.data + "\n" + "\n"
  }

  function Printed(events: seq<Event>): string {
    if events == [] then "" else Printed(events[..|events| - 1]) + Frame(events[|events| - 1])
  }

  // ---- The parser, one character at a time ----

  /** The white space JavaScript's `trim` removes. */
  predicate IsSpace(c: char) {
    var n := c as int;
    || 9 <= n <= 13 || n == 32 || n == 0xA0 || n == 0x1680 || 0x2000 <= n <= 0x200A
    || n == 0x2028 || n == 0x2029 || n == 0x202F || n == 0x205F || n == 0x3000 || n == 0xFEFF
  }

  function TrimStart(s: string): string {
    if s != [] && IsSpace(s[0]) then TrimStart(s[1..]) else s
  }

  function TrimEnd(s: string): string {
    if s != [] && IsSpace(s[|s| - 1]) then TrimEnd(s[..|s| - 1]) else s
  }

  function Trim(s: string): string {
    TrimEnd(TrimStart(s))
  }

  predicate Trimmed(s: string) {
    s == [] || (!IsSpace(s[0]) && !IsSpace(s[|s| - 1]))
  }

  lemma {:induction false} TrimStartTrims(s: string)
    ensures TrimStart(s) == [] || !IsSpace(TrimStart(s)[0])
    ensures '\n' !in s ==> '\n' !in TrimStart(s)
  {
    if s != [] && IsSpace(s[0]) { TrimStartTrims(s[1..]); }
  }

  lemma {:induction false} TrimEndTrims(s: string)
    ensures TrimEnd(s) <= s
    ensures TrimEnd(s) == [] || !IsSpace(TrimEnd(s)[|TrimEnd(s)| - 1])
  {
    if s != [] && IsSpace(s[|s| - 1]) { TrimEndTrims(s[..|s| - 1]); }
  }

  /** Trimming leaves no white space at the ends, adds no line break, and keeps a trimmed text. */
  lemma TrimIsTrimmed(s: string)
    ensures Trimmed(Trim(s)) && ('\n' !in s ==> '\n' !in Trim(s))
    ensures Trimmed(s) ==> Trim(s) == s
  {
    TrimStartTrims(s);
    TrimEndTrims(TrimStart(s));
  }

  /** The event name and data seen since the last event, and the events handled. */
  datatype Pending = Pending(event: string, data: string, handled: seq<Event>)

  function OnLine(p: Pending, line: string): Pending {
    if "event: " <= line then p.(event := Trim(line[7..]), data := "")
    else if "data: " <= line then p.(data := line[6..])
    else if line == "" && p.event != "" && p.data != "" then
      Pending("", "", p.handled + [Event(p.event, p.data)])
    else p
  }

  const START := State("", Pending("", "", []))

  // ---- The parser, chunk by chunk ----

  class Widget {
    var buffer: string
    var currentEvent: string
    var currentData: string
    var handled: seq<Event>

    ghost predicate Valid()
      reads this
    {
      '\n' !in buffer
    }

    ghost function Abstract(): State<Pending>
      reads this
    {
      State(buffer, Pending(currentEvent, currentData, handled))
    }

    constructor ()
      ensures Valid() && Abstract() == START
    {
      buffer, currentEvent, currentData, handled := "", "", "", [];
    }

    /** One round of `pump`: a chunk arrives. */
    method Pump(chunk: string)
      requires Valid()
      modifies this
      ensures Valid() && Abstract() == Fed(OnLine, old(Abstract()), chunk)
    {
      ChunkByLines(OnLine, Abstract(), chunk);
      var lines := SplitLines(buffer + chunk);
      buffer := lines[|lines| - 1];
      HandleLines(lines[..|lines| - 1]);
    }

    method HandleLines(lines: seq<string>)
      modifies `currentEvent, `currentData, `handled
      ensures Abstract().pending == OnLines(OnLine, old(Abstract().pending), lines)
    {
      var i := 0;
      while i < |lines|
        invariant 0 <= i <= |lines|
        invariant Abstract().pending == OnLines(OnLine, old(Abstract().pending), lines[..i])
      {
        OnLinesStep(OnLine, old(Abstract().pending), lines, i);
        HandleLine(lines[i]);
        i := i + 1;
      }
      assert lines[..|lines|] == lines;
    }

    method HandleLine(line: string)
      modifies `currentEvent, `currentData, `handled
      ensures Abstract().pending == OnLine(old(Abstract().pending), line)
    {
      if "event: " <= line {
        currentEvent := Trim(line[7..]);
        currentData := "";
      } else if "data: " <= line {
        currentData := line[6..];
      } else if line == "" && currentEvent != "" && currentData != "" {
        handled := handled + [Event(currentEvent, currentData)];
        currentEvent := "";
        currentData := "";
      }
    }
  }

  /** Whatever the chunks, the parser ends where it would after the whole text at once. */
  method Receive(widget: Widget, chunks: seq<string>)
    requires widget.Valid()
    modifies widget
    ensures widget.Valid() && widget.Abstract() == Fed(OnLine, old(widget.Abstract()), Concatenation(chunks))
  {
    var i := 0;
    while i < |chunks|
      invariant 0 <= i <= |chunks| && widget.Valid()
      invariant widget.Abstract() == Fed(OnLine, old(widget.Abstract()), Concatenation(chunks[..i]))
    {
      FedNextChunk(OnLine, old(widget.Abstract()), chunks, i);
      widget.Pump(chunks[i]);
      i := i + 1;
    }
    assert chunks[..|chunks|] == chunks;
  }

  // ---- The round trip ----

  /** A name that survives: not empty, on one line, without white space at its ends. */
  predicate PlainName(name: string) {
    name != "" && '\n' !in name && Trimmed(name)
  }

  predicate PlainData(data: string) {
    data != "" && '\n' !in data
  }

  ghost predicate PlainNames(events: seq<Event>) {
    forall k :: 0 <= k < |events| ==> PlainName(events[k].name)
  }

  ghost predicate PlainPayloads(events: seq<Event>) {
    forall k :: 0 <= k < |events| ==> PlainData(events[k].data)
  }

  lemma LinesOfFrame(p: Pending, e: Event)
    requires PlainName(e.name) && PlainData(e.data)
    ensures OnLine(OnLine(OnLine(p, "event: " + e.name), "data: " + e.data), "") == Pending("", "", p.handled + [e])
  {
    var first, second := "event: " + e.name, "data: " + e.data;
    assert first[7..] == e.name;
    TrimIsTrimmed(e.name);
    assert second[0] == 'd' && second[6..] == e.data;
  }

  lemma FedFrame(p: Pending, e: Event)
    requires PlainName(e.name) && PlainData(e.data)
    ensures Fed(OnLine, State("", p), Frame(e)) == State("", Pending("", "", p.handled + [e]))
  {
    FedThreeLines(OnLine, p, "event: " + e.name, "data: " + e.data, "");
    LinesOfFrame(p, e);
    assert Frame(e) == ("event: " + e.name) + "\n" + ("data: " + e.data) + "\n" + "" + "\n";
  }

  lemma FedPrinted(h: Handler<Pending>, s: State<Pending>, before: seq<Event>, last: Event)
    ensures Fed(h, s, Printed(before + [last])) == Fed(h, Fed(h, s, Printed(before)), Frame(last))
  {
    assert (before + [last])[..|before|] == before;
    FedAppend(h, s, Printed(before), Frame(last));
  }

  predicate Plain(e: Event) {
    PlainName(e.name) && PlainData(e.data)
  }

  ghost predicate HandlesFrames(h: Handler<Pending>) {
    forall p: Pending, e: Event :: Plain(e) ==>
      Fed(h, State("", p), Frame(e)) == State("", Pending("", "", p.handled + [e]))
  }

  lemma {:induction false} FramesAreHandled(h: Handler<Pending>, events: seq<Event>)
    requires HandlesFrames(h) && forall e :: e in events ==> Plain(e)
    ensures Fed(h, START, Printed(events)) == State("", Pending("", "", events))
  {
    if events != [] {
      var before, last := events[..|events| - 1], events[|events| - 1];
      FramesAreHandled(h, before);
      FedPrinted(h, START, before, last);
      assert before + [last] == events && last in events;
    }
  }

  lemma PrintedIsParsed(events: seq<Event>)
    requires PlainNames(events) && PlainPayloads(events)
    ensures Fed(OnLine, START, Printed(events)) == State("", Pending("", "", events))
  {
    forall p: Pending, e: Event | Plain(e)
      ensures Fed(OnLine, State("", p), Frame(e)) == State("", Pending("", "", p.handled + [e]))
    {
      FedFrame(p, e);
    }
    FramesAreHandled(OnLine, events);
  }

  /** Whatever text arrives, only plain names come out. */
  ghost predicate OnlyPlain(p: Pending) {
    '\n' !in p.event && Trimmed(p.event) && PlainNames(p.handled)
  }

  lemma LinesKeepPlain(p: Pending, line: string)
    requires OnlyPlain(p) && '\n' !in line
    ensures OnlyPlain(OnLine(p, line))
  {
    if "event: " <= line { TrimIsTrimmed(line[7..]); }
  }

  lemma HandledNamesArePlain(text: string)
    ensures PlainNames(Fed(OnLine, START, text).pending.handled)
  {
    forall p: Pending, line | OnlyPlain(p) && '\n' !in line ensures OnlyPlain(OnLine(p, line)) {
      LinesKeepPlain(p, line);
    }
    FedKeeps(OnLine, p => OnlyPlain(p), START, text);
  }

  /** The parser gives back the printed events exactly when every name is plain. */
  lemma RoundTripExactlyForPlainNames(events: seq<Event>)
    requires PlainPayloads(events)
    ensures Fed(OnLine, START, Printed(events)).pending.handled == events <==> PlainNames(events)
  {
    HandledNamesArePlain(Printed(events));
    if PlainNames(events) { PrintedIsParsed(events); }
  }

  // ---- With JSON payloads ----

  datatype Message = Message(name: string, data: Json.Value)

  function Sent(messages: seq<Message>): seq<Event> {
    seq(|messages|, i requires 0 <= i < |messages| => Event(messages[i].name, Json.Dumps(messages[i].data)))
  }

  lemma JsonPayloadsArePlain(messages: seq<Message>)
    requires forall k :: 0 <= k < |messages| ==> Json.NumbersPrintable(messages[k].data)
    ensures PlainPayloads(Sent(messages))
  {
    forall k | 0 <= k < |messages| ensures PlainData(Sent(messages)[k].data) {
      Json.DumpsIsOneLine(messages[k].data);
    }
  }

  /** What JSON reading makes of an event's payload is the message's data. */
  ghost predicate Delivers(events: seq<Event>, messages: seq<Message>) {
    |events| == |messages| && forall k :: 0 <= k < |messages| ==>
      events[k].name == messages[k].name
      && (JsonReader.PlainNumbers(messages[k].data) ==>
        JsonReader.ReadValue(events[k].data) == JsonReader.Got(messages[k].data, ""))
  }

  lemma SentDelivers(messages: seq<Message>)
    ensures Delivers(Sent(messages), messages)
  {
    forall k | 0 <= k < |messages| && JsonReader.PlainNumbers(messages[k].data)
      ensures JsonReader.ReadValue(Sent(messages)[k].data) == JsonReader.Got(messages[k].data, "")
    {
      JsonReader.DumpsIsReadBack(messages[k].data);
    }
  }

  /** Any list of messages, cut anywhere, reaches the widget as the list of printed events,
      whose payloads read back as the data sent. */
  method Stream(messages: seq<Message>, chunks: seq<string>) returns (widget: Widget)
    requires forall k :: 0 <= k < |messages| ==> PlainName(messages[k].name) && Json.NumbersPrintable(messages[k].data)
    requires Concatenation(chunks) == Printed(Sent(messages))
    ensures fresh(widget) && widget.handled == Sent(messages) && widget.buffer == ""
    ensures Delivers(widget.handled, messages)
  {
    JsonPayloadsArePlain(messages);
    PrintedIsParsed(Sent(messages));
    widget := new Widget();
    Receive(widget, chunks);
    SentDelivers(messages);
  }
}
