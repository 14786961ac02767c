// Server-sent events: how messages are printed, and how a client reads them
// back by section 9.2.6 of the WHATWG HTML Standard.

module Sse {
  import opened Models

  // --- The printer ------------------------------------------------------------

  function Split(payload: string): (lines: seq<string>)
    ensures |lines| > 0
  {
    if payload == "" then [""]
    else
      var rest := Split(payload[1..]);
      if payload[0] == '\n' then [""] + rest else [[payload[0]] + rest[0]] + rest[1..]
  }

  function Body(lines: seq<string>): string {
    if lines == [] then "" else Body(lines[..|lines| - 1]) + ("data: " + lines[|lines| - 1] + "\n")
  }

  function Head(event: Option<string>): string {
    if Truthy(event) then "event: " + event.value + "\n" else ""
  }

  function Format(event: Option<string>, payload: string): string {
    Head(event) + Body(Split(payload)) + "\n"
  }

  const KEEPALIVE := ": keepalive\n\n"

  // --- The reader -------------------------------------------------------------

  datatype Message = Message(event: string, data: string)

  // The line being read, whether a carriage return has just ended one, the
  // event type and data buffers, and what was dispatched.
  datatype Parser = Parser(line: string, afterCR: bool, event: string, data: string, out: seq<Message>)

  const START := Parser("", false, "", "", [])

  function Colon(line: string): (k: nat)
    ensures k <= |line|
  {
    if line == "" || line[0] == ':' then 0 else 1 + Colon(line[1..])
  }

  function Value(line: string): string
    requires line != ""
  {
    var rest := if Colon(line) < |line| then line[Colon(line) + 1..] else "";
    if rest != "" && rest[0] == ' ' then rest[1..] else rest
  }

  function Dispatch(p: Parser): Parser {
    if p.data == "" then p.(event := "")
    else
      var data := if p.data[|p.data| - 1] == '\n' then p.data[..|p.data| - 1] else p.data;
      p.(event := "", data := "", out := p.out + [Message(if p.event == "" then "message" else p.event, data)])
  }

  // Other fields do not matter to what is dispatched.
  function Field(p: Parser, name: string, value: string): Parser {
    if name == "event" then p.(event := value)
    else if name == "data" then p.(data := p.data + value + "\n")
    else p
  }

  function Process(p: Parser, line: string): Parser {
    if line == "" then Dispatch(p)
    else if line[0] == ':' then p
    else Field(p, line[..Colon(line)], Value(line))
  }

  function EndLine(p: Parser): Parser {
    Process(p.(line := "", afterCR := false), p.line)
  }

  function Step(p: Parser, c: char): Parser {
    if c == '\n' then (if p.afterCR then p.(afterCR := false) else EndLine(p))
    else if c == '\r' then EndLine(p).(afterCR := true)
    else p.(line := p.line + [c], afterCR := false)
  }

  function Feed(p: Parser, s: string): Parser
    decreases |s|
  {
    if s == "" then p else Step(Feed(p, s[..|s| - 1]), s[|s| - 1])
  }

  // A line may end in a newline, a carriage return, or both.
  lemma LineEndsAreAlike(p: Parser, c: char)
    requires !p.afterCR && c != '\n'
    ensures Feed(p, "\r\n") == Feed(p, "\n")
    ensures Step(Feed(p, "\r"), c) == Step(Feed(p, "\n"), c)
  {
    assert "\r\n"[..1] == "\r" && "\r"[..0] == "" && "\n"[..0] == "";
  }

  function Decode(s: string): seq<Message> {
    Feed(START, s).out
  }

  // --- Reading piece by piece -------------------------------------------------

  lemma {:induction false} FeedSplits(p: Parser, a: string, b: string)
    ensures Feed(p, a + b) == Feed(Feed(p, a), b)
    decreases |b|
  {
    if b == "" {
      assert a + b == a;
    } else {
      assert (a + b)[..|a + b| - 1] == a + b[..|b| - 1];
      FeedSplits(p, a, b[..|b| - 1]);
    }
  }

  // What was dispatched stays dispatched.
  lemma {:induction false} DispatchedStays(p: Parser, s: string)
    ensures p.out <= Feed(p, s).out
    decreases |s|
  {
    if s != "" {
      DispatchedStays(p, s[..|s| - 1]);
    }
  }

  predicate Free(s: string, c: char) {
    c !in s
  }

  predicate AtLineStart(p: Parser) {
    p.line == "" && !p.afterCR
  }

  // Between two messages.
  predicate Clean(p: Parser) {
    AtLineStart(p) && p.event == "" && p.data == ""
  }

  lemma {:induction false} FeedText(p: Parser, s: string)
    requires !p.afterCR && Free(s, '\n') && Free(s, '\r')
    ensures Feed(p, s) == p.(line := p.line + s)
    decreases |s|
  {
    if s == "" {
      assert p.line + s == p.line;
    } else {
      FeedText(p, s[..|s| - 1]);
      assert p.line + s == (p.line + s[..|s| - 1]) + [s[|s| - 1]];
    }
  }

  lemma FeedLine(p: Parser, line: string)
    requires AtLineStart(p) && Free(line, '\n') && Free(line, '\r')
    ensures Feed(p, line + "\n") == Process(p, line)
  {
    assert (line + "\n")[..|line|] == line;
    FeedText(p, line);
    assert p.line + line == line;
  }

  lemma {:induction false} ColonAfter(name: string, rest: string)
    requires Free(name, ':')
    ensures Colon(name + ":" + rest) == |name|
    decreases |name|
  {
    var line := name + ":" + rest;
    if name != "" {
      assert line[1..] == name[1..] + ":" + rest;
      ColonAfter(name[1..], rest);
    }
  }

  lemma FieldLine(p: Parser, name: string, value: string)
    requires AtLineStart(p) && name != "" && Free(name, ':')
    requires Free(name, '\n') && Free(name, '\r') && Free(value, '\n') && Free(value, '\r')
    ensures Feed(p, name + ": " + value + "\n") == Field(p, name, value)
  {
    var line := name + ": " + value;
    assert line == name + ":" + (" " + value);
    ColonAfter(name, " " + value);
    FeedLine(p, line);
    assert line[..|name|] == name;
    assert line[|name| + 1..] == " " + value;
    assert (" " + value)[1..] == value;
  }

  // --- Round trip -------------------------------------------------------------

  predicate LinesFree(lines: seq<string>, c: char) {
    forall i :: 0 <= i < |lines| ==> Free(lines[i], c)
  }

  // Each line followed by a line feed.
  function Buffer(lines: seq<string>): string {
    if lines == [] then "" else Buffer(lines[..|lines| - 1]) + (lines[|lines| - 1] + "\n")
  }

  lemma {:induction false} BufferCons(line: string, lines: seq<string>)
    ensures Buffer([line] + lines) == line + "\n" + Buffer(lines)
    decreases |lines|
  {
    var all := [line] + lines;
    if lines == [] {
      assert all[..0] == [];
    } else {
      assert all[..|all| - 1] == [line] + lines[..|lines| - 1];
      BufferCons(line, lines[..|lines| - 1]);
    }
  }

  lemma Associates(a: string, b: string, d: string)
    ensures a + b + d == a + (b + d)
  {
  }

  lemma BufferPrepends(c: char, lines: seq<string>)
    requires lines != []
    ensures Buffer([[c] + lines[0]] + lines[1..]) == [c] + Buffer(lines)
  {
    BufferCons(lines[0], lines[1..]);
    assert [lines[0]] + lines[1..] == lines;
    BufferCons([c] + lines[0], lines[1..]);
    Associates([c], lines[0], "\n");
    Associates([c], lines[0] + "\n", Buffer(lines[1..]));
  }

  // Splitting loses nothing.
  lemma {:induction false} SplitBuffer(payload: string)
    ensures Buffer(Split(payload)) == payload + "\n"
    decreases |payload|
  {
    if payload == "" {
      BufferCons("", []);
      assert [""] + [] == [""];
      assert "" + "\n" + "" == "\n";
    } else {
      var rest := Split(payload[1..]);
      SplitBuffer(payload[1..]);
      assert payload + "\n" == [payload[0]] + (payload[1..] + "\n");
      if payload[0] == '\n' {
        BufferCons("", rest);
        assert "" + "\n" + Buffer(rest) == ['\n'] + Buffer(rest);
      } else {
        BufferPrepends(payload[0], rest);
      }
    }
  }

  lemma {:induction false} SplitLines(payload: string, c: char)
    requires c == '\n' || Free(payload, c)
    ensures LinesFree(Split(payload), c)
    decreases |payload|
  {
    if payload != "" {
      SplitLines(payload[1..], c);
    }
  }

  lemma DataIsPlain()
    ensures Free("data", ':') && Free("data", '\n') && Free("data", '\r')
  {
  }

  lemma DataLine(p: Parser, line: string)
    requires AtLineStart(p) && Free(line, '\n') && Free(line, '\r')
    ensures Feed(p, "data: " + line + "\n") == p.(data := p.data + (line + "\n"))
  {
    DataIsPlain();
    assert "data: " == "data" + ": ";
    FieldLine(p, "data", line);
    Associates(p.data, line, "\n");
  }

  lemma {:induction false} FeedBody(p: Parser, lines: seq<string>)
    requires AtLineStart(p) && LinesFree(lines, '\n') && LinesFree(lines, '\r')
    ensures Feed(p, Body(lines)) == p.(data := p.data + Buffer(lines))
    decreases |lines|
  {
    if lines == [] {
      assert p.data + "" == p.data;
    } else {
      var before, line := lines[..|lines| - 1], lines[|lines| - 1];
      FeedBody(p, before);
      FeedSplits(p, Body(before), "data: " + line + "\n");
      DataLine(p.(data := p.data + Buffer(before)), line);
      Associates(p.data, Buffer(before), line + "\n");
    }
  }

  predicate Plain(event: Option<string>) {
    event.Some? ==> Free(event.value, '\n') && Free(event.value, '\r')
  }

  function EventName(event: Option<string>): string {
    if Truthy(event) then event.value else "message"
  }

  lemma FeedHead(p: Parser, event: Option<string>)
    requires Clean(p) && Plain(event)
    ensures Feed(p, Head(event)) == p.(event := if Truthy(event) then event.value else "")
  {
    if Truthy(event) {
      FieldLine(p, "event", event.value);
      assert "event: " + event.value + "\n" == "event" + ": " + event.value + "\n";
    }
  }

  lemma FeedBlank(p: Parser, payload: string)
    requires AtLineStart(p) && p.data == payload + "\n"
    ensures Feed(p, "\n") == p.(event := "", data := "",
                               out := p.out + [Message(if p.event == "" then "message" else p.event, payload)])
  {
    FeedLine(p, "");
    assert "" + "\n" == "\n";
    assert p.data[..|p.data| - 1] == payload;
  }

  // A reader between two messages takes the printed message, and is between
  // two messages again.
  lemma MessageIsRead(p: Parser, event: Option<string>, payload: string)
    requires Clean(p) && Plain(event) && Free(payload, '\r')
    ensures Feed(p, Format(event, payload)) == p.(out := p.out + [Message(EventName(event), payload)])
  {
    var body := Body(Split(payload));
    var p1 := p.(event := if Truthy(event) then event.value else "");
    FeedHead(p, event);
    SplitLines(payload, '\r');
    SplitLines(payload, '\n');
    FeedBody(p1, Split(payload));
    SplitBuffer(payload);
    assert "" + (payload + "\n") == payload + "\n";
    FeedBlank(p1.(data := payload + "\n"), payload);
    FeedSplits(p, Head(event), body);
    FeedSplits(p, Head(event) + body, "\n");
  }

  lemma KeepaliveIsIgnored(p: Parser)
    requires Clean(p)
    ensures Feed(p, KEEPALIVE) == p
  {
    FeedLine(p, ": keepalive");
    FeedLine(p, "");
    assert KEEPALIVE == (": keepalive" + "\n") + ("" + "\n");
    FeedSplits(p, ": keepalive" + "\n", "" + "\n");
  }

  predicate WithoutCR(p: Parser) {
    Free(p.line, '\r') && Free(p.data, '\r') && forall i :: 0 <= i < |p.out| ==> Free(p.out[i].data, '\r')
  }

  lemma StepDropsCR(p: Parser, c: char)
    requires WithoutCR(p)
    ensures WithoutCR(Step(p, c))
  {
  }

  lemma {:induction false} ReaderDropsCR(p: Parser, s: string)
    requires WithoutCR(p)
    ensures WithoutCR(Feed(p, s))
    decreases |s|
  {
    if s != "" {
      ReaderDropsCR(p, s[..|s| - 1]);
      StepDropsCR(Feed(p, s[..|s| - 1]), s[|s| - 1]);
    }
  }

  // A payload survives exactly when it holds no carriage return.
  lemma RoundTripExactly(event: Option<string>, payload: string)
    requires Plain(event)
    ensures Decode(Format(event, payload)) == [Message(EventName(event), payload)] <==> Free(payload, '\r')
  {
    if Free(payload, '\r') {
      MessageIsRead(START, event, payload);
      assert START.out + [Message(EventName(event), payload)] == [Message(EventName(event), payload)];
    } else {
      ReaderDropsCR(START, Format(event, payload));
      var out := Decode(Format(event, payload));
      assert |out| > 0 ==> Free(out[0].data, '\r');
    }
  }
}
