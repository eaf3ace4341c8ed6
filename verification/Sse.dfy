/** Server-sent events read from a body that arrives in arbitrary fragments. */
module Sse {
  import opened Options
  import opened Text
  import Sequences

  const DONE := "[DONE]"

  function TrimEnd(s: string): string {
    if s != [] && IsSpace(s[|s| - 1]) then TrimEnd(s[..|s| - 1]) else s
  }

  function Trim(s: string): string {
    TrimEnd(SkipSpaces(s))
  }

  /** The payload one line carries, if any. */
  function Payload(line: string): Option<string> {
    if !StartsWith(line, "data:") || |line| < 5 then None
    else
      var payload := Trim(line[5..]);
      if payload == [] then None else Some(payload)
  }

  function WithoutCr(line: string): string {
    if line != [] && line[|line| - 1] == '\r' then line[..|line| - 1] else line
  }

  function IndexOfNewline(s: string): (k: int)
    ensures -1 <= k < |s| && (k >= 0 ==> s[k] == '\n')
  {
    if s == [] then -1 else if s[0] == '\n' then 0 else
      var k := IndexOfNewline(s[1..]);
      if k < 0 then -1 else k + 1
  }

  // ----- what a whole text means -----

  /** The lines of a text that a newline ends. */
  function Lines(text: string): seq<string>
    decreases |text|
  {
    var n := IndexOfNewline(text);
    if n < 0 then [] else [text[..n]] + Lines(text[n + 1..])
  }

  /** What follows the last newline. */
  function Tail(text: string): string
    decreases |text|
  {
    var n := IndexOfNewline(text);
    if n < 0 then text else Tail(text[n + 1..])
  }

  function EndedBy(lines: seq<string>): string {
    if lines == [] then [] else lines[0] + "\n" + EndedBy(lines[1..])
  }

  /** Lines and tail are exactly the text. */
  lemma {:induction false} LinesAndTail(text: string)
    ensures text == EndedBy(Lines(text)) + Tail(text)
    decreases |text|
  {
    var n := IndexOfNewline(text);
    if n < 0 {
      Sequences.Unit(text);
    } else {
      var line, rest := text[..n], text[n + 1..];
      LinesAndTail(rest);
      assert text == line + "\n" + rest;
      assert ([line] + Lines(rest))[1..] == Lines(rest);
      Sequences.Associative(line + "\n", EndedBy(Lines(rest)), Tail(rest));
    }
  }

  /** No line and no tail holds a newline. */
  lemma {:induction false} LinesAreLines(text: string)
    ensures '\n' !in Tail(text) && forall i :: 0 <= i < |Lines(text)| ==> '\n' !in Lines(text)[i]
    decreases |text|
  {
    var n := IndexOfNewline(text);
    FirstNewline(text);
    if n >= 0 { LinesAreLines(text[n + 1..]); }
  }

  lemma {:induction false} FirstNewline(s: string)
    ensures IndexOfNewline(s) < 0 ==> '\n' !in s
    ensures IndexOfNewline(s) >= 0 ==> '\n' !in s[..IndexOfNewline(s)]
  {
    if s != [] {
      assert s == [s[0]] + s[1..];
      FirstNewline(s[1..]);
      var n := IndexOfNewline(s);
      if n > 0 { assert s[..n] == [s[0]] + s[1..][..n - 1]; }
    }
  }

  predicate IsDone(line: string) {
    Payload(WithoutCr(line)) == Some(DONE)
  }

  function Yielded(line: string): seq<string> {
    var p := Payload(WithoutCr(line));
    if p.Some? then [p.value] else []
  }

  /** The payloads of the lines before the sentinel. */
  function UntilDone(lines: seq<string>): seq<string> {
    if lines == [] || IsDone(lines[0]) then [] else Yielded(lines[0]) + UntilDone(lines[1..])
  }

  predicate SeesDone(lines: seq<string>) {
    lines != [] && (IsDone(lines[0]) || SeesDone(lines[1..]))
  }

  function LastEvent(tail: string): seq<string> {
    var p := Payload(Trim(tail));
    if p.Some? && p.value != DONE then [p.value] else []
  }

  function Events(text: string): seq<string> {
    UntilDone(Lines(text)) + (if SeesDone(Lines(text)) then [] else LastEvent(Tail(text)))
  }

  // ----- fragments -----

  function Concat(chunks: seq<string>): string {
    if chunks == [] then [] else chunks[0] + Concat(chunks[1..])
  }

  lemma {:induction false} NewlineStays(a: string, b: string)
    requires IndexOfNewline(a) >= 0
    ensures IndexOfNewline(a + b) == IndexOfNewline(a)
  {
    Sequences.Head(a, b);
    if a[0] != '\n' { NewlineStays(a[1..], b); }
  }

  /** A complete line in the buffer is the first line of everything still to come. */
  lemma {:induction false} FirstLine(buffer: string, rest: string)
    requires IndexOfNewline(buffer) >= 0
    ensures var n := IndexOfNewline(buffer);
            Lines(buffer + rest) == [buffer[..n]] + Lines(buffer[n + 1..] + rest) && Tail(buffer + rest) == Tail(buffer[n + 1..] + rest)
  {
    var n := IndexOfNewline(buffer);
    NewlineStays(buffer, rest);
    assert (buffer + rest)[..n] == buffer[..n] && (buffer + rest)[n + 1..] == buffer[n + 1..] + rest;
  }

  /** What remains to be yielded, from a buffer and the text behind it. */
  lemma {:induction false} OneLine(buffer: string, rest: string)
    requires IndexOfNewline(buffer) >= 0
    ensures var n := IndexOfNewline(buffer);
            && (IsDone(buffer[..n]) ==> Events(buffer + rest) == [] && SeesDone(Lines(buffer + rest)))
            && (!IsDone(buffer[..n]) ==> Events(buffer + rest) == Yielded(buffer[..n]) + Events(buffer[n + 1..] + rest)
                                         && SeesDone(Lines(buffer + rest)) == SeesDone(Lines(buffer[n + 1..] + rest)))
  {
    var n := IndexOfNewline(buffer);
    FirstLine(buffer, rest);
    var line, lines := buffer[..n], Lines(buffer[n + 1..] + rest);
    assert ([line] + lines)[1..] == lines && ([line] + lines)[0] == line;
    if IsDone(line) {
      Sequences.Unit<string>([]);
    } else {
      Sequences.Associative(Yielded(line), UntilDone(lines), if SeesDone(lines) then [] else LastEvent(Tail(buffer[n + 1..] + rest)));
    }
  }

  /** The reader: it yields payloads as their lines become complete, and cancels the body when it stops early. */
  method ReadSseStream(chunks: seq<string>) returns (payloads: seq<string>, drained: bool)
    ensures payloads == Events(Concat(chunks))
    ensures drained <==> !SeesDone(Lines(Concat(chunks)))
  {
    payloads := [];
    var buffer, next := "", 0;
    Sequences.Unit(Concat(chunks));
    Sequences.Unit(Events(Concat(chunks)));
    assert chunks[0..] == chunks;
    while next < |chunks|
      invariant 0 <= next <= |chunks| && IndexOfNewline(buffer) < 0
      invariant Events(Concat(chunks)) == payloads + Events(buffer + Concat(chunks[next..]))
      invariant SeesDone(Lines(Concat(chunks))) == SeesDone(Lines(buffer + Concat(chunks[next..])))
    {
      ghost var later := Concat(chunks[next + 1..]);
      assert chunks[next..][1..] == chunks[next + 1..];
      Sequences.Associative(buffer, chunks[next], later);
      var stopped;
      payloads, buffer, stopped := TakeLines(payloads, buffer + chunks[next], later);
      if stopped { return payloads, false; }
      next := next + 1;
    }
    Sequences.Unit(buffer);
    assert chunks[next..] == [];
    payloads := payloads + LastEvent(buffer);
    Sequences.Unit(LastEvent(buffer));
    drained := true;
  }

  /** Yields the payloads of the complete lines in the buffer. */
  method TakeLines(before: seq<string>, text: string, ghost later: string) returns (payloads: seq<string>, buffer: string, stopped: bool)
    ensures before + Events(text + later) == payloads + (if stopped then [] else Events(buffer + later))
    ensures stopped ==> SeesDone(Lines(text + later))
    ensures !stopped ==> IndexOfNewline(buffer) < 0 && SeesDone(Lines(text + later)) == SeesDone(Lines(buffer + later))
  {
    payloads, buffer := before, text;
    var newlineIndex := IndexOfNewline(buffer);
    while newlineIndex != -1
      invariant newlineIndex == IndexOfNewline(buffer)
      invariant before + Events(text + later) == payloads + Events(buffer + later)
      invariant SeesDone(Lines(text + later)) == SeesDone(Lines(buffer + later))
      decreases |buffer|
    {
      OneLine(buffer, later);
      var line := WithoutCr(buffer[..newlineIndex]);
      ghost var yielded, rest := Yielded(buffer[..newlineIndex]), Events(buffer[newlineIndex + 1..] + later);
      buffer := buffer[newlineIndex + 1..];
      newlineIndex := IndexOfNewline(buffer);
      var payload := Payload(line);
      if payload == Some(DONE) { return payloads, buffer, true; }
      Sequences.Associative(payloads, yielded, rest);
      if payload.Some? { payloads := payloads + [payload.value]; } else { Sequences.Unit(payloads); }
    }
    stopped := false;
  }
}
