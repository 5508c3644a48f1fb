/** Reading a proxied model stream: lines out of chunks, and a message rebuilt from the events in them. */
module ProxyStream {
  import opened Messages
  import opened Sequences

  // ---------------------------------------------------------------------------------------------
  // Lines
  // ---------------------------------------------------------------------------------------------

  /** The lines of a text that a newline ends, and what comes after the last newline. */
  datatype Frames = Frames(lines: seq<string>, rest: string)

  function Split(text: string): Frames
  {
    if text == "" then Frames([], "")
    else
      var before := Split(Front(text));
      if Last(text) == '\n' then Frames(before.lines + [before.rest], "")
      else before.(rest := before.rest + [Last(text)])
  }

  /** The lines with their newlines. */
  function Unsplit(lines: seq<string>): string
  {
    if lines == [] then "" else Unsplit(Front(lines)) + Last(lines) + "\n"
  }

  /** Splitting is undone by joining, and it splits at every newline. */
  lemma {:induction false} SplitIsExact(text: string)
    ensures var f := Split(text);
            && Unsplit(f.lines) + f.rest == text
            && '\n' !in f.rest && forall i | 0 <= i < |f.lines| :: '\n' !in f.lines[i]
  {
    if text != "" {
      SplitIsExact(Front(text));
      SplitLast(text);
      var before := Split(Front(text));
      if Last(text) == '\n' {
        FrontOfAppend(before.lines, before.rest);
        assert Unsplit(before.lines) + before.rest + "\n" + "" == text;
      } else {
        ConcatAssociative(Unsplit(before.lines), before.rest, [Last(text)]);
      }
    }
  }

  /** Splitting a longer text goes on from the rest of the shorter one. */
  lemma {:induction false} SplitConcat(a: string, b: string)
    ensures var f, g := Split(a), Split(Split(a).rest + b);
            Split(a + b) == Frames(f.lines + g.lines, g.rest)
  {
    var f := Split(a);
    if b == "" {
      assert a + b == a && f.rest + b == f.rest;
      SplitIsExact(a);
      NoLine(f.rest);
      assert f.lines + [] == f.lines;
    } else {
      SplitConcat(a, Front(b));
      FrontOfConcat(a, b);
      FrontOfConcat(f.rest, b);
      var g := Split(f.rest + Front(b));
      assert f.lines + (g.lines + [g.rest]) == f.lines + g.lines + [g.rest];
    }
  }

  lemma {:induction false} NoLine(a: string)
    requires '\n' !in a
    ensures Split(a) == Frames([], a)
  {
    if a != "" {
      assert '\n' !in Front(a) by { assert forall i | 0 <= i < |a| - 1 :: Front(a)[i] == a[i]; }
      NoLine(Front(a));
      SplitLast(a);
      assert Last(a) in a;
    }
  }

  function Concat(chunks: seq<string>): string
  {
    if chunks == [] then "" else Concat(Front(chunks)) + Last(chunks)
  }

  // ---------------------------------------------------------------------------------------------
  // The message
  // ---------------------------------------------------------------------------------------------

  datatype Kind = TextKind | ThinkingKind | ToolKind

  /** `json` is the text collected so far, while it is being collected; `source` what the arguments were read from. */
  datatype Block =
    | TextBlock(text: string, signature: Option<string>)
    | ThinkingBlock(text: string, signature: Option<string>)
    | ToolBlock(id: string, name: string, json: Option<string>, source: string)

  datatype ProxyEvent =
    | StreamStart
    | TextStart(index: nat)
    | TextDelta(index: nat, delta: string)
    | TextEnd(index: nat, signature: Option<string>)
    | ThinkingStart(index: nat)
    | ThinkingDelta(index: nat, delta: string)
    | ThinkingEnd(index: nat, signature: Option<string>)
    | ToolStart(index: nat, id: string, name: string)
    | ToolDelta(index: nat, delta: string)
    | ToolEnd(index: nat)
    | Done(reason: string)
    | Error(reason: string, message: Option<string>)
    | Unhandled(kind: string)

  datatype Partial = Partial(content: map<nat, Block>, stopReason: string, errorMessage: Option<string>)

  function KindOf(b: Block): Kind
  {
    match b
    case TextBlock(_, _) => TextKind
    case ThinkingBlock(_, _) => ThinkingKind
    case ToolBlock(_, _, _, _) => ToolKind
  }

  predicate Holds(p: Partial, i: nat, k: Kind)
  {
    i in p.content && KindOf(p.content[i]) == k
  }

  function OrUndefined(s: Option<string>): string
  {
    if s.Some? then s.value else "undefined"
  }

  /** The partial message after an event, or nothing if the event does not fit it. */
  function Process(p: Partial, e: ProxyEvent): Option<Partial>
  {
    match e
    case StreamStart => Some(p)
    case TextStart(i) => Some(p.(content := p.content[i := TextBlock("", None)]))
    case ThinkingStart(i) => Some(p.(content := p.content[i := ThinkingBlock("", None)]))
    case ToolStart(i, id, name) => Some(p.(content := p.content[i := ToolBlock(id, name, Some(""), "")]))
    case TextDelta(i, d) =>
      if !Holds(p, i, TextKind) then None
      else Some(p.(content := p.content[i := TextBlock(p.content[i].text + d, p.content[i].signature)]))
    case ThinkingDelta(i, d) =>
      if !Holds(p, i, ThinkingKind) then None
      else Some(p.(content := p.content[i := ThinkingBlock(p.content[i].text + d, p.content[i].signature)]))
    case ToolDelta(i, d) =>
      if !Holds(p, i, ToolKind) then None
      else
        var json := OrUndefined(p.content[i].json) + d;
        Some(p.(content := p.content[i := p.content[i].(json := Some(json), source := json)]))
    case TextEnd(i, s) =>
      if !Holds(p, i, TextKind) then None else Some(p.(content := p.content[i := p.content[i].(signature := s)]))
    case ThinkingEnd(i, s) =>
      if !Holds(p, i, ThinkingKind) then None else Some(p.(content := p.content[i := p.content[i].(signature := s)]))
    case ToolEnd(i) =>
      if !Holds(p, i, ToolKind) then Some(p) else Some(p.(content := p.content[i := p.content[i].(json := None)]))
    case Done(reason) => Some(p.(stopReason := reason))
    case Error(reason, m) => Some(p.(stopReason := reason, errorMessage := m))
    case Unhandled(_) => Some(p)
  }

  function ProcessAll(p: Partial, events: seq<ProxyEvent>): Option<Partial>
  {
    if events == [] then Some(p)
    else
      var before := ProcessAll(p, Front(events));
      if before.None? then None else Process(before.value, Last(events))
  }

  // ---------------------------------------------------------------------------------------------
  // Blocks and their own events
  // ---------------------------------------------------------------------------------------------

  predicate About(e: ProxyEvent, i: nat)
  {
    !e.StreamStart? && !e.Done? && !e.Error? && !e.Unhandled? && e.index == i
  }

  predicate Starts(e: ProxyEvent)
  {
    e.TextStart? || e.ThinkingStart? || e.ToolStart?
  }

  predicate IsDelta(e: ProxyEvent)
  {
    e.TextDelta? || e.ThinkingDelta? || e.ToolDelta?
  }

  /** What kind of block was last started there. */
  function Started(events: seq<ProxyEvent>, i: nat): Option<Kind>
  {
    if events == [] then None
    else
      var e := Last(events);
      if About(e, i) && Starts(e) then
        Some(if e.TextStart? then TextKind else if e.ThinkingStart? then ThinkingKind else ToolKind)
      else Started(Front(events), i)
  }

  /** The deltas of the block there, one after the other, since it was last started. */
  function Deltas(events: seq<ProxyEvent>, i: nat): string
  {
    if events == [] then ""
    else
      var e := Last(events);
      if !About(e, i) then Deltas(Front(events), i)
      else if Starts(e) then ""
      else if IsDelta(e) then Deltas(Front(events), i) + e.delta
      else Deltas(Front(events), i)
  }

  /** The last event about the block is the end of a tool call. */
  function Ended(events: seq<ProxyEvent>, i: nat): bool
  {
    if events == [] then false
    else if About(Last(events), i) then Last(events).ToolEnd?
    else Ended(Front(events), i)
  }

  /** The deltas before the last one that came after the tool call had ended, if any did since it was last started. */
  function Resumed(events: seq<ProxyEvent>, i: nat): Option<string>
  {
    if events == [] then None
    else
      var e := Last(events);
      if !About(e, i) then Resumed(Front(events), i)
      else if Starts(e) then None
      else if IsDelta(e) && Ended(Front(events), i) then Some(Deltas(Front(events), i))
      else Resumed(Front(events), i)
  }

  /** What the arguments of a tool call are read from, and what has been collected. */
  predicate ToolFits(b: Block, deltas: string, ended: bool, resumed: Option<string>)
  {
    && b.ToolBlock?
    && (resumed.Some? ==> resumed.value <= deltas)
    && b.source == (if resumed.None? then deltas else "undefined" + deltas[|resumed.value|..])
    && b.json == if ended then None else Some(b.source)
  }

  predicate Fits(p: Partial, events: seq<ProxyEvent>, i: nat)
  {
    match Started(events, i)
    case None => i !in p.content
    case Some(TextKind) => Holds(p, i, TextKind) && p.content[i].text == Deltas(events, i)
    case Some(ThinkingKind) => Holds(p, i, ThinkingKind) && p.content[i].text == Deltas(events, i)
    case Some(ToolKind) =>
      i in p.content && ToolFits(p.content[i], Deltas(events, i), Ended(events, i), Resumed(events, i))
  }

  const EMPTY: Partial := Partial(map[], "stop", None)

  lemma FitsOther(p: Partial, events: seq<ProxyEvent>, i: nat)
    requires events != [] && Fits(p, Front(events), i) && Process(p, Last(events)).Some? && !About(Last(events), i)
    ensures Fits(Process(p, Last(events)).value, events, i)
  {
    var q := Process(p, Last(events)).value;
    assert i in q.content <==> i in p.content;
    assert i in p.content ==> q.content[i] == p.content[i];
  }

  lemma FitsOwn(p: Partial, events: seq<ProxyEvent>, i: nat)
    requires events != [] && Fits(p, Front(events), i) && Process(p, Last(events)).Some?
    requires About(Last(events), i) && !Last(events).ToolDelta?
    ensures Fits(Process(p, Last(events)).value, events, i)
  {
  }

  /** One more delta: it goes on with what was collected, or with the text that stands for nothing. */
  lemma CollectStep(deltas: string, resumed: Option<string>, delta: string)
    requires resumed.Some? ==> resumed.value <= deltas
    ensures "undefined" + delta == "undefined" + (deltas + delta)[|deltas|..]
    ensures resumed.Some? ==>
              ("undefined" + deltas[|resumed.value|..]) + delta == "undefined" + (deltas + delta)[|resumed.value|..]
  {
    assert (deltas + delta)[|deltas|..] == delta;
    if resumed.Some? {
      assert (deltas + delta)[|resumed.value|..] == deltas[|resumed.value|..] + delta;
      ConcatAssociative("undefined", deltas[|resumed.value|..], delta);
    }
  }

  lemma FitsToolDelta(p: Partial, events: seq<ProxyEvent>, i: nat)
    requires events != [] && Fits(p, Front(events), i) && Process(p, Last(events)).Some?
    requires About(Last(events), i) && Last(events).ToolDelta?
    ensures Fits(Process(p, Last(events)).value, events, i)
  {
    CollectStep(Deltas(Front(events), i), Resumed(Front(events), i), Last(events).delta);
  }

  lemma FitsStep(p: Partial, events: seq<ProxyEvent>, i: nat)
    requires events != [] && Fits(p, Front(events), i) && Process(p, Last(events)).Some?
    ensures Fits(Process(p, Last(events)).value, events, i)
  {
    if !About(Last(events), i) {
      FitsOther(p, events, i);
    } else if Last(events).ToolDelta? {
      FitsToolDelta(p, events, i);
    } else {
      FitsOwn(p, events, i);
    }
  }

  /** However blocks interleave, each block is made of its own events since its last start. */
  lemma {:induction false} BlocksFit(events: seq<ProxyEvent>, i: nat)
    requires ProcessAll(EMPTY, events).Some?
    ensures Fits(ProcessAll(EMPTY, events).value, events, i)
  {
    if events != [] {
      BlocksFit(Front(events), i);
      FitsStep(ProcessAll(EMPTY, Front(events)).value, events, i);
    }
  }

  /** A text or thinking block is the concatenation of its deltas since its start. */
  lemma TextIsItsDeltas(events: seq<ProxyEvent>, i: nat)
    requires ProcessAll(EMPTY, events).Some?
    requires Started(events, i) == Some(TextKind) || Started(events, i) == Some(ThinkingKind)
    ensures var p := ProcessAll(EMPTY, events).value;
            i in p.content && !p.content[i].ToolBlock? && p.content[i].text == Deltas(events, i)
  {
    BlocksFit(events, i);
  }

  /**
   The arguments of a tool call are read from its deltas since its start exactly if no delta came after its
   end, or what came before the last such delta happens to read "undefined".
   */
  lemma ArgumentsComeFromDeltas(events: seq<ProxyEvent>, i: nat)
    requires ProcessAll(EMPTY, events).Some? && Started(events, i) == Some(ToolKind)
    ensures var p := ProcessAll(EMPTY, events).value;
            var resumed := Resumed(events, i);
            && i in p.content && p.content[i].ToolBlock?
            && (p.content[i].source == Deltas(events, i) <==> resumed.None? || resumed.value == "undefined")
  {
    BlocksFit(events, i);
    var resumed, deltas := Resumed(events, i), Deltas(events, i);
    if resumed.Some? {
      var tail := deltas[|resumed.value|..];
      assert deltas == resumed.value + tail;
      if "undefined" + tail == resumed.value + tail {
        assert |"undefined"| == |resumed.value|;
        assert ("undefined" + tail)[..|resumed.value|] == "undefined";
        assert (resumed.value + tail)[..|resumed.value|] == resumed.value;
      }
    }
  }

  /** A delta after the end of its tool call: the arguments are no longer read from the deltas. */
  lemma DeltaAfterEnd(i: nat, id: string, name: string, first: string, second: string)
    requires first != "undefined"
    ensures var events := [ToolStart(i, id, name), ToolDelta(i, first), ToolEnd(i), ToolDelta(i, second)];
            var p := ProcessAll(EMPTY, events);
            && p.Some? && i in p.value.content && p.value.content[i].ToolBlock?
            && Deltas(events, i) == first + second && p.value.content[i].source == "undefined" + second
            && p.value.content[i].source != Deltas(events, i)
  {
    var a, b, c, d := ToolStart(i, id, name), ToolDelta(i, first), ToolEnd(i), ToolDelta(i, second);
    FrontOfAppend([], a);
    FrontOfAppend([a], b);
    FrontOfAppend([a, b], c);
    FrontOfAppend([a, b, c], d);
    assert [] + [a] == [a] && [a] + [b] == [a, b] && [a, b] + [c] == [a, b, c];
    assert [a, b, c] + [d] == [a, b, c, d];
    assert Deltas([a, b], i) == "" + first == first;
    assert Started([a], i) == Started([a, b], i) == Started([a, b, c], i) == Some(ToolKind);
    assert Ended([a, b, c], i) && Resumed([a, b, c, d], i) == Some(first);
    var none: seq<ProxyEvent> := [];
    assert ProcessAll(EMPTY, none) == Some(EMPTY) && Front([a]) == none;
    var p1 := Process(EMPTY, a).value;
    assert ProcessAll(EMPTY, [a]) == Some(p1);
    var p2 := Process(p1, b).value;
    var p3 := Process(p2, c).value;
    assert Process(p3, d).Some? && p3.content[i].ToolBlock?;
    assert ProcessAll(EMPTY, [a, b]) == Some(p2) && ProcessAll(EMPTY, [a, b, c]) == Some(p3);
    ArgumentsComeFromDeltas([a, b, c, d], i);
  }

  // ---------------------------------------------------------------------------------------------
  // Reading
  // ---------------------------------------------------------------------------------------------

  /** What one line holds: nothing of interest, an event, or data that cannot be read. */
  datatype Line = Ignored | Event(event: ProxyEvent) | Malformed

  /** The data of a line, without the spaces around it; lines without the prefix have none. */
  function DataOf(line: string): string
  {
    if |line| >= 6 && line[..6] == "data: " then Trim(line[6..]) else ""
  }

  predicate IsSpace(c: char)
  {
    c == ' ' || c == '\t' || c == '\r' || c == '\n'
  }

  function Trim(s: string): string
  {
    if s != "" && IsSpace(s[0]) then Trim(s[1..])
    else if s != "" && IsSpace(Last(s)) then Trim(Front(s))
    else s
  }

  function Read(parse: string -> Option<ProxyEvent>, line: string): Line
  {
    var data := DataOf(line);
    if data == "" then Ignored
    else
      match parse(data)
      case Some(e) => Event(e)
      case None => Malformed
  }

  /** The reader: the message so far, the events it was made of, and whether reading has failed. */
  datatype Reader = Reader(partial: Partial, events: seq<ProxyEvent>, failed: bool)

  function Take(parse: string -> Option<ProxyEvent>, r: Reader, line: string): Reader
  {
    if r.failed then r
    else
      match Read(parse, line)
      case Ignored => r
      case Malformed => r.(failed := true)
      case Event(e) =>
        var p := Process(r.partial, e);
        if p.None? then r.(failed := true) else Reader(p.value, r.events + [e], false)
  }

  function TakeAll(parse: string -> Option<ProxyEvent>, r: Reader, lines: seq<string>): Reader
  {
    if lines == [] then r else Take(parse, TakeAll(parse, r, Front(lines)), Last(lines))
  }

  lemma {:induction false} TakeConcat(parse: string -> Option<ProxyEvent>, r: Reader, a: seq<string>, b: seq<string>)
    ensures TakeAll(parse, r, a + b) == TakeAll(parse, TakeAll(parse, r, a), b)
  {
    if b == [] {
      assert a + b == a;
    } else {
      TakeConcat(parse, r, a, Front(b));
      FrontOfConcat(a, b);
    }
  }

  lemma {:induction false} FailedStays(parse: string -> Option<ProxyEvent>, r: Reader, lines: seq<string>)
    requires r.failed
    ensures TakeAll(parse, r, lines) == r
  {
    if lines != [] {
      FailedStays(parse, r, Front(lines));
    }
  }

  const FRESH: Reader := Reader(EMPTY, [], false)

  /** What was read is always what the accepted events make of an empty message. */
  lemma {:induction false} ReaderIsItsEvents(parse: string -> Option<ProxyEvent>, lines: seq<string>)
    ensures var r := TakeAll(parse, FRESH, lines); ProcessAll(EMPTY, r.events) == Some(r.partial)
  {
    if lines != [] {
      ReaderIsItsEvents(parse, Front(lines));
      var r := TakeAll(parse, FRESH, Front(lines));
      match Read(parse, Last(lines))
      case Event(e) => FrontOfAppend(r.events, e);
      case _ =>
    }
  }

  /** The buffer of the read loop, and the partial message it fills. */
  class ProxyReader {
    const parse: string -> Option<ProxyEvent>
    var buffer: string
    var partial: Partial
    var failed: bool
    /** The events decoded so far, in order. */
    var events: seq<ProxyEvent>

    ghost function Now(): Reader
      reads this
    {
      Reader(partial, events, failed)
    }

    constructor (parse: string -> Option<ProxyEvent>)
      ensures this.parse == parse && buffer == "" && Now() == FRESH
    {
      this.parse, buffer, partial, failed, events := parse, "", EMPTY, false, [];
    }

    static method SplitLines(text: string) returns (lines: seq<string>, rest: string)
      ensures Frames(lines, rest) == Split(text)
    {
      lines, rest := [], "";
      for i := 0 to |text|
        invariant Frames(lines, rest) == Split(text[..i])
      {
        FrontOfPrefix(text, i);
        if text[i] == '\n' {
          lines, rest := lines + [rest], "";
        } else {
          rest := rest + [text[i]];
        }
      }
      assert text[..|text|] == text;
    }

    method TakeLine(line: string)
      requires !failed
      modifies this`partial, this`failed, this`events
      ensures Now() == Take(parse, old(Now()), line)
    {
      var data := DataOf(line);
      if data != "" {
        var event := parse(data);
        if event.None? {
          failed := true;
          return;
        }
        var next := Process(partial, event.value);
        if next.None? {
          failed := true;
          return;
        }
        partial := next.value;
        events := events + [event.value];
      }
    }

    /** One chunk: completes lines, and keeps what follows the last newline for the next chunk. */
    method TakeChunk(chunk: string)
      requires !failed
      modifies this
      ensures var f := Split(old(buffer) + chunk);
              buffer == f.rest && Now() == TakeAll(parse, old(Now()), f.lines)
    {
      var lines, rest := SplitLines(buffer + chunk);
      buffer := rest;
      var i := 0;
      while i < |lines| && !failed
        invariant 0 <= i <= |lines| && buffer == rest
        invariant Now() == TakeAll(parse, old(Now()), lines[..i])
      {
        FrontOfPrefix(lines, i);
        TakeLine(lines[i]);
        i := i + 1;
      }
      assert lines == lines[..i] + lines[i..];
      TakeConcat(parse, old(Now()), lines[..i], lines[i..]);
      if failed {
        FailedStays(parse, Now(), lines[i..]);
      }
    }
  }

  /**
   The read loop. The decoded events, the message and the failure depend on the text alone, not on how it was cut
   into chunks; an unterminated last line is dropped, and nothing is read after a line that fails.
   */
  method ReadStream(parse: string -> Option<ProxyEvent>, chunks: seq<string>)
    returns (partial: Partial, failed: bool, events: seq<ProxyEvent>)
    ensures Reader(partial, events, failed) == TakeAll(parse, FRESH, Split(Concat(chunks)).lines)
  {
    var reader := new ProxyReader(parse);
    var k := 0;
    while k < |chunks| && !reader.failed
      invariant fresh(reader) && reader.parse == parse && 0 <= k <= |chunks|
      invariant var f := Split(Concat(chunks[..k]));
                reader.Now() == TakeAll(parse, FRESH, f.lines) && reader.buffer == f.rest
    {
      FrontOfPrefix(chunks, k);
      SplitConcat(Concat(chunks[..k]), chunks[k]);
      TakeConcat(parse, FRESH, Split(Concat(chunks[..k])).lines, Split(reader.buffer + chunks[k]).lines);
      reader.TakeChunk(chunks[k]);
      k := k + 1;
    }
    Prefix(parse, chunks, k);
    return reader.partial, reader.failed, reader.events;
  }

  /** Chunks that are not read any more add nothing. */
  lemma {:induction false} Prefix(parse: string -> Option<ProxyEvent>, chunks: seq<string>, k: nat)
    requires k <= |chunks| && (k < |chunks| ==> TakeAll(parse, FRESH, Split(Concat(chunks[..k])).lines).failed)
    ensures TakeAll(parse, FRESH, Split(Concat(chunks)).lines)
         == TakeAll(parse, FRESH, Split(Concat(chunks[..k])).lines)
  {
    if k < |chunks| {
      assert Front(chunks)[..k] == chunks[..k];
      Prefix(parse, Front(chunks), k);
      var a, b := Concat(Front(chunks)), Last(chunks);
      SplitConcat(a, b);
      TakeConcat(parse, FRESH, Split(a).lines, Split(Split(a).rest + b).lines);
      FailedStays(parse, TakeAll(parse, FRESH, Split(a).lines), Split(Split(a).rest + b).lines);
    } else {
      assert chunks[..k] == chunks;
    }
  }
}
