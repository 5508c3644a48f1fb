/** What a proxied message says about the events it was read from, and the text they were read from. */
module ProxyHistory {
  import opened Messages
  import opened Sequences
  import opened ProxyStream

  // ---------------------------------------------------------------------------------------------
  // The message and its events
  // ---------------------------------------------------------------------------------------------

  predicate Ends(e: ProxyEvent)
  {
    e.Done? || e.Error?
  }

  /** The stop reason is that of the last event that ends the message, and the error that of the last error. */
  lemma {:induction false} StopReasonIsLast(events: seq<ProxyEvent>, k: nat)
    requires ProcessAll(EMPTY, events).Some? && k <= |events|
    ensures (forall i | k <= i < |events| :: !Ends(events[i])) && (k > 0 ==> Ends(events[k - 1])) ==>
              ProcessAll(EMPTY, events).value.stopReason == if k == 0 then "stop" else events[k - 1].reason
    ensures (forall i | k <= i < |events| :: !events[i].Error?) && (k > 0 ==> events[k - 1].Error?) ==>
              ProcessAll(EMPTY, events).value.errorMessage == if k == 0 then None else events[k - 1].message
  {
    if k < |events| {
      StopReasonIsLast(Front(events), k);
      assert Last(events) == events[|events| - 1];
    }
  }

  predicate Signs(e: ProxyEvent, i: nat)
  {
    About(e, i) && (Starts(e) || e.TextEnd? || e.ThinkingEnd?)
  }

  /** A text or thinking block has the signature it was last ended with since its start, if it was. */
  lemma {:induction false} SignatureIsLast(events: seq<ProxyEvent>, i: nat, k: nat)
    requires ProcessAll(EMPTY, events).Some? && k < |events| && Signs(events[k], i) && !events[k].ToolStart?
    requires forall j | k < j < |events| :: !Signs(events[j], i)
    ensures var p := ProcessAll(EMPTY, events).value;
            && i in p.content && !p.content[i].ToolBlock?
            && p.content[i].signature == if Starts(events[k]) then None else events[k].signature
  {
    if k < |events| - 1 {
      SignatureIsLast(Front(events), i, k);
      assert !Signs(events[|events| - 1], i);
    }
  }

  /** A tool call has the id and the name it was last started with. */
  lemma {:induction false} ToolCallIsItsStart(events: seq<ProxyEvent>, i: nat, k: nat)
    requires ProcessAll(EMPTY, events).Some? && k < |events| && About(events[k], i) && events[k].ToolStart?
    requires forall j | k < j < |events| :: !(About(events[j], i) && Starts(events[j]))
    ensures var p := ProcessAll(EMPTY, events).value;
            && i in p.content && p.content[i].ToolBlock?
            && p.content[i].id == events[k].id && p.content[i].name == events[k].name
  {
    if k < |events| - 1 {
      ToolCallIsItsStart(Front(events), i, k);
      assert !(About(events[|events| - 1], i) && Starts(events[|events| - 1]));
    }
  }

  /** The kind of block an event goes on with, if it needs one that fits. */
  function Continues(e: ProxyEvent): Option<Kind>
  {
    match e
    case TextDelta(_, _) => Some(TextKind)
    case TextEnd(_, _) => Some(TextKind)
    case ThinkingDelta(_, _) => Some(ThinkingKind)
    case ThinkingEnd(_, _) => Some(ThinkingKind)
    case ToolDelta(_, _) => Some(ToolKind)
    case _ => None
  }

  predicate FitsAt(events: seq<ProxyEvent>, k: nat)
    requires k < |events|
  {
    Continues(events[k]).Some? ==> Started(events[..k], events[k].index) == Continues(events[k])
  }

  /** Events make a message exactly if each delta, and each end but a tool call's, finds a block of its kind. */
  lemma {:induction false} EventsFit(events: seq<ProxyEvent>)
    ensures ProcessAll(EMPTY, events).Some? <==> forall k | 0 <= k < |events| :: FitsAt(events, k)
  {
    if events != [] {
      var n := |events| - 1;
      EventsFit(Front(events));
      forall k | 0 <= k < n ensures FitsAt(Front(events), k) <==> FitsAt(events, k) {
        assert Front(events)[..k] == events[..k];
      }
      assert events[..n] == Front(events);
      if ProcessAll(EMPTY, Front(events)).Some? {
        LastFits(events);
      }
    }
  }

  lemma LastFits(events: seq<ProxyEvent>)
    requires events != [] && ProcessAll(EMPTY, Front(events)).Some?
    ensures ProcessAll(EMPTY, events).Some? <==> FitsAt(events, |events| - 1)
  {
    var p, e := ProcessAll(EMPTY, Front(events)).value, Last(events);
    assert events[..|events| - 1] == Front(events);
    Accepts(p, e);
    if Continues(e).Some? {
      BlocksFit(Front(events), e.index);
      HeldAsStarted(p, Front(events), e.index, Continues(e).value);
    }
  }

  lemma Accepts(p: Partial, e: ProxyEvent)
    ensures Process(p, e).Some? <==> (Continues(e).Some? ==> Holds(p, e.index, Continues(e).value))
  {
  }

  lemma HeldAsStarted(p: Partial, events: seq<ProxyEvent>, i: nat, kind: Kind)
    requires Fits(p, events, i)
    ensures Holds(p, i, kind) <==> Started(events, i) == Some(kind)
  {
  }

  // ---------------------------------------------------------------------------------------------
  // The events and their text
  // ---------------------------------------------------------------------------------------------

  predicate Blank(c: char)
  {
    c == ' ' || c == '\t' || c == '\r' || c == '\n'
  }

  /** Trimming keeps the text from its first to its last character that is not space. */
  lemma {:induction false} TrimIsInner(s: string) returns (from: nat, to: nat)
    ensures from <= to <= |s| && Trim(s) == s[from..to]
    ensures forall i | 0 <= i < |s| && !(from <= i < to) :: Blank(s[i])
    ensures from < to ==> !Blank(s[from]) && !Blank(s[to - 1])
    decreases |s|
  {
    if s != "" && IsSpace(s[0]) {
      var rest := s[1..];
      from, to := TrimIsInner(rest);
      assert forall i | 0 < i < |s| :: s[i] == rest[i - 1];
      assert rest[from..to] == s[from + 1..to + 1];
      from, to := from + 1, to + 1;
    } else if s != "" && IsSpace(Last(s)) {
      from, to := TrimIsInner(Front(s));
      assert Front(s)[from..to] == s[from..to];
    } else {
      from, to := 0, |s|;
    }
  }

  /** A line holds data exactly if it begins with the prefix and more than space follows. */
  lemma LineHasData(line: string)
    ensures DataOf(line) != "" <==>
            |line| >= 6 && line[..6] == "data: " && exists i :: 6 <= i < |line| && !Blank(line[i])
    ensures DataOf(line) != "" ==> DataOf(line) == Trim(line[6..])
  {
    if |line| >= 6 {
      var rest := line[6..];
      var from, to := TrimIsInner(rest);
      assert forall i | 6 <= i < |line| :: line[i] == rest[i - 6];
      if from < to {
        assert line[from + 6] == rest[from];
      }
    }
  }

  /** The events that the lines hold, in order, if each line with data can be read. */
  function Decoded(parse: string -> Option<ProxyEvent>, lines: seq<string>): Option<seq<ProxyEvent>>
  {
    if lines == [] then Some([])
    else
      var before, data := Decoded(parse, Front(lines)), DataOf(Last(lines));
      if before.None? || data == "" then before
      else if parse(data).None? then None
      else Some(before.value + [parse(data).value])
  }

  /** Reading fails exactly if a line cannot be read or the events do not make a message; else all of them count. */
  lemma {:induction false} AllLinesAreRead(parse: string -> Option<ProxyEvent>, lines: seq<string>)
    ensures var r, decoded := TakeAll(parse, FRESH, lines), Decoded(parse, lines);
            && (r.failed <==> decoded.None? || ProcessAll(EMPTY, decoded.value).None?)
            && (!r.failed ==> r.events == decoded.value)
  {
    if lines != [] {
      var before := TakeAll(parse, FRESH, Front(lines));
      var decoded := Decoded(parse, Front(lines));
      AllLinesAreRead(parse, Front(lines));
      ReaderIsItsEvents(parse, Front(lines));
      var data := DataOf(Last(lines));
      if decoded.Some? && data != "" && parse(data).Some? {
        FrontOfAppend(decoded.value, parse(data).value);
      }
    }
  }
}
