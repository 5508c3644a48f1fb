/** The events of an agent run, the state the agent reduces from them, and the grammar they follow. */
module AgentEvents {
  import opened Messages
  import opened Sequences

  datatype Event =
    | AgentStart
    | TurnStart
    | MessageStart(message: AgentMessage)
    | MessageUpdate(message: AgentMessage)
    | MessageEnd(message: AgentMessage)
    | ToolStart(id: string)
    | ToolUpdate(id: string)
    | ToolEnd(id: string)
    | TurnEnd(message: AgentMessage, results: seq<AgentMessage>)
    | AgentEnd(messages: seq<AgentMessage>)

  // ---------------------------------------------------------------------------------------------
  // The reducer
  // ---------------------------------------------------------------------------------------------

  datatype AgentState = AgentState(
    messages: seq<AgentMessage>, streaming: Option<AgentMessage>, pending: set<string>, error: Option<string>)

  function Reduce(st: AgentState, e: Event): AgentState
  {
    match e
    case MessageStart(m) => st.(streaming := Some(m))
    case MessageUpdate(m) => st.(streaming := Some(m))
    case MessageEnd(m) => st.(streaming := None, messages := st.messages + [m])
    case ToolStart(id) => st.(pending := st.pending + {id})
    case ToolEnd(id) => st.(pending := st.pending - {id})
    case TurnEnd(m, _) => if m.Assistant? && m.errorMessage != "" then st.(error := Some(m.errorMessage)) else st
    case AgentEnd(_) => st.(streaming := None)
    case _ => st
  }

  function ReduceAll(st: AgentState, events: seq<Event>): AgentState
  {
    if events == [] then st else Reduce(ReduceAll(st, Front(events)), Last(events))
  }

  /** The messages that ended, in order. */
  function Delivered(events: seq<Event>): seq<AgentMessage>
  {
    if events == [] then []
    else Delivered(Front(events)) + (if Last(events).MessageEnd? then [Last(events).message] else [])
  }

  lemma {:induction false} DeliveredConcat(a: seq<Event>, b: seq<Event>)
    ensures Delivered(a + b) == Delivered(a) + Delivered(b)
  {
    if b == [] {
      assert a + b == a;
    } else {
      DeliveredConcat(a, Front(b));
      FrontOfConcat(a, b);
    }
  }

  /** The transcript is where it was, followed by the messages that ended. */
  lemma {:induction false} TranscriptIsDelivered(st: AgentState, events: seq<Event>)
    ensures ReduceAll(st, events).messages == st.messages + Delivered(events)
  {
    if events != [] {
      TranscriptIsDelivered(st, Front(events));
    }
  }

  predicate Speaks(e: Event)
  {
    e.MessageStart? || e.MessageUpdate? || e.MessageEnd? || e.AgentEnd?
  }

  /** The agent shows the message that last started or changed, until that message or the run ends. */
  lemma {:induction false} StreamingIsLast(st: AgentState, events: seq<Event>, k: nat)
    requires k < |events| && Speaks(events[k]) && forall i | k < i < |events| :: !Speaks(events[i])
    ensures ReduceAll(st, events).streaming
         == if events[k].MessageStart? || events[k].MessageUpdate? then Some(events[k].message) else None
  {
    if k < |events| - 1 {
      StreamingIsLast(st, Front(events), k);
      assert !Speaks(events[|events| - 1]);
    }
  }

  predicate ReportsError(e: Event)
  {
    e.TurnEnd? && e.message.Assistant? && e.message.errorMessage != ""
  }

  /** The agent keeps the error of the last turn that ended with one. */
  lemma {:induction false} ErrorIsLast(st: AgentState, events: seq<Event>, k: nat)
    requires k <= |events| && forall i | k <= i < |events| :: !ReportsError(events[i])
    ensures k == 0 ==> ReduceAll(st, events).error == st.error
    ensures k > 0 && ReportsError(events[k - 1]) ==>
              ReduceAll(st, events).error == Some(events[k - 1].message.errorMessage)
  {
    if k < |events| {
      ErrorIsLast(st, Front(events), k);
      assert !ReportsError(events[|events| - 1]);
    }
  }

  /** A tool call is pending from its last start until the next end under its id. */
  lemma {:induction false} PendingIsLast(st: AgentState, events: seq<Event>, id: string, k: nat)
    requires k < |events| && (events[k] == ToolStart(id) || events[k] == ToolEnd(id))
    requires forall i | k < i < |events| :: events[i] != ToolStart(id) && events[i] != ToolEnd(id)
    ensures id in ReduceAll(st, events).pending <==> events[k] == ToolStart(id)
  {
    if k < |events| - 1 {
      PendingIsLast(st, Front(events), id, k);
      assert events[|events| - 1] != ToolStart(id) && events[|events| - 1] != ToolEnd(id);
    }
  }

  // ---------------------------------------------------------------------------------------------
  // The grammar
  // ---------------------------------------------------------------------------------------------

  /** Where a run stands: turns follow each other, messages are bracketed inside a turn. */
  datatype Phase = NotStarted | BetweenTurns | InTurn(streaming: Option<AgentMessage>) | Finished | Broken

  /** A streamed message may change until it ends; any other message ends as it started. */
  predicate Closes(start: AgentMessage, end: AgentMessage)
  {
    start == end || (start.Assistant? && end.Assistant?)
  }

  function PhaseStep(p: Phase, e: Event): Phase
  {
    match e
    case AgentStart => if p.NotStarted? then BetweenTurns else Broken
    case TurnStart => if p.BetweenTurns? then InTurn(None) else Broken
    case MessageStart(m) => if p == InTurn(None) then InTurn(Some(m)) else Broken
    case MessageUpdate(m) => if p.InTurn? && p.streaming.Some? && Closes(p.streaming.value, m) then p else Broken
    case MessageEnd(m) =>
      if p.InTurn? && p.streaming.Some? && Closes(p.streaming.value, m) then InTurn(None) else Broken
    case ToolStart(_) => if p == InTurn(None) then p else Broken
    case ToolUpdate(_) => if p == InTurn(None) then p else Broken
    case ToolEnd(_) => if p == InTurn(None) then p else Broken
    case TurnEnd(_, _) => if p == InTurn(None) then BetweenTurns else Broken
    case AgentEnd(_) => if p.BetweenTurns? then Finished else Broken
  }

  function PhaseAfter(p: Phase, events: seq<Event>): Phase
  {
    if events == [] then p else PhaseStep(PhaseAfter(p, Front(events)), Last(events))
  }

  lemma {:induction false} PhaseConcat(p: Phase, a: seq<Event>, b: seq<Event>)
    ensures PhaseAfter(p, a + b) == PhaseAfter(PhaseAfter(p, a), b)
  {
    if b == [] {
      assert a + b == a;
    } else {
      PhaseConcat(p, a, Front(b));
      FrontOfConcat(a, b);
    }
  }

  lemma {:induction false} BrokenStays(events: seq<Event>)
    ensures PhaseAfter(Broken, events) == Broken
  {
    if events != [] {
      BrokenStays(Front(events));
    }
  }

  /** Tool executions under way, with repetition; `None` once an event did not match. */
  function ToolStep(open: Option<multiset<string>>, e: Event): Option<multiset<string>>
  {
    if open.None? then None
    else
      match e
      case ToolStart(id) => Some(open.value + multiset{id})
      case ToolUpdate(id) => if id in open.value then open else None
      case ToolEnd(id) => if id in open.value then Some(open.value - multiset{id}) else None
      case TurnStart => if open.value == multiset{} then open else None
      case TurnEnd(_, _) => if open.value == multiset{} then open else None
      case _ => open
  }

  function ToolsAfter(open: Option<multiset<string>>, events: seq<Event>): Option<multiset<string>>
  {
    if events == [] then open else ToolStep(ToolsAfter(open, Front(events)), Last(events))
  }

  lemma {:induction false} ToolsConcat(open: Option<multiset<string>>, a: seq<Event>, b: seq<Event>)
    ensures ToolsAfter(open, a + b) == ToolsAfter(ToolsAfter(open, a), b)
  {
    if b == [] {
      assert a + b == a;
    } else {
      ToolsConcat(open, a, Front(b));
      FrontOfConcat(a, b);
    }
  }

  lemma {:induction false} MismatchStays(events: seq<Event>)
    ensures ToolsAfter(None, events) == None
  {
    if events != [] {
      MismatchStays(Front(events));
    }
  }

  lemma PendingStep(st: AgentState, open: multiset<string>, e: Event)
    requires forall id | id in st.pending :: id in open
    requires ToolStep(Some(open), e).Some?
    ensures forall id | id in Reduce(st, e).pending :: id in ToolStep(Some(open), e).value
  {
  }

  /**
   The pending set forgets repetitions, so one end event can drop an id that another execution still
   uses. It never holds an id that no execution uses, and that is enough.
   */
  lemma {:induction false} PendingIsUnderWay(st: AgentState, open: multiset<string>, events: seq<Event>)
    requires forall id | id in st.pending :: id in open
    requires ToolsAfter(Some(open), events).Some?
    ensures forall id | id in ReduceAll(st, events).pending :: id in ToolsAfter(Some(open), events).value
  {
    if events != [] {
      if ToolsAfter(Some(open), Front(events)).None? { assert false; }
      PendingIsUnderWay(st, open, Front(events));
      PendingStep(ReduceAll(st, Front(events)), ToolsAfter(Some(open), Front(events)).value, Last(events));
    }
  }

  /** In a trace whose tool events match, nothing is pending whenever a turn ends. */
  lemma NothingPendingAtTurnEnd(st: AgentState, events: seq<Event>, i: nat)
    requires st.pending == {} && ToolsAfter(Some(multiset{}), events).Some?
    requires i < |events| && events[i].TurnEnd?
    ensures ReduceAll(st, events[..i]).pending == {} && ReduceAll(st, events[..i + 1]).pending == {}
  {
    var until := events[..i + 1];
    assert events == until + events[i + 1..];
    ToolsConcat(Some(multiset{}), until, events[i + 1..]);
    if ToolsAfter(Some(multiset{}), until).None? { MismatchStays(events[i + 1..]); }
    assert Front(until) == events[..i] && Last(until) == events[i];
    PendingIsUnderWay(st, multiset{}, events[..i]);
  }
}
