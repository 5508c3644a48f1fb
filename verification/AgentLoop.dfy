/** The agent loop: a recursive description of a run, and the nested loops that carry it out. */
module AgentLoop {
  import opened Messages
  import opened Sequences
  import opened AgentEvents
  import opened Agents
  import opened ToolBatch

  // ---------------------------------------------------------------------------------------------
  // Streaming one assistant response
  // ---------------------------------------------------------------------------------------------

  /** What a provider stream says: a partial message begins, changes, or the stream is done. */
  datatype StreamEvent = Start(partial: AgentMessage) | Delta(partial: AgentMessage) | Terminal

  datatype Reply = Reply(stream: seq<StreamEvent>, result: AgentMessage)

  /** The loop's context, the events so far, and the partial message standing at the end of the context. */
  datatype Streaming = Streaming(context: seq<AgentMessage>, events: seq<Event>, partial: Option<AgentMessage>)

  function StreamStep(s: Streaming, e: StreamEvent): Streaming
  {
    match e
    case Start(p) => Streaming(s.context + [p], s.events + [MessageStart(p)], Some(p))
    case Delta(p) =>
      if s.partial.Some? && |s.context| > 0
      then Streaming(s.context[|s.context| - 1 := p], s.events + [MessageUpdate(p)], Some(p))
      else s
    case Terminal => s
  }

  function StreamAll(s: Streaming, stream: seq<StreamEvent>): Streaming
  {
    if stream == [] then s else StreamStep(StreamAll(s, Front(stream)), Last(stream))
  }

  /** The events the loop listens to: those before the first terminal one. */
  function Heard(stream: seq<StreamEvent>): seq<StreamEvent>
  {
    if stream == [] || stream[0].Terminal? then [] else [stream[0]] + Heard(stream[1..])
  }

  /** The final message takes the place of the partial one, or comes last if there is none. */
  function Closed(s: Streaming, m: AgentMessage): Streaming
  {
    if s.partial.Some? && |s.context| > 0
    then Streaming(s.context[|s.context| - 1 := m], s.events + [MessageEnd(m)], None)
    else Streaming(s.context + [m], s.events + [MessageStart(m), MessageEnd(m)], None)
  }

  function Respond(context: seq<AgentMessage>, reply: Reply): Streaming
  {
    Closed(StreamAll(Streaming(context, [], None), Heard(reply.stream)), reply.result)
  }

  function Starts(stream: seq<StreamEvent>): nat
  {
    if stream == [] then 0 else Starts(Front(stream)) + if Last(stream).Start? then 1 else 0
  }

  /** Start events beyond the first one that the loop hears. */
  function Surplus(reply: Reply): nat
  {
    var n := Starts(Heard(reply.stream));
    if n <= 1 then 0 else n - 1
  }

  ghost predicate ValidStream(stream: seq<StreamEvent>)
  {
    forall i | 0 <= i < |stream| && !stream[i].Terminal? :: stream[i].partial.Assistant?
  }

  lemma {:induction false} HeardValid(stream: seq<StreamEvent>)
    requires ValidStream(stream)
    ensures ValidStream(Heard(stream))
    ensures forall i | 0 <= i < |Heard(stream)| :: !Heard(stream)[i].Terminal?
  {
    if stream != [] && !stream[0].Terminal? {
      HeardValid(stream[1..]);
    }
  }

  lemma {:induction false} StreamFacts(
    context: seq<AgentMessage>, stream: seq<StreamEvent>, open: Option<multiset<string>>)
    requires ValidStream(stream) && forall i | 0 <= i < |stream| :: !stream[i].Terminal?
    ensures var s := StreamAll(Streaming(context, [], None), stream);
            var n := Starts(stream);
            && |s.context| == |context| + n && context <= s.context
            && (s.partial.Some? <==> n > 0) && (n == 0 ==> s.events == [])
            && (s.partial.Some? ==> s.partial.value.Assistant?)
            && Delivered(s.events) == []
            && PhaseAfter(InTurn(None), s.events)
               == (if n == 0 then InTurn(None) else if n == 1 then PhaseAfter(InTurn(None), s.events) else Broken)
            && (n == 1 ==> Streams(PhaseAfter(InTurn(None), s.events)))
            && ToolsAfter(open, s.events) == open
  {
    if stream != [] {
      var e := Last(stream);
      StreamFacts(context, Front(stream), open);
      var s := StreamAll(Streaming(context, [], None), Front(stream));
      if e.Start? {
        AppendOne(s.events, MessageStart(e.partial), InTurn(None), open);
      } else if s.partial.Some? {
        AppendOne(s.events, MessageUpdate(e.partial), InTurn(None), open);
      }
    }
  }

  /** What is heard is the stream up to its first terminal event. */
  lemma {:induction false} HeardIsPrefix(stream: seq<StreamEvent>, k: nat)
    requires k <= |stream| && (k < |stream| ==> stream[k].Terminal?)
    requires forall i | 0 <= i < k :: !stream[i].Terminal?
    ensures Heard(stream) == stream[..k]
  {
    if k > 0 {
      HeardIsPrefix(stream[1..], k - 1);
      assert stream[..k] == [stream[0]] + stream[1..][..k - 1];
    }
  }

  function Announcement(e: StreamEvent): Event
    requires !e.Terminal?
  {
    if e.Start? then MessageStart(e.partial) else MessageUpdate(e.partial)
  }

  /**
   From its first start event on, a stream is passed on event by event, and the last partial message stands at the
   end of the context; what comes before is ignored.
   */
  lemma {:induction false} StreamIsPassedOn(context: seq<AgentMessage>, stream: seq<StreamEvent>, k: nat)
    requires k < |stream| && stream[k].Start? && forall i | 0 <= i < k :: stream[i].Delta?
    requires forall i | 0 <= i < |stream| :: !stream[i].Terminal?
    ensures var s := StreamAll(Streaming(context, [], None), stream);
            && s.partial == Some(Last(stream).partial) && s.context != [] && Last(s.context) == Last(stream).partial
            && |s.events| == |stream| - k
            && forall i | 0 <= i < |s.events| :: s.events[i] == Announcement(stream[k + i])
  {
    var n := |stream| - 1;
    assert Last(stream) == stream[n];
    if k < n {
      StreamIsPassedOn(context, Front(stream), k);
    } else {
      NothingYet(context, Front(stream));
    }
  }

  lemma {:induction false} NothingYet(context: seq<AgentMessage>, stream: seq<StreamEvent>)
    requires forall i | 0 <= i < |stream| :: stream[i].Delta?
    ensures StreamAll(Streaming(context, [], None), stream) == Streaming(context, [], None)
  {
    if stream != [] {
      NothingYet(context, Front(stream));
    }
  }

  predicate Streams(p: Phase)
  {
    p.InTurn? && p.streaming.Some? && p.streaming.value.Assistant?
  }

  /** One start event or none: the context grows by the final message. More: stale partials stay in it. */
  lemma RespondFacts(context: seq<AgentMessage>, reply: Reply, open: Option<multiset<string>>)
    requires ValidStream(reply.stream) && reply.result.Assistant?
    ensures var r := Respond(context, reply);
            && |r.context| == |context| + 1 + Surplus(reply) && context <= r.context
            && Last(r.context) == reply.result
            && Delivered(r.events) == [reply.result]
            && PhaseAfter(InTurn(None), r.events) == (if Surplus(reply) == 0 then InTurn(None) else Broken)
            && ToolsAfter(open, r.events) == open
  {
    var heard := Heard(reply.stream);
    var s := StreamAll(Streaming(context, [], None), heard);
    HeardValid(reply.stream);
    StreamFacts(context, heard, open);
    if s.partial.Some? {
      EndsPartial(s.events, reply.result, open);
      assert Last(s.context[|s.context| - 1 := reply.result]) == reply.result;
    } else {
      assert s.context == context && s.events == [];
      WholeMessage(reply.result, open);
      var whole := [MessageStart(reply.result), MessageEnd(reply.result)];
      assert [] + whole == whole;
    }
  }

  lemma EndsPartial(events: seq<Event>, m: AgentMessage, open: Option<multiset<string>>)
    requires Delivered(events) == [] && ToolsAfter(open, events) == open && m.Assistant?
    requires var p := PhaseAfter(InTurn(None), events); p == Broken || Streams(p)
    ensures var all := events + [MessageEnd(m)];
            && Delivered(all) == [m] && ToolsAfter(open, all) == open
            && PhaseAfter(InTurn(None), all)
               == if PhaseAfter(InTurn(None), events) == Broken then Broken else InTurn(None)
  {
    AppendOne(events, MessageEnd(m), InTurn(None), open);
  }

  lemma WholeMessage(m: AgentMessage, open: Option<multiset<string>>)
    ensures var events := [MessageStart(m), MessageEnd(m)];
            && Delivered(events) == [m] && PhaseAfter(InTurn(None), events) == InTurn(None)
            && ToolsAfter(open, events) == open
  {
    AppendTwo([], MessageStart(m), MessageEnd(m), InTurn(None), open);
    assert [] + [MessageStart(m), MessageEnd(m)] == [MessageStart(m), MessageEnd(m)];
  }

  // ---------------------------------------------------------------------------------------------
  // A run, turn by turn
  // ---------------------------------------------------------------------------------------------

  datatype Origin = Prompt | Steering | FollowUps | Model | Tool

  datatype Tagged = Tagged(origin: Origin, message: AgentMessage)

  function Tag(origin: Origin, messages: seq<AgentMessage>): seq<Tagged>
  {
    seq(|messages|, i requires 0 <= i < |messages| => Tagged(origin, messages[i]))
  }

  function Untag(tagged: seq<Tagged>): seq<AgentMessage>
  {
    seq(|tagged|, i requires 0 <= i < |tagged| => tagged[i].message)
  }

  /** Everything the environment decides about one turn. */
  datatype TurnPlan = TurnPlan(
    reply: Reply, plans: seq<CallPlan>, sequential: bool, schedule: seq<ToolBatch.Step>, stop: bool,
    arrivals: seq<Arrival>, lateArrivals: seq<Arrival>)

  ghost predicate ValidPlan(t: TurnPlan)
  {
    && t.reply.result.Assistant? && ValidStream(t.reply.stream)
    && |t.plans| == |ToolCalls(t.reply.result)| && ValidSchedule(t.plans, t.schedule)
  }

  ghost predicate ValidPlans(plan: seq<TurnPlan>)
  {
    forall i | 0 <= i < |plan| :: ValidPlan(plan[i])
  }

  datatype Progress = Progress(
    context: seq<AgentMessage>, added: seq<Tagged>, events: seq<Event>, queues: Queues, pending: seq<Tagged>,
    firstTurn: bool, requests: seq<seq<AgentMessage>>, ended: bool)

  function Begin(context: seq<AgentMessage>, prompts: seq<Tagged>, queues: Queues): Progress
  {
    Progress(context + Untag(prompts), prompts, [AgentStart, TurnStart] + Bracketed(Untag(prompts)),
             queues, [], true, [], false)
  }

  function PollSteering(p: Progress, arrivals: seq<Arrival>): Progress
  {
    var q := ArriveAll(p.queues, arrivals);
    var drained := Drained(q.steeringMode, q.steering);
    p.(queues := q.(steering := q.steering[|drained|..]), pending := Tag(Steering, drained))
  }

  /** The poll before the first turn, which `continue` skips when it has just drained the queue itself. */
  function FirstPoll(p: Progress, skip: bool, arrivals: seq<Arrival>): Progress
  {
    if skip then p.(queues := ArriveAll(p.queues, arrivals)) else PollSteering(p, arrivals)
  }

  function PollFollowUps(p: Progress, arrivals: seq<Arrival>): Progress
  {
    var q := ArriveAll(p.queues, arrivals);
    var drained := Drained(q.followUpMode, q.followUp);
    var r := p.(queues := q.(followUp := q.followUp[|drained|..]), pending := Tag(FollowUps, drained));
    if drained == [] then Conclude(r) else r
  }

  function Conclude(p: Progress): Progress
  {
    p.(events := p.events + [AgentEnd(Untag(p.added))], ended := true)
  }

  /** The turn opens and the pending messages go in before the next response. */
  function Inject(p: Progress): Progress
  {
    p.(context := p.context + Untag(p.pending), added := p.added + p.pending,
       events := p.events + (if p.firstTurn then [] else [TurnStart]) + Bracketed(Untag(p.pending)),
       pending := [], firstTurn := false)
  }

  function Answer(p: Progress, reply: Reply): Progress
  {
    var r := Respond(p.context, reply);
    p.(context := r.context, added := p.added + [Tagged(Model, reply.result)], events := p.events + r.events,
       requests := p.requests + [p.context])
  }

  function Act(p: Progress, t: TurnPlan): Progress
    requires |t.plans| == |ToolCalls(t.reply.result)|
    requires forall s | 0 <= s < |t.schedule| :: t.schedule[s].index < |t.plans|
  {
    var calls := ToolCalls(t.reply.result);
    if calls == [] then p
    else
      var results := ResultMessages(FinalizeAll(calls, t.plans));
      p.(context := p.context + results, added := p.added + Tag(Tool, results),
         events := p.events + BatchEvents(t.sequential, calls, t.plans, t.schedule))
  }

  function CloseTurn(p: Progress, m: AgentMessage, results: seq<AgentMessage>): Progress
  {
    p.(events := p.events + [TurnEnd(m, results)])
  }

  predicate WantsAnotherTurn(t: TurnPlan)
    requires |t.plans| == |ToolCalls(t.reply.result)|
  {
    var calls := ToolCalls(t.reply.result);
    calls != [] && !ShouldTerminate(FinalizeAll(calls, t.plans))
  }

  /** The turn up to its end event. */
  function Turn(p: Progress, t: TurnPlan): Progress
    requires |t.plans| == |ToolCalls(t.reply.result)|
    requires forall s | 0 <= s < |t.schedule| :: t.schedule[s].index < |t.plans|
  {
    var answered := Answer(Inject(p), t.reply);
    if Failed(t.reply.result) then CloseTurn(answered, t.reply.result, [])
    else CloseTurn(Act(answered, t), t.reply.result, ResultMessages(FinalizeAll(ToolCalls(t.reply.result), t.plans)))
  }

  /** One whole turn, with what follows it: the end of the run, or what the next turn will inject. */
  function TurnStep(p: Progress, t: TurnPlan): Progress
    requires |t.plans| == |ToolCalls(t.reply.result)|
    requires forall s | 0 <= s < |t.schedule| :: t.schedule[s].index < |t.plans|
  {
    if p.ended then p
    else
      var turn := Turn(p, t);
      if Failed(t.reply.result) || t.stop then Conclude(turn.(queues := ArriveAll(turn.queues, t.arrivals)))
      else
        var polled := PollSteering(turn, t.arrivals);
        if WantsAnotherTurn(t) || polled.pending != [] then polled
        else PollFollowUps(polled, t.lateArrivals)
  }

  ghost function RunAll(p: Progress, plan: seq<TurnPlan>): Progress
    requires ValidPlans(plan)
  {
    if plan == [] then p else TurnStep(RunAll(p, Front(plan)), Last(plan))
  }

  lemma {:induction false} EndedStays(p: Progress, plan: seq<TurnPlan>, k: nat)
    requires ValidPlans(plan) && k <= |plan| && RunAll(p, plan[..k]).ended
    ensures RunAll(p, plan) == RunAll(p, plan[..k])
  {
    if k < |plan| {
      assert Front(plan)[..k] == plan[..k];
      EndedStays(p, Front(plan), k);
    } else {
      assert plan[..k] == plan;
    }
  }

  lemma RunNext(p: Progress, plan: seq<TurnPlan>, k: nat)
    requires ValidPlans(plan) && k < |plan|
    ensures RunAll(p, plan[..k + 1]) == TurnStep(RunAll(p, plan[..k]), plan[k])
  {
    FrontOfPrefix(plan, k);
  }

  // ---------------------------------------------------------------------------------------------
  // The loops
  // ---------------------------------------------------------------------------------------------

  lemma ActAdds(p: Progress, t: TurnPlan, results: seq<AgentMessage>)
    requires ValidPlan(t) && ToolCalls(t.reply.result) != []
    requires results == ResultMessages(FinalizeAll(ToolCalls(t.reply.result), t.plans))
    ensures var q := Act(p, t);
            && q.context == p.context + results && Untag(q.added) == Untag(p.added) + results && q.queues == p.queues
            && q.events == p.events + BatchEvents(t.sequential, ToolCalls(t.reply.result), t.plans, t.schedule)
  {
    UntagTag(p.added, Tool, results);
  }

  lemma UntagTag(added: seq<Tagged>, origin: Origin, messages: seq<AgentMessage>)
    ensures Untag(added + Tag(origin, messages)) == Untag(added) + messages
  {
  }

  /** After these turns the agent would stop, and only the follow-up poll is left. */
  ghost predicate WouldStop(begun: Progress, plan: seq<TurnPlan>, p: Progress)
    requires ValidPlans(plan)
  {
    plan != [] && RunAll(begun, plan) == PollFollowUps(p, Last(plan).lateArrivals)
  }

  /** The inner loop goes on, would stop, waits for a response that is not planned, or the run is over. */
  datatype Exit = Going | Idle | Waiting | Ended

  /** The arrays a run works on: its own context, and the messages it has added. */
  class LoopRun {
    const agent: Agent
    var context: seq<AgentMessage>
    var newMessages: seq<AgentMessage>

    constructor (agent: Agent, context: seq<AgentMessage>, newMessages: seq<AgentMessage>)
      ensures this.agent == agent && this.context == context && this.newMessages == newMessages
    {
      this.agent, this.context, this.newMessages := agent, context, newMessages;
    }

    /** The arrays, the agent and its queues stand where the description of the run says. */
    ghost predicate At(base: Base, p: Progress)
      reads this, agent, agent.steeringQueue, agent.followUpQueue
    {
      && agent.Valid()
      && context == p.context && newMessages == Untag(p.added)
      && Follows(agent, base, p.events)
      && agent.Queued() == p.queues
    }

    /** One stream event: a partial message is pushed, or takes the place of the one before it. */
    method Hear(e: StreamEvent, partialMessage: Option<AgentMessage>, ghost s: Streaming,
                ghost base: Base, ghost before: seq<Event>)
      returns (partial: Option<AgentMessage>)
      requires Follows(agent, base, before + s.events) && context == s.context && partialMessage == s.partial
      modifies this`context, agent
      ensures var r := StreamStep(s, e);
              context == r.context && partial == r.partial && Follows(agent, base, before + r.events)
    {
      partial := partialMessage;
      match e {
        case Start(p) =>
          partial := Some(p);
          context := context + [p];
          Emit(agent, MessageStart(p), base, before + s.events);
          ConcatAssociative(before, s.events, [MessageStart(p)]);
        case Delta(p) =>
          if partialMessage.Some? && |context| > 0 {
            partial := Some(p);
            context := context[|context| - 1 := p];
            Emit(agent, MessageUpdate(p), base, before + s.events);
            ConcatAssociative(before, s.events, [MessageUpdate(p)]);
          }
        case Terminal =>
      }
    }

    /** Hears the stream up to its first terminal event. */
    method HearAll(stream: seq<StreamEvent>, ghost base: Base, ghost before: seq<Event>)
      returns (partialMessage: Option<AgentMessage>)
      requires Follows(agent, base, before)
      modifies this`context, agent
      ensures var s := StreamAll(Streaming(old(context), [], None), Heard(stream));
              context == s.context && partialMessage == s.partial && Follows(agent, base, before + s.events)
    {
      partialMessage := None;
      ghost var start := Streaming(context, [], None);
      ghost var heard := [];
      var i := 0;
      assert before + [] == before;
      while i < |stream| && !stream[i].Terminal?
        invariant 0 <= i <= |stream|
        invariant heard + Heard(stream[i..]) == Heard(stream)
        invariant var s := StreamAll(start, heard);
                  context == s.context && partialMessage == s.partial && Follows(agent, base, before + s.events)
      {
        FrontOfAppend(heard, stream[i]);
        assert stream[i..][1..] == stream[i + 1..];
        ConcatAssociative(heard, [stream[i]], Heard(stream[i + 1..]));
        partialMessage := Hear(stream[i], partialMessage, StreamAll(start, heard), base, before);
        heard := heard + [stream[i]];
        i := i + 1;
      }
      assert heard + [] == heard;
    }

    method StreamAssistantResponse(reply: Reply, ghost base: Base, ghost before: seq<Event>) returns (m: AgentMessage)
      requires Follows(agent, base, before)
      modifies this`context, agent
      ensures m == reply.result
      ensures context == Respond(old(context), reply).context
      ensures Follows(agent, base, before + Respond(old(context), reply).events)
    {
      ghost var s := StreamAll(Streaming(context, [], None), Heard(reply.stream));
      var partialMessage := HearAll(reply.stream, base, before);
      m := reply.result;
      CloseMessage(m, partialMessage, s, base, before);
    }

    /** The final message takes the place of the partial one, or is pushed and bracketed by itself. */
    method CloseMessage(m: AgentMessage, partialMessage: Option<AgentMessage>, ghost s: Streaming,
                        ghost base: Base, ghost before: seq<Event>)
      requires Follows(agent, base, before + s.events) && context == s.context && partialMessage == s.partial
      modifies this`context, agent
      ensures var r := Closed(s, m); context == r.context && Follows(agent, base, before + r.events)
    {
      if partialMessage.Some? && |context| > 0 {
        context := context[|context| - 1 := m];
        Emit(agent, MessageEnd(m), base, before + s.events);
        ConcatAssociative(before, s.events, [MessageEnd(m)]);
      } else {
        context := context + [m];
        Emit(agent, MessageStart(m), base, before + s.events);
        Emit(agent, MessageEnd(m), base, before + s.events + [MessageStart(m)]);
        assert before + s.events + [MessageStart(m)] + [MessageEnd(m)]
            == before + (s.events + [MessageStart(m), MessageEnd(m)]);
      }
    }

    method EmitAll(messages: seq<AgentMessage>, ghost base: Base, ghost before: seq<Event>)
      requires Follows(agent, base, before)
      modifies agent
      ensures Follows(agent, base, before + Bracketed(messages))
    {
      assert before + [] == before;
      for i := 0 to |messages|
        invariant Follows(agent, base, before + Bracketed(messages[..i]))
      {
        EmitMessage(agent, messages[i], base, before + Bracketed(messages[..i]));
        ConcatAssociative(before, Bracketed(messages[..i]), Bracketed([messages[i]]));
        BracketedAppend(messages[..i], messages[i]);
        assert messages[..i + 1] == messages[..i] + [messages[i]];
      }
      assert messages[..|messages|] == messages;
    }

    method InjectPending(pending: seq<AgentMessage>, firstTurn: bool, ghost base: Base, ghost p: Progress)
      requires At(base, p) && pending == Untag(p.pending) && firstTurn == p.firstTurn
      modifies this`context, this`newMessages, agent
      ensures At(base, Inject(p))
    {
      ghost var begun := p.events + (if p.firstTurn then [] else [TurnStart]);
      if !firstTurn {
        Emit(agent, TurnStart, base, p.events);
      } else {
        assert p.events + [] == p.events;
      }
      PushMessages(pending, base, begun);
      assert Untag(p.added) + pending == Untag(p.added + p.pending);
    }

    method PushMessages(pending: seq<AgentMessage>, ghost base: Base, ghost begun: seq<Event>)
      requires Follows(agent, base, begun)
      modifies this`context, this`newMessages, agent
      ensures Follows(agent, base, begun + Bracketed(pending))
      ensures context == old(context) + pending && newMessages == old(newMessages) + pending
    {
      assert begun + [] == begun && context + [] == context && newMessages + [] == newMessages;
      for i := 0 to |pending|
        invariant context == old(context) + pending[..i] && newMessages == old(newMessages) + pending[..i]
        invariant Follows(agent, base, begun + Bracketed(pending[..i]))
      {
        EmitMessage(agent, pending[i], base, begun + Bracketed(pending[..i]));
        ConcatAssociative(begun, Bracketed(pending[..i]), Bracketed([pending[i]]));
        BracketedAppend(pending[..i], pending[i]);
        assert pending[..i + 1] == pending[..i] + [pending[i]];
        context := context + [pending[i]];
        newMessages := newMessages + [pending[i]];
      }
      assert pending[..|pending|] == pending;
    }

    /** The tool calls of a response, if it has any, and their results. */
    method RunTools(t: TurnPlan, ghost base: Base, ghost p: Progress)
      returns (toolResults: seq<AgentMessage>, hasMoreToolCalls: bool)
      requires At(base, p) && ValidPlan(t)
      modifies this`context, this`newMessages, agent
      ensures At(base, Act(p, t))
      ensures toolResults == ResultMessages(FinalizeAll(ToolCalls(t.reply.result), t.plans))
      ensures hasMoreToolCalls == WantsAnotherTurn(t)
    {
      var toolCalls := ToolCalls(t.reply.result);
      toolResults, hasMoreToolCalls := [], false;
      if |toolCalls| > 0 {
        var terminate;
        toolResults, terminate := ExecuteToolCalls(agent, toolCalls, t.plans, t.sequential, t.schedule, base, p.events);
        hasMoreToolCalls := !terminate;
        context := context + toolResults;
        newMessages := newMessages + toolResults;
        ActAdds(p, t, toolResults);
      }
    }

    /** One turn of the inner loop, up to its end event. */
    method RunTurn(t: TurnPlan, ghost base: Base, ghost p: Progress) returns (failed: bool, hasMoreToolCalls: bool)
      requires At(base, Inject(p)) && ValidPlan(t)
      modifies this`context, this`newMessages, agent
      ensures At(base, Turn(p, t))
      ensures failed == Failed(t.reply.result)
      ensures hasMoreToolCalls == (!failed && WantsAnotherTurn(t))
    {
      ghost var q := Inject(p);
      var message := StreamAssistantResponse(t.reply, base, q.events);
      newMessages := newMessages + [message];
      ghost var answered := Answer(q, t.reply);
      assert newMessages == Untag(answered.added);
      if message.stopReason == Error || message.stopReason == Aborted {
        Emit(agent, TurnEnd(message, []), base, answered.events);
        return true, false;
      }
      var toolResults: seq<AgentMessage>;
      toolResults, hasMoreToolCalls := RunTools(t, base, answered);
      Emit(agent, TurnEnd(message, toolResults), base, Act(answered, t).events);
      return false, hasMoreToolCalls;
    }

    method Poll(arrivals: seq<Arrival>, ghost base: Base, ghost p: Progress) returns (pending: seq<AgentMessage>)
      requires At(base, p)
      modifies agent.steeringQueue, agent.followUpQueue
      ensures At(base, PollSteering(p, arrivals)) && pending == Untag(PollSteering(p, arrivals).pending)
    {
      agent.Receive(arrivals);
      pending := agent.steeringQueue.Drain();
    }

    method End(ghost base: Base, ghost p: Progress)
      requires At(base, p)
      modifies agent
      ensures At(base, Conclude(p))
    {
      Emit(agent, AgentEnd(newMessages), base, p.events);
    }

    /** A turn and what follows it inside the inner loop: the end of the run, or the steering poll. */
    method RunTurnAndPoll(t: TurnPlan, ghost base: Base, ghost p: Progress)
      returns (ended: bool, hasMoreToolCalls: bool, pending: seq<AgentMessage>)
      requires At(base, Inject(p)) && ValidPlan(t) && !p.ended
      modifies this`context, this`newMessages, agent, agent.steeringQueue, agent.followUpQueue
      ensures ended == (Failed(t.reply.result) || t.stop)
      ensures ended ==> TurnStep(p, t).ended && At(base, TurnStep(p, t))
      ensures !ended ==>
                var polled := PollSteering(Turn(p, t), t.arrivals);
                && At(base, polled) && pending == Untag(polled.pending) && hasMoreToolCalls == WantsAnotherTurn(t)
    {
      var failed, more := RunTurn(t, base, p);
      ghost var turn := Turn(p, t);
      if failed || t.stop {
        agent.Receive(t.arrivals);
        End(base, turn.(queues := ArriveAll(turn.queues, t.arrivals)));
        return true, false, [];
      }
      pending := Poll(t.arrivals, base, turn);
      return false, more, pending;
    }

    method FollowUpPoll(late: seq<Arrival>, ghost base: Base, ghost p: Progress)
      returns (ended: bool, pending: seq<AgentMessage>)
      requires At(base, p) && !p.ended
      modifies agent, agent.steeringQueue, agent.followUpQueue
      ensures var q := PollFollowUps(p, late);
              At(base, q) && ended == q.ended && pending == Untag(q.pending)
    {
      agent.Receive(late);
      pending := agent.followUpQueue.Drain();
      if |pending| > 0 {
        return false, pending;
      }
      ghost var q := ArriveAll(p.queues, late);
      End(base, p.(queues := q.(followUp := q.followUp[0..]), pending := []));
      return true, pending;
    }

    /** The loop variables agree with a run that goes on. */
    ghost predicate Ready(base: Base, p: Progress, pending: seq<AgentMessage>, firstTurn: bool)
      reads this, agent, agent.steeringQueue, agent.followUpQueue
    {
      At(base, p) && !p.ended && pending == Untag(p.pending) && firstTurn == p.firstTurn
    }

    /** One pass of the inner loop: injects what is pending, then runs a turn and polls. */
    method Iterate(t: TurnPlan, pendingMessages: seq<AgentMessage>, firstTurn: bool,
                   ghost base: Base, ghost p: Progress)
      returns (ended: bool, hasMoreToolCalls: bool, pending: seq<AgentMessage>, ghost q: Progress)
      requires Ready(base, p, pendingMessages, firstTurn) && ValidPlan(t)
      modifies this`context, this`newMessages, agent, agent.steeringQueue, agent.followUpQueue
      ensures ended ==> At(base, q) && q.ended && q == TurnStep(p, t)
      ensures !ended ==> Ready(base, q, pending, false)
      ensures !ended ==>
                TurnStep(p, t) == if hasMoreToolCalls || |pending| > 0 then q else PollFollowUps(q, t.lateArrivals)
    {
      InjectPending(pendingMessages, firstTurn, base, p);
      ended, hasMoreToolCalls, pending := RunTurnAndPoll(t, base, p);
      q := if ended then TurnStep(p, t) else PollSteering(Turn(p, t), t.arrivals);
    }

    /** Where the loops stand, as `exit` says: see `Exit`. */
    ghost predicate Standing(base: Base, begun: Progress, plan: seq<TurnPlan>, exit: Exit, k: nat, p: Progress,
                             pending: seq<AgentMessage>, firstTurn: bool)
      requires ValidPlans(plan) && k <= |plan|
      reads this, agent, agent.steeringQueue, agent.followUpQueue
    {
      match exit
      case Going => Ready(base, p, pending, firstTurn) && p == RunAll(begun, plan[..k])
      case Idle => Ready(base, p, [], false) && WouldStop(begun, plan[..k], p)
      case Waiting => At(base, Inject(p)) && !p.ended && p == RunAll(begun, plan)
      case Ended => At(base, p) && p.ended && p == RunAll(begun, plan)
    }

    /** One pass of the inner loop, unless no response is planned any more. */
    method Pass(plan: seq<TurnPlan>, k0: nat, pendingMessages: seq<AgentMessage>, firstTurn: bool,
                ghost base: Base, ghost begun: Progress, ghost p0: Progress)
      returns (exit: Exit, k: nat, pending: seq<AgentMessage>, ghost p: Progress)
      requires ValidPlans(plan) && k0 <= |plan|
      requires Standing(base, begun, plan, Going, k0, p0, pendingMessages, firstTurn)
      modifies this`context, this`newMessages, agent, agent.steeringQueue, agent.followUpQueue
      ensures k0 <= k <= |plan| && Standing(base, begun, plan, exit, k, p, pending, false)
      ensures exit.Going? || exit.Idle? ==> k0 < k
    {
      if k0 == |plan| {
        InjectPending(pendingMessages, firstTurn, base, p0);
        assert plan[..k0] == plan;
        return Waiting, k0, [], p0;
      }
      RunNext(begun, plan, k0);
      k := k0 + 1;
      var ended, hasMoreToolCalls;
      ended, hasMoreToolCalls, pending, p := Iterate(plan[k0], pendingMessages, firstTurn, base, p0);
      if ended {
        EndedStays(begun, plan, k);
        exit := Ended;
      } else if hasMoreToolCalls || |pending| > 0 {
        exit := Going;
      } else {
        FrontOfPrefix(plan, k0);
        exit := Idle;
      }
    }

    /** The agent would stop: polls the follow-ups, and goes on with them if there are any. */
    method LastPoll(plan: seq<TurnPlan>, k: nat, ghost base: Base, ghost begun: Progress, ghost p0: Progress)
      returns (exit: Exit, pending: seq<AgentMessage>, ghost p: Progress)
      requires ValidPlans(plan) && 0 < k <= |plan| && Standing(base, begun, plan, Idle, k, p0, [], false)
      modifies agent, agent.steeringQueue, agent.followUpQueue
      ensures exit.Going? || exit.Ended?
      ensures Standing(base, begun, plan, exit, k, p, pending, false)
    {
      FrontOfPrefix(plan, k - 1);
      p := PollFollowUps(p0, plan[k - 1].lateArrivals);
      var ended;
      ended, pending := FollowUpPoll(plan[k - 1].lateArrivals, base, p0);
      exit := if ended then Ended else Going;
      if ended {
        EndedStays(begun, plan, k);
      }
    }

    /**
     The main loop. A run that has not ended when the plan is used up is waiting for its next response,
     its pending messages already injected.
     */
    method RunLoop(skip: bool, first: seq<Arrival>, plan: seq<TurnPlan>, ghost base: Base, ghost start: Progress)
      returns (ended: bool)
      requires At(base, start) && ValidPlans(plan)
      requires start.pending == [] && start.firstTurn && !start.ended
      modifies this`context, this`newMessages, agent, agent.steeringQueue, agent.followUpQueue
      ensures var p := RunAll(FirstPoll(start, skip, first), plan);
              ended == p.ended && At(base, if p.ended then p else Inject(p))
    {
      ghost var begun := FirstPoll(start, skip, first);
      ghost var p := begun;
      var exit, firstTurn, k := Going, true, 0;
      var pending := PollAtStart(skip, first, base, start);
      while exit.Going?
        invariant 0 <= k <= |plan| && !exit.Idle? && Standing(base, begun, plan, exit, k, p, pending, firstTurn)
        decreases |plan| - k, exit.Going?
      {
        ghost var k0 := k;
        while exit.Going?
          invariant k0 <= k <= |plan| && Standing(base, begun, plan, exit, k, p, pending, firstTurn)
          invariant exit.Idle? ==> k0 < k && !firstTurn
          decreases |plan| - k, exit.Going?
        {
          exit, k, pending, p := Pass(plan, k, pending, firstTurn, base, begun, p);
          firstTurn := false;
        }
        if exit.Idle? {
          exit, pending, p := LastPoll(plan, k, base, begun, p);
        }
      }
      return exit.Ended?;
    }

    method PollAtStart(skip: bool, first: seq<Arrival>, ghost base: Base, ghost start: Progress)
      returns (pending: seq<AgentMessage>)
      requires At(base, start) && start.pending == []
      modifies agent.steeringQueue, agent.followUpQueue
      ensures At(base, FirstPoll(start, skip, first)) && pending == Untag(FirstPoll(start, skip, first).pending)
    {
      if skip {
        agent.Receive(first);
        return [];
      }
      pending := Poll(first, base, start);
    }
  }
}
