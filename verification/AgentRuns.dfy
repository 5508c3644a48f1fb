/** What holds of every run of the agent loop, however the model, the tools and the user behave. */
module AgentRuns {
  import opened Messages
  import opened Sequences
  import opened AgentEvents
  import opened Agents
  import opened ToolBatch
  import opened AgentLoop

  // ---------------------------------------------------------------------------------------------
  // The three transcripts, the event grammar and the tool events
  // ---------------------------------------------------------------------------------------------

  const NO_TOOLS: Option<multiset<string>> := Some(multiset{})

  /** The records of a run agree, up to `extra` stale partials left in the loop's context. */
  ghost predicate Sound(p: Progress, base: seq<AgentMessage>, extra: nat, phase: Phase)
  {
    && Delivered(p.events) == Untag(p.added)
    && ToolsAfter(NO_TOOLS, p.events) == NO_TOOLS
    && PhaseAfter(NotStarted, p.events) == (if extra > 0 then Broken else phase)
    && base <= p.context && |p.context| == |base| + |p.added| + extra
    && (extra == 0 ==> p.context == base + Untag(p.added))
  }

  function Standing(p: Progress): Phase
  {
    if p.ended then Finished else if p.firstTurn then InTurn(None) else BetweenTurns
  }

  /** A run that grew by `events`, which deliver the `added` messages. */
  lemma Grows(p: Progress, q: Progress, events: seq<Event>, added: seq<Tagged>, base: seq<AgentMessage>,
              extra: nat, phase: Phase)
    requires Sound(p, base, extra, phase)
    requires q.events == p.events + events && q.added == p.added + added && q.context == p.context + Untag(added)
    requires Delivered(events) == Untag(added) && ToolsAfter(NO_TOOLS, events) == NO_TOOLS
    ensures Sound(q, base, extra, PhaseAfter(phase, events))
  {
    UntagConcat(p.added, added);
    assert Delivered(q.events) == Untag(q.added) && ToolsAfter(NO_TOOLS, q.events) == NO_TOOLS
        && PhaseAfter(NotStarted, q.events) == (if extra > 0 then Broken else PhaseAfter(phase, events)) by {
      ConcatFacts(p.events, events, NotStarted, NO_TOOLS);
      BrokenStays(events);
    }
    ConcatAssociative(base, Untag(p.added), Untag(added));
  }

  lemma UntagConcat(a: seq<Tagged>, b: seq<Tagged>)
    ensures Untag(a + b) == Untag(a) + Untag(b)
  {
  }

  lemma OneEvent(e: Event, phase: Phase)
    requires !e.MessageEnd? && ToolStep(NO_TOOLS, e) == NO_TOOLS
    ensures Delivered([e]) == [] && PhaseAfter(phase, [e]) == PhaseStep(phase, e)
    ensures ToolsAfter(NO_TOOLS, [e]) == NO_TOOLS
  {
    AppendOne([], e, phase, NO_TOOLS);
    assert [] + [e] == [e];
  }

  lemma InjectSound(p: Progress, base: seq<AgentMessage>, extra: nat)
    requires !p.ended && Sound(p, base, extra, Standing(p))
    ensures Sound(Inject(p), base, extra, InTurn(None))
  {
    var opening := if p.firstTurn then [] else [TurnStart];
    var messages := Bracketed(Untag(p.pending));
    BracketedFacts(Untag(p.pending), NO_TOOLS);
    OneEvent(TurnStart, BetweenTurns);
    ConcatFacts(opening, messages, Standing(p), NO_TOOLS);
    ConcatAssociative(p.events, opening, messages);
    Grows(p, Inject(p), opening + messages, p.pending, base, extra, Standing(p));
  }

  /** The response: stale partials are counted, and they are all that can go wrong. */
  lemma AnswerSound(p: Progress, reply: Reply, base: seq<AgentMessage>, extra: nat)
    requires Sound(p, base, extra, InTurn(None)) && ValidStream(reply.stream) && reply.result.Assistant?
    ensures Sound(Answer(p, reply), base, extra + Surplus(reply), InTurn(None))
  {
    var q, r := Answer(p, reply), Respond(p.context, reply);
    RespondFacts(p.context, reply, NO_TOOLS);
    UntagOne(p.added, Tagged(Model, reply.result));
    assert Delivered(q.events) == Untag(q.added) && ToolsAfter(NO_TOOLS, q.events) == NO_TOOLS
        && PhaseAfter(NotStarted, q.events) == (if extra + Surplus(reply) > 0 then Broken else InTurn(None)) by {
      ConcatFacts(p.events, r.events, NotStarted, NO_TOOLS);
      BrokenStays(r.events);
    }
    OneLonger(p.context, r.context, reply.result);
    ConcatAssociative(base, Untag(p.added), [reply.result]);
  }

  lemma UntagOne(added: seq<Tagged>, t: Tagged)
    ensures Untag(added + [t]) == Untag(added) + [t.message]
  {
  }

  lemma OneLonger(s: seq<AgentMessage>, t: seq<AgentMessage>, m: AgentMessage)
    requires s <= t && |t| > |s| && Last(t) == m
    ensures |t| == |s| + 1 ==> t == s + [m]
  {
  }

  lemma ActSound(p: Progress, t: TurnPlan, base: seq<AgentMessage>, extra: nat)
    requires ValidPlan(t) && Sound(p, base, extra, InTurn(None))
    ensures Sound(Act(p, t), base, extra, InTurn(None))
  {
    var calls := ToolCalls(t.reply.result);
    var results := ResultMessages(FinalizeAll(calls, t.plans));
    var events := BatchEvents(t.sequential, calls, t.plans, t.schedule);
    if calls != [] {
      BatchFacts(t.sequential, calls, t.plans, t.schedule);
      assert Untag(Tag(Tool, results)) == results;
      Grows(p, Act(p, t), events, Tag(Tool, results), base, extra, InTurn(None));
    }
  }

  lemma TurnSound(p: Progress, t: TurnPlan, base: seq<AgentMessage>, extra: nat)
    requires ValidPlan(t) && !p.ended && Sound(p, base, extra, Standing(p))
    ensures Sound(Turn(p, t), base, extra + Surplus(t.reply), BetweenTurns)
  {
    var answered, more := Answer(Inject(p), t.reply), extra + Surplus(t.reply);
    InjectSound(p, base, extra);
    AnswerSound(Inject(p), t.reply, base, extra);
    CloseSound(answered, t.reply.result, [], base, more);
    ActSound(answered, t, base, more);
    CloseSound(Act(answered, t), t.reply.result, ResultMessages(FinalizeAll(ToolCalls(t.reply.result), t.plans)),
               base, more);
  }

  lemma CloseSound(p: Progress, m: AgentMessage, results: seq<AgentMessage>, base: seq<AgentMessage>, extra: nat)
    requires Sound(p, base, extra, InTurn(None))
    ensures Sound(CloseTurn(p, m, results), base, extra, BetweenTurns)
  {
    NothingAdded(p, TurnEnd(m, results), base, extra, InTurn(None));
  }

  lemma NothingAdded(p: Progress, e: Event, base: seq<AgentMessage>, extra: nat, phase: Phase)
    requires Sound(p, base, extra, phase) && !e.MessageEnd? && ToolStep(NO_TOOLS, e) == NO_TOOLS
    ensures Sound(p.(events := p.events + [e]), base, extra, PhaseStep(phase, e))
  {
    OneEvent(e, phase);
    assert p.added + [] == p.added && p.context + Untag([]) == p.context;
    Grows(p, p.(events := p.events + [e]), [e], [], base, extra, phase);
  }

  /** The stale partials a run leaves in its context: those of the turns it came to. */
  ghost function Extra(p: Progress, plan: seq<TurnPlan>): nat
    requires ValidPlans(plan)
  {
    if plan == [] then 0
    else Extra(p, Front(plan)) + if RunAll(p, Front(plan)).ended then 0 else Surplus(Last(plan).reply)
  }

  /** The end of the run, or polls that leave the records alone. */
  lemma AfterTurn(turn: Progress, q: Progress, base: seq<AgentMessage>, extra: nat)
    requires Sound(turn, base, extra, BetweenTurns)
    requires q.added == turn.added && q.context == turn.context && !q.firstTurn
    requires q.events == if q.ended then turn.events + [AgentEnd(Untag(turn.added))] else turn.events
    ensures Sound(q, base, extra, Standing(q))
  {
    if q.ended {
      NothingAdded(turn, AgentEnd(Untag(turn.added)), base, extra, BetweenTurns);
    }
  }

  lemma TurnKeeps(p: Progress, t: TurnPlan)
    requires ValidPlan(t)
    ensures var turn := Turn(p, t);
            turn.ended == p.ended && !turn.firstTurn && turn.queues == p.queues && turn.pending == []
            && turn.requests == p.requests + [Inject(p).context]
  {
  }

  lemma StepSound(p: Progress, t: TurnPlan, base: seq<AgentMessage>, extra: nat)
    requires ValidPlan(t) && !p.ended && Sound(p, base, extra, Standing(p))
    ensures Sound(TurnStep(p, t), base, extra + Surplus(t.reply), Standing(TurnStep(p, t)))
  {
    TurnSound(p, t, base, extra);
    TurnKeeps(p, t);
    AfterTurn(Turn(p, t), TurnStep(p, t), base, extra + Surplus(t.reply));
  }

  lemma {:induction false} RunSound(p: Progress, plan: seq<TurnPlan>, base: seq<AgentMessage>)
    requires ValidPlans(plan) && Sound(p, base, 0, Standing(p))
    ensures Sound(RunAll(p, plan), base, Extra(p, plan), Standing(RunAll(p, plan)))
  {
    if plan != [] {
      RunSound(p, Front(plan), base);
      if !RunAll(p, Front(plan)).ended {
        StepSound(RunAll(p, Front(plan)), Last(plan), base, Extra(p, Front(plan)));
      }
    }
  }

  /** How a run is started: the transcript, its opening messages, the queues, and the poll before the first turn. */
  datatype Opening = Opening(
    context: seq<AgentMessage>, prompts: seq<Tagged>, queues: Queues, skip: bool, arrivals: seq<Arrival>)

  function Opened(o: Opening): Progress
  {
    FirstPoll(Begin(o.context, o.prompts, o.queues), o.skip, o.arrivals)
  }

  ghost function Run(o: Opening, plan: seq<TurnPlan>): Progress
    requires ValidPlans(plan)
  {
    RunAll(Opened(o), plan)
  }

  lemma OpenedSound(o: Opening)
    ensures Sound(Opened(o), o.context, 0, InTurn(None))
    ensures !Opened(o).ended && Opened(o).firstTurn
  {
    var opening, prompts := [AgentStart, TurnStart], Bracketed(Untag(o.prompts));
    AppendTwo([], AgentStart, TurnStart, NotStarted, NO_TOOLS);
    assert [] + opening == opening;
    BracketedFacts(Untag(o.prompts), NO_TOOLS);
    ConcatFacts(opening, prompts, NotStarted, NO_TOOLS);
  }

  /**
   The messages that ended are the new messages, and the agent's transcript grows by them, whatever the
   streams do. The loop's own context grows by them exactly if no stream starts its message twice.
   */
  lemma TranscriptsAgree(o: Opening, plan: seq<TurnPlan>, st: AgentState)
    requires ValidPlans(plan)
    ensures var p := Run(o, plan);
            && Delivered(p.events) == Untag(p.added)
            && ReduceAll(st, p.events).messages == st.messages + Untag(p.added)
            && o.context <= p.context
            && (p.context == o.context + Untag(p.added) <==> Extra(Opened(o), plan) == 0)
  {
    OpenedSound(o);
    RunSound(Opened(o), plan, o.context);
    TranscriptIsDelivered(st, Run(o, plan).events);
  }

  /** The trace is a complete run exactly if the run is over and no stream starts its message twice. */
  lemma TraceFollowsGrammar(o: Opening, plan: seq<TurnPlan>)
    requires ValidPlans(plan)
    ensures var p := Run(o, plan);
            && (PhaseAfter(NotStarted, p.events) == Finished <==> p.ended && Extra(Opened(o), plan) == 0)
            && (PhaseAfter(NotStarted, p.events) == Broken <==> Extra(Opened(o), plan) > 0)
  {
    OpenedSound(o);
    RunSound(Opened(o), plan, o.context);
  }

  /** Tool events match in every run, and no tool call is pending in the agent when a turn ends. */
  lemma NoToolPendingAtTurnEnd(o: Opening, plan: seq<TurnPlan>, st: AgentState)
    requires ValidPlans(plan) && st.pending == {}
    ensures var events := Run(o, plan).events;
            && ToolsAfter(NO_TOOLS, events) == NO_TOOLS
            && forall i | 0 <= i < |events| && events[i].TurnEnd? ::
                 ReduceAll(st, events[..i]).pending == {} && ReduceAll(st, events[..i + 1]).pending == {}
  {
    OpenedSound(o);
    RunSound(Opened(o), plan, o.context);
    var events := Run(o, plan).events;
    forall i | 0 <= i < |events| && events[i].TurnEnd?
      ensures ReduceAll(st, events[..i]).pending == {} && ReduceAll(st, events[..i + 1]).pending == {}
    {
      NothingPendingAtTurnEnd(st, events, i);
    }
  }

  /** A plan for one turn: a stream that starts its message twice, a response without tool calls, and a stop. */
  function StartsTwice(partial: AgentMessage, answer: AgentMessage): TurnPlan
  {
    TurnPlan(Reply([Start(partial), Start(partial), Terminal], answer), [], false, [], true, [], [])
  }

  /** Such a run leaves the first partial in the loop's context, and its messages are not bracketed. */
  lemma DoubleStartLeavesPartial(o: Opening, partial: AgentMessage, answer: AgentMessage)
    requires partial.Assistant? && answer.Assistant? && ToolCalls(answer) == []
    ensures var plan := [StartsTwice(partial, answer)];
            && ValidPlans(plan) && Run(o, plan).ended && Extra(Opened(o), plan) == 1
            && |Run(o, plan).context| == |o.context| + |Run(o, plan).added| + 1
            && PhaseAfter(NotStarted, Run(o, plan).events) == Broken
  {
    var t := StartsTwice(partial, answer);
    assert ValidPlans([t]) && Front([t]) == [];
    TwoStarts(partial);
    OpenedSound(o);
    TurnKeeps(Opened(o), t);
    RunSound(Opened(o), [t], o.context);
  }

  lemma TwoStarts(partial: AgentMessage)
    ensures Heard([Start(partial), Start(partial), Terminal]) == [Start(partial), Start(partial)]
    ensures Starts([Start(partial), Start(partial)]) == 2
  {
    var stream := [Start(partial), Start(partial), Terminal];
    assert Front(stream[..2]) == [Start(partial)] && Front([Start(partial)]) == [];
    assert stream[1..] == [Start(partial), Terminal] && [Start(partial), Terminal][1..] == [Terminal];
    assert Heard([Terminal]) == [];
    assert [Start(partial)] + [] == [Start(partial)] && [Start(partial)] + [Start(partial)] == stream[..2];
    assert stream[..2] == [Start(partial), Start(partial)] && Starts([Start(partial)]) == 1;
  }

  /** A run that is over has said so last, with all its new messages. */
  lemma {:induction false} EndsWithItsMessages(p: Progress, plan: seq<TurnPlan>)
    requires ValidPlans(plan) && !p.ended && RunAll(p, plan).ended
    ensures var q := RunAll(p, plan); q.events != [] && Last(q.events) == AgentEnd(Untag(q.added)) && q.pending == []
  {
    if plan != [] {
      if RunAll(p, Front(plan)).ended {
        EndsWithItsMessages(p, Front(plan));
      } else {
        PollsKeep(RunAll(p, Front(plan)), Last(plan));
      }
    }
  }

  /** What the grammar means for the ends of a trace: one start, first, and one end, last. */
  lemma {:induction false} CompleteTrace(events: seq<Event>)
    ensures PhaseAfter(NotStarted, events) == NotStarted ==> events == []
    ensures PhaseAfter(NotStarted, events) != Broken && events != [] ==>
              events[0] == AgentStart && forall i | 0 < i < |events| :: events[i] != AgentStart
    ensures PhaseAfter(NotStarted, events) != Broken ==>
              forall i | 0 <= i < |events| - 1 :: !events[i].AgentEnd?
    ensures PhaseAfter(NotStarted, events) == Finished ==> events != [] && Last(events).AgentEnd?
    ensures PhaseAfter(NotStarted, events) != Broken && events != [] && Last(events).AgentEnd? ==>
              PhaseAfter(NotStarted, events) == Finished
  {
    if events != [] {
      CompleteTrace(Front(events));
      var front := Front(events);
      if front != [] && PhaseAfter(NotStarted, events) != Broken {
        assert forall i | 0 <= i < |front| :: events[i] == front[i];
        assert Last(front) == events[|events| - 2];
      }
    }
  }

  // ---------------------------------------------------------------------------------------------
  // Tool calls and their results
  // ---------------------------------------------------------------------------------------------

  predicate Answers(t: Tagged, call: ToolCall)
  {
    t.origin == Tool && t.message.ToolResult? && t.message.toolCallId == call.id && t.message.toolName == call.name
  }

  /**
   A response is followed at once by a result for each of its calls, in order, and no other result; a failed one
   is last.
   */
  predicate Answered(added: seq<Tagged>, k: nat)
    requires k < |added|
  {
    var calls := ToolCalls(added[k].message);
    if Failed(added[k].message) then k == |added| - 1
    else
      && k + |calls| < |added|
      && (forall j | 0 <= j < |calls| :: Answers(added[k + 1 + j], calls[j]))
      && (k + 1 + |calls| < |added| ==> added[k + 1 + |calls|].origin != Tool)
  }

  ghost predicate AllAnswered(added: seq<Tagged>)
  {
    forall k | 0 <= k < |added| && added[k].origin == Model :: Answered(added, k)
  }

  ghost predicate ResultsStand(added: seq<Tagged>)
  {
    forall i | 0 <= i < |added| && added[i].origin == Tool ::
      i > 0 && (added[i - 1].origin == Model || added[i - 1].origin == Tool)
  }

  /** Every response is answered, and every result stands after a response or another result. */
  ghost predicate Paired(added: seq<Tagged>)
  {
    AllAnswered(added) && ResultsStand(added)
  }

  ghost predicate NoneFailed(added: seq<Tagged>)
  {
    forall k | 0 <= k < |added| && added[k].origin == Model :: !Failed(added[k].message)
  }

  ghost predicate FromUser(messages: seq<Tagged>)
  {
    forall i | 0 <= i < |messages| :: messages[i].origin != Model && messages[i].origin != Tool
  }

  lemma PairedUser(added: seq<Tagged>, user: seq<Tagged>)
    requires Paired(added) && NoneFailed(added) && FromUser(user)
    ensures Paired(added + user) && NoneFailed(added + user)
  {
    forall k | 0 <= k < |added + user| && (added + user)[k].origin == Model ensures Answered(added + user, k) {
      assert (added + user)[k] == added[k] && Answered(added, k);
    }
  }

  /** An answered response stays answered when something other than a result follows. */
  lemma StaysAnswered(added: seq<Tagged>, more: seq<Tagged>, k: nat)
    requires k < |added| && Answered(added, k) && !Failed(added[k].message)
    requires more != [] ==> more[0].origin != Tool
    ensures Answered(added + more, k)
  {
  }

  lemma NewlyAnswered(added: seq<Tagged>, m: AgentMessage, results: seq<AgentMessage>)
    requires Failed(m) ==> results == []
    requires !Failed(m) ==> |results| == |ToolCalls(m)|
    requires forall j | 0 <= j < |results| :: Answers(Tagged(Tool, results[j]), ToolCalls(m)[j])
    ensures Answered(added + ([Tagged(Model, m)] + Tag(Tool, results)), |added|)
  {
    var all := added + ([Tagged(Model, m)] + Tag(Tool, results));
    assert all[|added|] == Tagged(Model, m);
    assert forall j | 0 <= j < |results| :: all[|added| + 1 + j] == Tagged(Tool, results[j]);
  }

  lemma AllAnsweredTurn(added: seq<Tagged>, m: AgentMessage, results: seq<AgentMessage>)
    requires AllAnswered(added) && NoneFailed(added)
    requires Failed(m) ==> results == []
    requires !Failed(m) ==> |results| == |ToolCalls(m)|
    requires forall j | 0 <= j < |results| :: Answers(Tagged(Tool, results[j]), ToolCalls(m)[j])
    ensures AllAnswered(added + ([Tagged(Model, m)] + Tag(Tool, results)))
  {
    var more := [Tagged(Model, m)] + Tag(Tool, results);
    var all := added + more;
    NewlyAnswered(added, m, results);
    forall k | 0 <= k < |all| && all[k].origin == Model ensures Answered(all, k) {
      OnlyOneNew(added, m, results, k);
      if k < |added| {
        StaysAnswered(added, more, k);
      }
    }
  }

  lemma OnlyOneNew(added: seq<Tagged>, m: AgentMessage, results: seq<AgentMessage>, k: nat)
    requires var all := added + ([Tagged(Model, m)] + Tag(Tool, results)); k < |all| && all[k].origin == Model
    ensures if k < |added| then added[k].origin == Model else k == |added|
  {
  }

  lemma ResultsStandTurn(added: seq<Tagged>, m: AgentMessage, results: seq<AgentMessage>)
    requires ResultsStand(added)
    ensures ResultsStand(added + ([Tagged(Model, m)] + Tag(Tool, results)))
  {
  }

  lemma PairedTurn(added: seq<Tagged>, m: AgentMessage, results: seq<AgentMessage>)
    requires Paired(added) && NoneFailed(added)
    requires Failed(m) ==> results == []
    requires !Failed(m) ==> |results| == |ToolCalls(m)|
    requires forall j | 0 <= j < |results| :: Answers(Tagged(Tool, results[j]), ToolCalls(m)[j])
    ensures Paired(added + [Tagged(Model, m)] + Tag(Tool, results))
    ensures !Failed(m) ==> NoneFailed(added + [Tagged(Model, m)] + Tag(Tool, results))
  {
    ConcatAssociative(added, [Tagged(Model, m)], Tag(Tool, results));
    AllAnsweredTurn(added, m, results);
    ResultsStandTurn(added, m, results);
  }

  /** The results a turn adds: none after a failed response. */
  function Results(t: TurnPlan): seq<AgentMessage>
    requires |t.plans| == |ToolCalls(t.reply.result)|
  {
    if Failed(t.reply.result) then [] else ResultMessages(FinalizeAll(ToolCalls(t.reply.result), t.plans))
  }

  lemma TurnAdds(p: Progress, t: TurnPlan)
    requires ValidPlan(t)
    ensures Turn(p, t).added == p.added + p.pending + [Tagged(Model, t.reply.result)] + Tag(Tool, Results(t))
  {
  }

  lemma PollsKeep(p: Progress, t: TurnPlan)
    requires ValidPlan(t) && !p.ended
    ensures var q := TurnStep(p, t);
            && q.added == Turn(p, t).added && q.context == Turn(p, t).context && q.requests == Turn(p, t).requests
            && FromUser(q.pending) && (q.ended || !Failed(t.reply.result))
            && (q.ended ==> q.pending == [] && q.events == Turn(p, t).events + [AgentEnd(Untag(q.added))])
  {
    var turn := Turn(p, t);
    TurnKeeps(p, t);
    PollKeeps(turn, t.arrivals);
    PollKeeps(PollSteering(turn, t.arrivals), t.lateArrivals);
  }

  /** Polls leave the records alone, unless the run ends. */
  lemma PollKeeps(p: Progress, arrivals: seq<Arrival>)
    ensures var q := PollSteering(p, arrivals);
            q == p.(queues := q.queues, pending := q.pending) && FromUser(q.pending)
    ensures var q := PollFollowUps(p, arrivals);
            && q == (if q.pending == [] then Conclude(p.(queues := q.queues, pending := []))
                     else p.(queues := q.queues, pending := q.pending))
            && FromUser(q.pending)
  {
  }

  lemma PairedStep(p: Progress, t: TurnPlan)
    requires ValidPlan(t) && !p.ended && Paired(p.added) && NoneFailed(p.added) && FromUser(p.pending)
    ensures var q := TurnStep(p, t);
            Paired(q.added) && (q.ended || NoneFailed(q.added)) && FromUser(q.pending)
  {
    assert Paired(Turn(p, t).added) && (!Failed(t.reply.result) ==> NoneFailed(Turn(p, t).added)) by {
      PairedUser(p.added, p.pending);
      ResultsAnswer(t);
      PairedTurn(p.added + p.pending, t.reply.result, Results(t));
      TurnAdds(p, t);
    }
    PollsKeep(p, t);
  }

  lemma ResultsAnswer(t: TurnPlan)
    requires ValidPlan(t)
    ensures var m, results := t.reply.result, Results(t);
            && (if Failed(m) then results == [] else |results| == |ToolCalls(m)|)
            && forall j | 0 <= j < |results| :: Answers(Tagged(Tool, results[j]), ToolCalls(m)[j])
  {
    var calls, results := ToolCalls(t.reply.result), Results(t);
    forall j | 0 <= j < |results| ensures Answers(Tagged(Tool, results[j]), calls[j]) {
      FinalizeNamesItsCall(calls[j], t.plans[j]);
      assert results[j] == ResultMessage(Finalize(calls[j], t.plans[j]));
    }
  }

  lemma FinalizeNamesItsCall(call: ToolCall, plan: CallPlan)
    ensures Finalize(call, plan).call == call
  {
  }

  lemma {:induction false} RunPaired(p: Progress, plan: seq<TurnPlan>)
    requires ValidPlans(plan) && !p.ended && FromUser(p.added) && FromUser(p.pending)
    ensures var q := RunAll(p, plan); Paired(q.added) && (q.ended || NoneFailed(q.added)) && FromUser(q.pending)
  {
    if plan != [] {
      RunPaired(p, Front(plan));
      if !RunAll(p, Front(plan)).ended {
        PairedStep(RunAll(p, Front(plan)), Last(plan));
      }
    }
  }

  /** In every run, tool results follow their calls, in order, without a gap. */
  lemma ToolResultsFollowTheirCalls(o: Opening, plan: seq<TurnPlan>)
    requires ValidPlans(plan) && FromUser(o.prompts)
    ensures Paired(Run(o, plan).added)
  {
    RunPaired(Opened(o), plan);
  }

  /** The plans describe the same responses, outcomes and arrivals, with other modes and interleavings. */
  predicate SameOutcomes(t: TurnPlan, u: TurnPlan)
  {
    t.(sequential := u.sequential, schedule := u.schedule) == u
  }

  function WithoutEvents(p: Progress): Progress
  {
    p.(events := [])
  }

  lemma SameStep(p: Progress, q: Progress, t: TurnPlan, u: TurnPlan)
    requires ValidPlan(t) && ValidPlan(u) && SameOutcomes(t, u) && WithoutEvents(p) == WithoutEvents(q)
    ensures WithoutEvents(TurnStep(p, t)) == WithoutEvents(TurnStep(q, u))
  {
    assert WithoutEvents(Turn(p, t)) == WithoutEvents(Turn(q, u));
  }

  /** Sequential or parallel, and however the executions interleave: the same messages, requests and queues. */
  lemma {:induction false} ScheduleDoesNotMatter(p: Progress, q: Progress, plan: seq<TurnPlan>, other: seq<TurnPlan>)
    requires ValidPlans(plan) && ValidPlans(other) && |plan| == |other| && WithoutEvents(p) == WithoutEvents(q)
    requires forall i | 0 <= i < |plan| :: SameOutcomes(plan[i], other[i])
    ensures WithoutEvents(RunAll(p, plan)) == WithoutEvents(RunAll(q, other))
  {
    if plan != [] {
      ScheduleDoesNotMatter(p, q, Front(plan), Front(other));
      SameStep(RunAll(p, Front(plan)), RunAll(q, Front(other)), Last(plan), Last(other));
    }
  }

  // ---------------------------------------------------------------------------------------------
  // The queues
  // ---------------------------------------------------------------------------------------------

  function Of(origin: Origin, tagged: seq<Tagged>): seq<AgentMessage>
  {
    if tagged == [] then []
    else Of(origin, Front(tagged)) + if Last(tagged).origin == origin then [Last(tagged).message] else []
  }

  lemma {:induction false} OfConcat(origin: Origin, a: seq<Tagged>, b: seq<Tagged>)
    ensures Of(origin, a + b) == Of(origin, a) + Of(origin, b)
  {
    if b == [] {
      assert a + b == a;
    } else {
      OfConcat(origin, a, Front(b));
      FrontOfConcat(a, b);
    }
  }

  lemma {:induction false} OfTag(origin: Origin, tag: Origin, messages: seq<AgentMessage>)
    ensures Of(origin, Tag(tag, messages)) == if origin == tag then messages else []
  {
    if messages != [] {
      OfTag(origin, tag, Front(messages));
      assert Front(Tag(tag, messages)) == Tag(tag, Front(messages));
      SplitLast(messages);
    }
  }

  /** The queue that messages of this origin wait in. */
  function Queue(q: Queues, origin: Origin): seq<AgentMessage>
  {
    if origin == Steering then q.steering else q.followUp
  }

  predicate Queueing(origin: Origin)
  {
    origin == Steering || origin == FollowUps
  }

  /** What the arrivals put in that queue. */
  function Arrived(arrivals: seq<Arrival>, origin: Origin): seq<AgentMessage>
  {
    if arrivals == [] then []
    else
      var a := Last(arrivals);
      Arrived(Front(arrivals), origin)
      + if (a.Steer? && origin == Steering) || (a.FollowUp? && origin == FollowUps) then [a.message] else []
  }

  lemma {:induction false} ArriveFacts(q: Queues, arrivals: seq<Arrival>, o: Origin)
    requires Queueing(o)
    ensures Queue(ArriveAll(q, arrivals), o) == Queue(q, o) + Arrived(arrivals, o)
  {
    if arrivals != [] {
      ArriveFacts(q, Front(arrivals), o);
    }
  }

  lemma {:induction false} ArrivedConcat(a: seq<Arrival>, b: seq<Arrival>, o: Origin)
    ensures Arrived(a + b, o) == Arrived(a, o) + Arrived(b, o)
  {
    if b == [] {
      assert a + b == a;
    } else {
      ArrivedConcat(a, Front(b), o);
      FrontOfConcat(a, b);
    }
  }

  /** Everything that ever went into a queue, oldest first: injected, about to be injected, or waiting. */
  function Seen(added: seq<Tagged>, pending: seq<Tagged>, q: Queues, o: Origin): seq<AgentMessage>
  {
    Of(o, added) + Of(o, pending) + Queue(q, o)
  }

  function SeenBy(p: Progress, o: Origin): seq<AgentMessage>
  {
    Seen(p.added, p.pending, p.queues, o)
  }

  /** What the user does during a turn that the run comes to; the late part only if the follow-ups are polled. */
  function Taken(p: Progress, t: TurnPlan): seq<Arrival>
    requires |t.plans| == |ToolCalls(t.reply.result)|
    requires forall s | 0 <= s < |t.schedule| :: t.schedule[s].index < |t.plans|
  {
    if p.ended then []
    else if Failed(t.reply.result) || t.stop || WantsAnotherTurn(t)
            || PollSteering(Turn(p, t), t.arrivals).pending != []
    then t.arrivals
    else t.arrivals + t.lateArrivals
  }

  ghost function TakenAll(p: Progress, plan: seq<TurnPlan>): seq<Arrival>
    requires ValidPlans(plan)
  {
    if plan == [] then [] else TakenAll(p, Front(plan)) + Taken(RunAll(p, Front(plan)), Last(plan))
  }

  /** Arrivals join the end of the queues, whether or not a poll follows. */
  lemma ReceiveSeen(added: seq<Tagged>, pending: seq<Tagged>, q: Queues, arrivals: seq<Arrival>, o: Origin)
    requires Queueing(o)
    ensures Seen(added, pending, ArriveAll(q, arrivals), o) == Seen(added, pending, q, o) + Arrived(arrivals, o)
  {
    ArriveFacts(q, arrivals, o);
  }

  /** Taking messages from the front of a queue keeps everything seen in order. */
  lemma DrainSeen(added: seq<Tagged>, q: Queues, r: Queues, tag: Origin, drained: seq<AgentMessage>, o: Origin)
    requires Queueing(o) && Queueing(tag)
    requires Queue(q, o) == if o == tag then drained + Queue(r, o) else Queue(r, o)
    ensures Seen(added, Tag(tag, drained), r, o) == Seen(added, [], q, o)
  {
    OfTag(o, tag, drained);
    var head := Of(o, added);
    assert head + [] == head;
    ConcatAssociative(head, drained, Queue(r, o));
  }

  lemma PollSeen(p: Progress, arrivals: seq<Arrival>, o: Origin)
    requires Queueing(o) && p.pending == []
    ensures SeenBy(PollSteering(p, arrivals), o) == SeenBy(p, o) + Arrived(arrivals, o)
  {
    var q, r := ArriveAll(p.queues, arrivals), PollSteering(p, arrivals).queues;
    var drained := Drained(q.steeringMode, q.steering);
    ReceiveSeen(p.added, [], p.queues, arrivals, o);
    assert q.steering == drained + r.steering;
    DrainSeen(p.added, q, r, Steering, drained, o);
  }

  lemma FollowUpPollSeen(p: Progress, arrivals: seq<Arrival>, o: Origin)
    requires Queueing(o) && p.pending == []
    ensures SeenBy(PollFollowUps(p, arrivals), o) == SeenBy(p, o) + Arrived(arrivals, o)
  {
    var q, r := ArriveAll(p.queues, arrivals), PollFollowUps(p, arrivals).queues;
    var drained := Drained(q.followUpMode, q.followUp);
    ReceiveSeen(p.added, [], p.queues, arrivals, o);
    assert q.followUp == drained + r.followUp;
    DrainSeen(p.added, q, r, FollowUps, drained, o);
  }

  lemma TurnSeen(p: Progress, t: TurnPlan, o: Origin)
    requires ValidPlan(t) && Queueing(o)
    ensures SeenBy(Turn(p, t), o) == SeenBy(p, o)
  {
    var m := Tagged(Model, t.reply.result);
    TurnAdds(p, t);
    TurnKeeps(p, t);
    OfConcat(o, p.added, p.pending);
    FrontOfAppend(p.added + p.pending, m);
    OfConcat(o, p.added + p.pending + [m], Tag(Tool, Results(t)));
    OfTag(o, Tool, Results(t));
    var all := Of(o, p.added) + Of(o, p.pending);
    assert all + [] == all;
  }

  lemma StepSeen(p: Progress, t: TurnPlan, o: Origin)
    requires ValidPlan(t) && Queueing(o)
    ensures SeenBy(TurnStep(p, t), o) == SeenBy(p, o) + Arrived(Taken(p, t), o)
  {
    if !p.ended {
      var turn := Turn(p, t);
      var polled := PollSteering(turn, t.arrivals);
      TurnSeen(p, t, o);
      TurnKeeps(p, t);
      if Failed(t.reply.result) || t.stop {
        ReceiveSeen(turn.added, [], turn.queues, t.arrivals, o);
      } else {
        PollSeen(turn, t.arrivals, o);
        if !WantsAnotherTurn(t) && polled.pending == [] {
          FollowUpPollSeen(polled, t.lateArrivals, o);
          ArrivedConcat(t.arrivals, t.lateArrivals, o);
          ConcatAssociative(SeenBy(p, o), Arrived(t.arrivals, o), Arrived(t.lateArrivals, o));
        }
      }
    } else {
      assert SeenBy(p, o) + [] == SeenBy(p, o);
    }
  }

  /** No message is lost, repeated or overtaken on its way through a queue, in either drain mode. */
  lemma {:induction false} QueuesConserve(p: Progress, plan: seq<TurnPlan>, o: Origin)
    requires ValidPlans(plan) && Queueing(o)
    ensures SeenBy(RunAll(p, plan), o) == SeenBy(p, o) + Arrived(TakenAll(p, plan), o)
  {
    if plan == [] {
      assert SeenBy(p, o) + [] == SeenBy(p, o);
    } else {
      var taken, next := TakenAll(p, Front(plan)), Taken(RunAll(p, Front(plan)), Last(plan));
      QueuesConserve(p, Front(plan), o);
      StepSeen(RunAll(p, Front(plan)), Last(plan), o);
      ArrivedConcat(taken, next, o);
      ConcatAssociative(SeenBy(p, o), Arrived(taken, o), Arrived(next, o));
    }
  }

  /**
   When a run is over, what was ever put in a queue is what was delivered from it, in order, followed by
   what is still in it. Messages that `continue` drains itself count as delivered.
   */
  lemma QueuesAtTheEnd(o: Opening, plan: seq<TurnPlan>, origin: Origin)
    requires ValidPlans(plan) && Run(o, plan).ended && Queueing(origin)
    ensures var p := Run(o, plan);
            Of(origin, o.prompts) + Queue(o.queues, origin) + Arrived(o.arrivals + TakenAll(Opened(o), plan), origin)
            == Of(origin, p.added) + Queue(p.queues, origin)
  {
    var begun, taken := Begin(o.context, o.prompts, o.queues), TakenAll(Opened(o), plan);
    if o.skip {
      ReceiveSeen(begun.added, [], begun.queues, o.arrivals, origin);
    } else {
      PollSeen(begun, o.arrivals, origin);
    }
    QueuesConserve(Opened(o), plan, origin);
    EndsWithItsMessages(Opened(o), plan);
    ArrivedConcat(o.arrivals, taken, origin);
    ConcatAssociative(SeenBy(begun, origin), Arrived(o.arrivals, origin), Arrived(taken, origin));
    assert Of(origin, begun.added) + [] == Of(origin, begun.added);
    assert Of(origin, Run(o, plan).added) + [] == Of(origin, Run(o, plan).added);
  }

  // ---------------------------------------------------------------------------------------------
  // Requests
  // ---------------------------------------------------------------------------------------------

  ghost predicate NoAssistant(messages: seq<AgentMessage>)
  {
    forall i | 0 <= i < |messages| :: !messages[i].Assistant?
  }

  ghost predicate UserSends(arrivals: seq<Arrival>)
  {
    NoAssistant(Arrived(arrivals, Steering)) && NoAssistant(Arrived(arrivals, FollowUps))
  }

  ghost predicate UserSide(p: Progress)
  {
    NoAssistant(p.queues.steering) && NoAssistant(p.queues.followUp) && NoAssistant(Untag(p.pending))
  }

  /** The transcript the agent keeps: where it was, and the new messages. */
  function Transcript(base: seq<AgentMessage>, p: Progress): seq<AgentMessage>
  {
    base + Untag(p.added)
  }

  /** The loop's context may hold stale partials, but it ends like the transcript. */
  ghost predicate SameEnd(base: seq<AgentMessage>, p: Progress)
  {
    var t := Transcript(base, p);
    (p.context == [] <==> t == []) && (t != [] ==> Last(p.context) == Last(t))
  }

  /** Each response comes where the transcript could be sent: what the retry machine requires of a run. */
  ghost predicate ResponsesFollowRequests(base: seq<AgentMessage>, added: seq<AgentMessage>)
  {
    forall i | 0 <= i < |added| && added[i].Assistant? :: Continuable(base + added[..i])
  }

  lemma ResponsesFollowRequestsTurn(base: seq<AgentMessage>, added: seq<AgentMessage>, pending: seq<AgentMessage>,
                                    m: AgentMessage, results: seq<AgentMessage>)
    requires ResponsesFollowRequests(base, added) && NoAssistant(pending) && NoAssistant(results)
    requires Continuable(base + (added + pending))
    ensures ResponsesFollowRequests(base, added + pending + [m] + results)
  {
    var all := added + pending + [m] + results;
    forall i | 0 <= i < |all| && all[i].Assistant? ensures Continuable(base + all[..i]) {
      if i < |added| {
        assert all[..i] == added[..i];
      } else {
        assert i == |added| + |pending|;
        assert all[..i] == added + pending;
      }
    }
  }

  /** The next request can be sent, and after a failure the transcript without the failed response could be. */
  ghost predicate CanGoOn(base: seq<AgentMessage>, p: Progress)
  {
    && SameEnd(base, p) && ResponsesFollowRequests(base, Untag(p.added))
    && (forall r | 0 <= r < |p.requests| :: Continuable(p.requests[r]))
    && (if p.ended then
          Transcript(base, p) != []
          && (Failed(Last(Transcript(base, p))) ==> Continuable(Front(Transcript(base, p))))
        else
          UserSide(p) && Continuable(Transcript(base, Inject(p))))
  }

  lemma ArriveUserSide(q: Queues, arrivals: seq<Arrival>)
    requires NoAssistant(q.steering) && NoAssistant(q.followUp) && UserSends(arrivals)
    ensures NoAssistant(ArriveAll(q, arrivals).steering) && NoAssistant(ArriveAll(q, arrivals).followUp)
  {
    ArriveFacts(q, arrivals, Steering);
    ArriveFacts(q, arrivals, FollowUps);
  }

  lemma DrainUserSide(tag: Origin, drained: seq<AgentMessage>, messages: seq<AgentMessage>)
    requires drained <= messages && NoAssistant(messages)
    ensures NoAssistant(Untag(Tag(tag, drained))) && NoAssistant(messages[|drained|..])
  {
    assert Untag(Tag(tag, drained)) == drained;
    assert forall i | 0 <= i < |drained| :: drained[i] == messages[i];
  }

  lemma PollUserSide(p: Progress, arrivals: seq<Arrival>)
    requires UserSide(p) && UserSends(arrivals)
    ensures UserSide(PollSteering(p, arrivals))
  {
    var q := ArriveAll(p.queues, arrivals);
    ArriveUserSide(p.queues, arrivals);
    DrainUserSide(Steering, Drained(q.steeringMode, q.steering), q.steering);
  }

  lemma FollowUpPollUserSide(p: Progress, arrivals: seq<Arrival>)
    requires UserSide(p) && UserSends(arrivals)
    ensures UserSide(PollFollowUps(p, arrivals))
  {
    var q := ArriveAll(p.queues, arrivals);
    ArriveUserSide(p.queues, arrivals);
    DrainUserSide(FollowUps, Drained(q.followUpMode, q.followUp), q.followUp);
  }

  /** Appending the same messages to the context and to the transcript keeps their ends the same. */
  lemma SameEndGrows(base: seq<AgentMessage>, p: Progress, q: Progress, more: seq<Tagged>)
    requires SameEnd(base, p) && q.added == p.added + more && q.context == p.context + Untag(more)
    ensures SameEnd(base, q) && Transcript(base, q) == Transcript(base, p) + Untag(more)
  {
    UntagConcat(p.added, more);
    ConcatAssociative(base, Untag(p.added), Untag(more));
  }

  lemma SameEndAnswer(base: seq<AgentMessage>, p: Progress, reply: Reply)
    requires ValidStream(reply.stream) && reply.result.Assistant?
    ensures var q := Answer(p, reply);
            SameEnd(base, q) && Transcript(base, q) == Transcript(base, p) + [reply.result]
  {
    RespondFacts(p.context, reply, NO_TOOLS);
    UntagConcat(p.added, [Tagged(Model, reply.result)]);
    assert Untag([Tagged(Model, reply.result)]) == [reply.result];
    ConcatAssociative(base, Untag(p.added), [reply.result]);
  }

  lemma SameEndTurn(base: seq<AgentMessage>, p: Progress, t: TurnPlan)
    requires ValidPlan(t) && SameEnd(base, p)
    ensures var inj := Inject(p);
            && SameEnd(base, inj) && SameEnd(base, Turn(p, t))
            && Transcript(base, inj) == Transcript(base, p) + Untag(p.pending)
            && Transcript(base, Turn(p, t)) == Transcript(base, inj) + [t.reply.result] + Results(t)
  {
    var answered := Answer(Inject(p), t.reply);
    SameEndGrows(base, p, Inject(p), p.pending);
    SameEndAnswer(base, Inject(p), t.reply);
    TurnAfterAnswer(p, t);
    assert Untag(Tag(Tool, Results(t))) == Results(t);
    SameEndGrows(base, answered, Turn(p, t), Tag(Tool, Results(t)));
  }

  lemma TurnAfterAnswer(p: Progress, t: TurnPlan)
    requires ValidPlan(t)
    ensures var answered := Answer(Inject(p), t.reply);
            && Turn(p, t).added == answered.added + Tag(Tool, Results(t))
            && Turn(p, t).context == answered.context + Untag(Tag(Tool, Results(t)))
  {
    assert Untag(Tag(Tool, Results(t))) == Results(t);
    var answered := Answer(Inject(p), t.reply);
    assert Results(t) == [] ==> Tag(Tool, Results(t)) == [] && answered.added + [] == answered.added
                                && answered.context + [] == answered.context;
  }

  lemma AfterTurnCanGoOn(p: Progress, t: TurnPlan)
    requires ValidPlan(t) && !p.ended && UserSide(p) && UserSends(t.arrivals) && UserSends(t.lateArrivals)
    ensures var q := TurnStep(p, t);
            !q.ended ==> UserSide(q) && (Results(t) != [] || q.pending != [])
  {
    ResultsAnswer(t);
    var turn := Turn(p, t);
    var polled := PollSteering(turn, t.arrivals);
    TurnKeeps(p, t);
    PollUserSide(turn, t.arrivals);
    if !WantsAnotherTurn(t) && polled.pending == [] {
      FollowUpPollUserSide(polled, t.lateArrivals);
    }
  }

  lemma UntagParts(added: seq<Tagged>, pending: seq<Tagged>, m: AgentMessage, results: seq<AgentMessage>)
    ensures Untag(added + pending) == Untag(added) + Untag(pending)
    ensures Untag(added + pending + [Tagged(Model, m)] + Tag(Tool, results))
         == Untag(added) + Untag(pending) + [m] + results
  {
  }

  lemma TurnAnswers(base: seq<AgentMessage>, p: Progress, t: TurnPlan)
    requires ValidPlan(t) && UserSide(p) && ResponsesFollowRequests(base, Untag(p.added))
    requires Continuable(Transcript(base, Inject(p)))
    ensures ResponsesFollowRequests(base, Untag(Turn(p, t).added))
  {
    TurnAdds(p, t);
    UntagParts(p.added, p.pending, t.reply.result, Results(t));
    ResponsesFollowRequestsTurn(base, Untag(p.added), Untag(p.pending), t.reply.result, Results(t));
  }

  lemma CanGoOnStep(base: seq<AgentMessage>, p: Progress, t: TurnPlan)
    requires ValidPlan(t) && !p.ended && CanGoOn(base, p) && UserSends(t.arrivals) && UserSends(t.lateArrivals)
    ensures CanGoOn(base, TurnStep(p, t))
  {
    var q := TurnStep(p, t);
    SameEndStep(base, p, t);
    ResultsAreToolResults(t);
    TurnAnswers(base, p, t);
    AfterTurnCanGoOn(p, t);
    CanGoOnAfter(base, Inject(p), q, p.requests, t.reply.result, Results(t));
  }

  lemma SameEndStep(base: seq<AgentMessage>, p: Progress, t: TurnPlan)
    requires ValidPlan(t) && !p.ended && SameEnd(base, p)
    ensures var inj, q := Inject(p), TurnStep(p, t);
            && SameEnd(base, inj) && SameEnd(base, q)
            && Transcript(base, q) == Transcript(base, inj) + [t.reply.result] + Results(t)
            && q.requests == p.requests + [inj.context] && q.added == Turn(p, t).added
  {
    SameEndTurn(base, p, t);
    TurnKeeps(p, t);
    PollsKeep(p, t);
  }

  lemma ResultsAreToolResults(t: TurnPlan)
    requires ValidPlan(t)
    ensures forall i | 0 <= i < |Results(t)| :: Results(t)[i].ToolResult?
  {
    ResultsAnswer(t);
    forall i | 0 <= i < |Results(t)| ensures Results(t)[i].ToolResult? {
      assert Answers(Tagged(Tool, Results(t)[i]), ToolCalls(t.reply.result)[i]);
    }
  }

  lemma CanGoOnAfter(base: seq<AgentMessage>, inj: Progress, q: Progress, requests: seq<seq<AgentMessage>>,
                     m: AgentMessage, results: seq<AgentMessage>)
    requires SameEnd(base, inj) && SameEnd(base, q) && Continuable(Transcript(base, inj))
    requires Transcript(base, q) == Transcript(base, inj) + [m] + results
    requires ResponsesFollowRequests(base, Untag(q.added))
    requires q.requests == requests + [inj.context] && forall r | 0 <= r < |requests| :: Continuable(requests[r])
    requires forall i | 0 <= i < |results| :: results[i].ToolResult?
    requires !q.ended ==> UserSide(q) && (results != [] || q.pending != [])
    ensures CanGoOn(base, q)
  {
    assert Continuable(inj.context);
    if q.ended {
      LastOrResult(Transcript(base, inj), m, results);
    } else {
      SameEndGrows(base, q, Inject(q), q.pending);
      NextCanBeSent(Transcript(base, inj), m, results, Untag(q.pending));
    }
  }

  /** A failed last message is the response itself, and what precedes it is what was sent. */
  lemma LastOrResult(before: seq<AgentMessage>, m: AgentMessage, results: seq<AgentMessage>)
    requires Continuable(before) && forall i | 0 <= i < |results| :: results[i].ToolResult?
    ensures var all := before + [m] + results;
            all != [] && (Failed(Last(all)) ==> Continuable(Front(all)))
  {
    if results == [] {
      assert before + [m] + results == before + [m];
      FrontOfAppend(before, m);
    }
  }

  lemma NextCanBeSent(before: seq<AgentMessage>, m: AgentMessage, results: seq<AgentMessage>,
                      pending: seq<AgentMessage>)
    requires NoAssistant(results) && NoAssistant(pending) && (results != [] || pending != [])
    ensures Continuable(before + [m] + results + pending)
  {
  }

  lemma {:induction false} RunCanGoOn(base: seq<AgentMessage>, p: Progress, plan: seq<TurnPlan>)
    requires ValidPlans(plan) && CanGoOn(base, p) && !p.ended
    requires forall i | 0 <= i < |plan| :: UserSends(plan[i].arrivals) && UserSends(plan[i].lateArrivals)
    ensures CanGoOn(base, RunAll(p, plan))
  {
    if plan != [] {
      RunCanGoOn(base, p, Front(plan));
      if !RunAll(p, Front(plan)).ended {
        CanGoOnStep(base, RunAll(p, Front(plan)), Last(plan));
      }
    }
  }

  /** The user side of a run holds no assistant message, and there is something to answer. */
  ghost predicate Answerable(o: Opening)
  {
    && NoAssistant(Untag(o.prompts)) && NoAssistant(o.queues.steering) && NoAssistant(o.queues.followUp)
    && UserSends(o.arrivals) && (o.prompts != [] || Continuable(o.context))
  }

  /**
   Every request ends with a message that is not from the assistant. If the run ends on a failed response,
   the transcript without that response does so too, so `continue` can be called on it.
   */
  lemma EveryRequestCanBeSent(o: Opening, plan: seq<TurnPlan>)
    requires ValidPlans(plan) && Answerable(o)
    requires forall i | 0 <= i < |plan| :: UserSends(plan[i].arrivals) && UserSends(plan[i].lateArrivals)
    ensures var p := Run(o, plan);
            var transcript := o.context + Untag(p.added);
            && (forall r | 0 <= r < |p.requests| :: Continuable(p.requests[r]))
            && ResponsesFollowRequests(o.context, Untag(p.added))
            && (p.ended ==> transcript != [] && (Failed(Last(transcript)) ==> Continuable(Front(transcript))))
  {
    var begun := Begin(o.context, o.prompts, o.queues);
    assert UserSide(begun);
    if o.skip {
      ArriveUserSide(o.queues, o.arrivals);
    } else {
      PollUserSide(begun, o.arrivals);
    }
    SameEndGrows(o.context, Opened(o), Inject(Opened(o)), Opened(o).pending);
    RunCanGoOn(o.context, Opened(o), plan);
  }
}
