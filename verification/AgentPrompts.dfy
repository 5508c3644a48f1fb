/** Starting and continuing runs of an agent, from the outside. */
module AgentPrompts {
  import opened Messages
  import opened Sequences
  import opened AgentEvents
  import opened Agents
  import opened ToolBatch
  import opened AgentLoop
  import opened AgentRuns
  import opened AgentTurns

  datatype CallError = AlreadyProcessing | NoMessages | EndsWithAssistant

  /** How `continue` opens: with queued messages if the assistant spoke last, else with nothing new. */
  function Continuation(messages: seq<AgentMessage>, q: Queues, arrivals: seq<Arrival>): Result<Opening, CallError>
  {
    var steering, followUps := Drained(q.steeringMode, q.steering), Drained(q.followUpMode, q.followUp);
    if messages == [] then Err(NoMessages)
    else if !Last(messages).Assistant? then Ok(Opening(messages, [], q, false, arrivals))
    else if steering != [] then
      Ok(Opening(messages, Tag(Steering, steering), q.(steering := q.steering[|steering|..]), true, arrivals))
    else if followUps != [] then
      Ok(Opening(messages, Tag(FollowUps, followUps), q.(followUp := q.followUp[|followUps|..]), false, arrivals))
    else Err(EndsWithAssistant)
  }

  function Started(st: AgentState): AgentState
  {
    st.(streaming := None, error := None)
  }

  function Settled(st: AgentState): AgentState
  {
    st.(streaming := None, pending := {})
  }

  /** The agent's state and queues once a run has come as far as the plan goes. */
  ghost function After(st: AgentState, o: Opening, plan: seq<TurnPlan>): (AgentState, Queues, seq<Event>)
    requires ValidPlans(plan)
  {
    var p := Run(o, plan);
    var q := if p.ended then p else Inject(p);
    var reduced := ReduceAll(Started(st), q.events);
    (if p.ended then Settled(reduced) else reduced, q.queues, q.events)
  }

  /** A run without listeners that throw. It returns whether the run is over. */
  method RunPromptMessages(agent: Agent, prompts: seq<AgentMessage>, skip: bool, arrivals: seq<Arrival>,
                           plan: seq<TurnPlan>, ghost o: Opening)
    returns (ended: bool)
    requires agent.Valid() && !agent.activeRun && ValidPlans(plan)
    requires o == Opening(agent.messages, o.prompts, agent.Queued(), skip, arrivals) && Untag(o.prompts) == prompts
    modifies agent, agent.steeringQueue, agent.followUpQueue
    ensures ended == Run(o, plan).ended && agent.activeRun == !ended
    ensures agent.State() == After(old(agent.State()), o, plan).0
    ensures agent.Queued() == After(old(agent.State()), o, plan).1
    ensures agent.trace == old(agent.trace) + After(old(agent.State()), o, plan).2
  {
    agent.activeRun := true;
    agent.streamingMessage, agent.errorMessage := None, None;
    ghost var base := Base(agent.trace, agent.State(), true);
    var run := new LoopRun(agent, agent.messages + prompts, prompts);
    assert agent.trace + [] == agent.trace;
    Open(run, prompts, base);
    ghost var begun := Begin(o.context, o.prompts, o.queues);
    assert run.At(base, begun);
    ended := run.RunLoop(skip, arrivals, plan, base, begun);
    if ended {
      FinishRun(agent);
    }
  }

  method Open(run: LoopRun, prompts: seq<AgentMessage>, ghost base: Base)
    requires Follows(run.agent, base, [])
    modifies run.agent
    ensures Follows(run.agent, base, [AgentStart, TurnStart] + Bracketed(prompts))
  {
    Emit(run.agent, AgentStart, base, []);
    Emit(run.agent, TurnStart, base, [] + [AgentStart]);
    assert [] + [AgentStart] + [TurnStart] == [AgentStart, TurnStart];
    run.EmitAll(prompts, base, [AgentStart, TurnStart]);
  }

  method FinishRun(agent: Agent)
    modifies agent`streamingMessage, agent`pendingToolCalls, agent`activeRun
    ensures agent.State() == Settled(old(agent.State())) && !agent.activeRun
  {
    agent.streamingMessage := None;
    agent.pendingToolCalls := {};
    agent.activeRun := false;
  }

  method Prompt(agent: Agent, messages: seq<AgentMessage>, arrivals: seq<Arrival>, plan: seq<TurnPlan>)
    returns (outcome: Result<bool, CallError>)
    requires agent.Valid() && ValidPlans(plan)
    modifies agent, agent.steeringQueue, agent.followUpQueue
    ensures old(agent.activeRun) ==> outcome == Err(AlreadyProcessing) && agent.activeRun
                                     && agent.State() == old(agent.State()) && agent.Queued() == old(agent.Queued())
    ensures !old(agent.activeRun) ==>
              var o := Opening(old(agent.messages), Tag(Origin.Prompt, messages), old(agent.Queued()), false, arrivals);
              var after := After(old(agent.State()), o, plan);
              && outcome == Ok(Run(o, plan).ended) && agent.activeRun == !Run(o, plan).ended
              && agent.State() == after.0 && agent.Queued() == after.1
  {
    if agent.activeRun {
      return Err(AlreadyProcessing);
    }
    ghost var o := Opening(agent.messages, Tag(Origin.Prompt, messages), agent.Queued(), false, arrivals);
    assert Untag(o.prompts) == messages;
    var ended := RunPromptMessages(agent, messages, false, arrivals, plan, o);
    outcome := Ok(ended);
  }

  method Continue(agent: Agent, arrivals: seq<Arrival>, plan: seq<TurnPlan>) returns (outcome: Result<bool, CallError>)
    requires agent.Valid() && ValidPlans(plan)
    modifies agent, agent.steeringQueue, agent.followUpQueue
    ensures var opening := Continuation(old(agent.messages), old(agent.Queued()), arrivals);
            if old(agent.activeRun) || opening.Err? then
              && outcome == Err(if old(agent.activeRun) then AlreadyProcessing else opening.error)
              && agent.State() == old(agent.State()) && agent.Queued() == old(agent.Queued())
              && agent.activeRun == old(agent.activeRun)
            else
              var o := opening.value;
              var after := After(old(agent.State()), o, plan);
              && outcome == Ok(Run(o, plan).ended) && agent.activeRun == !Run(o, plan).ended
              && agent.State() == after.0 && agent.Queued() == after.1
  {
    if agent.activeRun {
      return Err(AlreadyProcessing);
    }
    if |agent.messages| == 0 {
      return Err(NoMessages);
    }
    ghost var opening := Continuation(agent.messages, agent.Queued(), arrivals);
    var ended: bool;
    if agent.messages[|agent.messages| - 1].Assistant? {
      var steering := agent.steeringQueue.Drain();
      if |steering| > 0 {
        assert Untag(Tag(Steering, steering)) == steering;
        ended := RunPromptMessages(agent, steering, true, arrivals, plan, opening.value);
        return Ok(ended);
      }
      var followUps := agent.followUpQueue.Drain();
      if |followUps| > 0 {
        assert Untag(Tag(FollowUps, followUps)) == followUps;
        ended := RunPromptMessages(agent, followUps, false, arrivals, plan, opening.value);
        return Ok(ended);
      }
      return Err(EndsWithAssistant);
    }
    ended := RunPromptMessages(agent, [], false, arrivals, plan, opening.value);
    return Ok(ended);
  }

  /** After a run, the agent's transcript is what it was and the new messages; nothing is streaming or pending. */
  lemma AfterARun(st: AgentState, o: Opening, plan: seq<TurnPlan>)
    requires ValidPlans(plan) && o.context == st.messages && Run(o, plan).ended
    ensures var after := After(st, o, plan).0;
            && after.messages == st.messages + Untag(Run(o, plan).added)
            && after.streaming == None && after.pending == {}
  {
    TranscriptsAgree(o, plan, Started(st));
  }

  /** A run clears the error of an earlier one: afterwards the agent shows one only if a turn of it reported it. */
  lemma EarlierErrorIsCleared(st: AgentState, o: Opening, plan: seq<TurnPlan>)
    requires ValidPlans(plan)
    ensures var (after, _, events) := After(st, o, plan);
            (forall i | 0 <= i < |events| :: !ReportsError(events[i])) ==> after.error == None
  {
    var events := After(st, o, plan).2;
    if forall i | 0 <= i < |events| :: !ReportsError(events[i]) {
      ErrorIsLast(Started(st), events, 0);
    }
  }

  /**
   What `continue` sends first. If the assistant spoke last: queued steering messages, without a further poll, or
   else queued follow-ups, as the modes have it, and an error if there are none; otherwise the transcript as it is.
   A steering poll follows in the last two cases.
   */
  function SentFirst(messages: seq<AgentMessage>, q: Queues, arrivals: seq<Arrival>)
    : Result<seq<AgentMessage>, CallError>
  {
    var mode, arrived := ArriveAll(q, arrivals).steeringMode, Arrived(arrivals, Steering);
    if messages == [] then Err(NoMessages)
    else if !Last(messages).Assistant? then Ok(messages + TakenFrom(mode, q.steering + arrived))
    else if q.steering != [] then Ok(messages + TakenFrom(q.steeringMode, q.steering))
    else if q.followUp != [] then Ok(messages + TakenFrom(q.followUpMode, q.followUp) + TakenFrom(mode, arrived))
    else Err(EndsWithAssistant)
  }

  lemma ContinueSendsFirst(messages: seq<AgentMessage>, q: Queues, arrivals: seq<Arrival>, t: TurnPlan)
    requires ValidPlan(t)
    ensures match SentFirst(messages, q, arrivals)
            case Err(e) => Continuation(messages, q, arrivals) == Err(e)
            case Ok(request) =>
              && Continuation(messages, q, arrivals).Ok?
              && Run(Continuation(messages, q, arrivals).value, [t]).requests == [request]
  {
    if Continuation(messages, q, arrivals).Ok? {
      FirstRequest(Continuation(messages, q, arrivals).value, t);
      ContinuationOpens(messages, q, arrivals);
    }
  }

  lemma ContinuationOpens(messages: seq<AgentMessage>, q: Queues, arrivals: seq<Arrival>)
    requires Continuation(messages, q, arrivals).Ok?
    ensures var o := Continuation(messages, q, arrivals).value;
            var waiting := o.queues.steering + Arrived(o.arrivals, Steering);
            var polled := TakenFrom(ArriveAll(o.queues, o.arrivals).steeringMode, waiting);
            SentFirst(messages, q, arrivals) == Ok(o.context + Untag(o.prompts) + if o.skip then [] else polled)
  {
    var o := Continuation(messages, q, arrivals).value;
    DrainedIsTaken(q.steeringMode, q.steering);
    DrainedIsTaken(q.followUpMode, q.followUp);
    UntagOpening(o.prompts, Drained(q.steeringMode, q.steering), Drained(q.followUpMode, q.followUp));
    SameMode(q, o.queues, arrivals);
    assert messages + [] == messages && [] + Arrived(arrivals, Steering) == Arrived(arrivals, Steering);
    assert messages + Untag(o.prompts) + [] == messages + Untag(o.prompts);
  }

  lemma DrainedIsTaken(mode: QueueMode, messages: seq<AgentMessage>)
    ensures Drained(mode, messages) == TakenFrom(mode, messages)
  {
  }

  lemma UntagOpening(prompts: seq<Tagged>, steering: seq<AgentMessage>, followUps: seq<AgentMessage>)
    ensures prompts == Tag(Steering, steering) ==> Untag(prompts) == steering
    ensures prompts == Tag(FollowUps, followUps) ==> Untag(prompts) == followUps
  {
  }

  lemma {:induction false} SameMode(q: Queues, r: Queues, arrivals: seq<Arrival>)
    requires q.steeringMode == r.steeringMode
    ensures ArriveAll(q, arrivals).steeringMode == ArriveAll(r, arrivals).steeringMode
  {
    if arrivals != [] {
      SameMode(q, r, Front(arrivals));
    }
  }

  /** `continue` loses nothing from the queues either, although it may drain one of them itself. */
  lemma ContinueConservesQueues(messages: seq<AgentMessage>, q: Queues, arrivals: seq<Arrival>, plan: seq<TurnPlan>,
                                origin: Origin)
    requires ValidPlans(plan) && Queueing(origin) && Continuation(messages, q, arrivals).Ok?
    requires Run(Continuation(messages, q, arrivals).value, plan).ended
    ensures var o := Continuation(messages, q, arrivals).value;
            var p := Run(o, plan);
            Queue(q, origin) + Arrived(arrivals + TakenAll(Opened(o), plan), origin)
            == Of(origin, p.added) + Queue(p.queues, origin)
  {
    QueuesAtTheEnd(Continuation(messages, q, arrivals).value, plan, origin);
    ContinuationKeepsQueue(messages, q, arrivals, origin);
  }

  lemma ContinuationKeepsQueue(messages: seq<AgentMessage>, q: Queues, arrivals: seq<Arrival>, origin: Origin)
    requires Queueing(origin) && Continuation(messages, q, arrivals).Ok?
    ensures var o := Continuation(messages, q, arrivals).value;
            o.arrivals == arrivals && Queue(q, origin) == Of(origin, o.prompts) + Queue(o.queues, origin)
  {
    var steering, followUps := Drained(q.steeringMode, q.steering), Drained(q.followUpMode, q.followUp);
    OfTag(origin, Steering, steering);
    OfTag(origin, FollowUps, followUps);
    SplitPrefix(q.steering, steering);
    SplitPrefix(q.followUp, followUps);
    assert [] + Queue(q, origin) == Queue(q, origin);
  }

  lemma SplitPrefix<T>(s: seq<T>, prefix: seq<T>)
    requires prefix <= s
    ensures s == prefix + s[|prefix|..]
  {
  }

  /**
   A run that ended on a failed response: once that response is dropped from the transcript, `continue`
   takes its continuation path, and never reports an error or drains a queue.
   */
  lemma ContinueAfterFailure(st: AgentState, o: Opening, plan: seq<TurnPlan>, arrivals: seq<Arrival>)
    requires ValidPlans(plan) && o.context == st.messages && Run(o, plan).ended && Answerable(o)
    requires forall i | 0 <= i < |plan| :: UserSends(plan[i].arrivals) && UserSends(plan[i].lateArrivals)
    ensures var (after, q, _) := After(st, o, plan);
            && after.messages != []
            && (Failed(Last(after.messages)) ==>
                  Continuation(Front(after.messages), q, arrivals)
                  == Ok(Opening(Front(after.messages), [], q, false, arrivals)))
  {
    AfterARun(st, o, plan);
    EveryRequestCanBeSent(o, plan);
  }
}
