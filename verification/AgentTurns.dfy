/** Whether a run goes on after a turn, and what its requests hold, told without the loop's own functions. */
module AgentTurns {
  import opened Messages
  import opened Sequences
  import opened AgentEvents
  import opened Agents
  import opened ToolBatch
  import opened AgentLoop
  import opened AgentRuns

  // ---------------------------------------------------------------------------------------------
  // The end of a run
  // ---------------------------------------------------------------------------------------------

  /** The call asks the loop to stop: its tool says so, unless the hook after it says otherwise or throws. */
  predicate AsksToStop(plan: CallPlan)
  {
    && plan.Ready? && !plan.after.HookThrew?
    && if plan.after.Override? && plan.after.terminate.Some? then plan.after.terminate.value
       else plan.execution.Returned? && plan.execution.result.terminate
  }

  lemma StopIsAsked(calls: seq<ToolCall>, plans: seq<CallPlan>)
    requires |calls| == |plans|
    ensures ShouldTerminate(FinalizeAll(calls, plans)) <==>
            calls != [] && forall i | 0 <= i < |plans| :: AsksToStop(plans[i])
  {
    forall i | 0 <= i < |calls| ensures FinalizeAll(calls, plans)[i].result.terminate <==> AsksToStop(plans[i]) {
      assert FinalizeAll(calls, plans)[i] == Finalize(calls[i], plans[i]);
    }
  }

  lemma {:induction false} NothingArrived(arrivals: seq<Arrival>)
    ensures Arrived(arrivals, Steering) == [] <==> forall i | 0 <= i < |arrivals| :: !arrivals[i].Steer?
    ensures Arrived(arrivals, FollowUps) == [] <==> forall i | 0 <= i < |arrivals| :: !arrivals[i].FollowUp?
  {
    if arrivals != [] {
      NothingArrived(Front(arrivals));
      var n := |arrivals| - 1;
      assert forall i | 0 <= i < n :: Front(arrivals)[i] == arrivals[i];
      assert (forall i | 0 <= i < |arrivals| :: !arrivals[i].Steer?) <==>
             (forall i | 0 <= i < n :: !arrivals[i].Steer?) && !arrivals[n].Steer?;
      assert (forall i | 0 <= i < |arrivals| :: !arrivals[i].FollowUp?) <==>
             (forall i | 0 <= i < n :: !arrivals[i].FollowUp?) && !arrivals[n].FollowUp?;
    }
  }

  /** Nothing is waiting in the queue, and nothing of its kind arrives. */
  predicate NoSteering(q: Queues, arrivals: seq<Arrival>)
  {
    q.steering == [] && forall i | 0 <= i < |arrivals| :: !arrivals[i].Steer?
  }

  predicate NoFollowUps(q: Queues, arrivals: seq<Arrival>)
  {
    q.followUp == [] && forall i | 0 <= i < |arrivals| :: !arrivals[i].FollowUp?
  }

  /**
   A turn ends the run exactly if its response failed, or the caller stops it, or every tool call asks to stop (as
   when there is none), no steering message is there when the turn is over, and no follow-up is there after that.
   */
  lemma RunEndsWhen(p: Progress, t: TurnPlan)
    requires ValidPlan(t) && !p.ended
    ensures TurnStep(p, t).ended <==>
            || t.reply.result.stopReason == Error || t.reply.result.stopReason == Aborted || t.stop
            || ((forall i | 0 <= i < |t.plans| :: AsksToStop(t.plans[i]))
                && NoSteering(p.queues, t.arrivals) && NoFollowUps(p.queues, t.arrivals + t.lateArrivals))
  {
    StepEnds(p, t);
    StopIsAsked(ToolCalls(t.reply.result), t.plans);
    NothingWaits(p.queues, t.arrivals);
    NothingWaits(p.queues, t.arrivals + t.lateArrivals);
  }

  lemma NothingWaits(q: Queues, arrivals: seq<Arrival>)
    ensures q.steering + Arrived(arrivals, Steering) == [] <==> NoSteering(q, arrivals)
    ensures q.followUp + Arrived(arrivals, FollowUps) == [] <==> NoFollowUps(q, arrivals)
  {
    NothingArrived(arrivals);
  }

  lemma StepEnds(p: Progress, t: TurnPlan)
    requires ValidPlan(t) && !p.ended
    ensures TurnStep(p, t).ended <==>
            || Failed(t.reply.result) || t.stop
            || (!WantsAnotherTurn(t) && p.queues.steering + Arrived(t.arrivals, Steering) == []
                && p.queues.followUp + Arrived(t.arrivals + t.lateArrivals, FollowUps) == [])
  {
    TurnKeeps(p, t);
    PolledSteering(Turn(p, t), t.arrivals);
    PolledFollowUps(PollSteering(Turn(p, t), t.arrivals), t.lateArrivals);
    ArrivedConcat(t.arrivals, t.lateArrivals, FollowUps);
  }

  /** What a poll injects, and what it leaves in the queues. */
  lemma PolledSteering(p: Progress, arrivals: seq<Arrival>)
    ensures var q := PollSteering(p, arrivals);
            var waiting := p.queues.steering + Arrived(arrivals, Steering);
            && (q.pending == [] <==> waiting == [])
            && q.pending == Tag(Steering, TakenFrom(ArriveAll(p.queues, arrivals).steeringMode, waiting))
            && q.queues.steering == LeftIn(ArriveAll(p.queues, arrivals).steeringMode, waiting)
            && q.queues.followUp == p.queues.followUp + Arrived(arrivals, FollowUps)
            && q.ended == p.ended
  {
    ArriveFacts(p.queues, arrivals, Steering);
    ArriveFacts(p.queues, arrivals, FollowUps);
  }

  lemma PolledFollowUps(p: Progress, arrivals: seq<Arrival>)
    ensures var q := PollFollowUps(p, arrivals);
            var waiting := p.queues.followUp + Arrived(arrivals, FollowUps);
            && (q.pending == [] <==> waiting == [])
            && q.pending == Tag(FollowUps, TakenFrom(ArriveAll(p.queues, arrivals).followUpMode, waiting))
            && q.queues.followUp == LeftIn(ArriveAll(p.queues, arrivals).followUpMode, waiting)
            && q.queues.steering == p.queues.steering + Arrived(arrivals, Steering)
            && q.ended == (p.ended || waiting == [])
  {
    ArriveFacts(p.queues, arrivals, Steering);
    ArriveFacts(p.queues, arrivals, FollowUps);
  }

  /** A poll takes the whole queue, or one message of it. */
  function TakenFrom(mode: QueueMode, waiting: seq<AgentMessage>): seq<AgentMessage>
  {
    match mode
    case All => waiting
    case OneAtATime => if waiting == [] then [] else [waiting[0]]
  }

  function LeftIn(mode: QueueMode, waiting: seq<AgentMessage>): seq<AgentMessage>
  {
    match mode
    case All => []
    case OneAtATime => if waiting == [] then [] else waiting[1..]
  }

  lemma {:induction false} LastModeSet(q: Queues, arrivals: seq<Arrival>, k: nat)
    requires k < |arrivals|
    ensures arrivals[k].SetSteeringMode? && (forall i | k < i < |arrivals| :: !arrivals[i].SetSteeringMode?) ==>
              ArriveAll(q, arrivals).steeringMode == arrivals[k].mode
    ensures arrivals[k].SetFollowUpMode? && (forall i | k < i < |arrivals| :: !arrivals[i].SetFollowUpMode?) ==>
              ArriveAll(q, arrivals).followUpMode == arrivals[k].mode
  {
    if k < |arrivals| - 1 {
      LastModeSet(q, Front(arrivals), k);
      assert forall i | k < i < |arrivals| - 1 :: Front(arrivals)[i] == arrivals[i];
    }
  }

  lemma {:induction false} ModesStay(q: Queues, arrivals: seq<Arrival>)
    ensures (forall i | 0 <= i < |arrivals| :: !arrivals[i].SetSteeringMode?) ==>
              ArriveAll(q, arrivals).steeringMode == q.steeringMode
    ensures (forall i | 0 <= i < |arrivals| :: !arrivals[i].SetFollowUpMode?) ==>
              ArriveAll(q, arrivals).followUpMode == q.followUpMode
  {
    if arrivals != [] {
      ModesStay(q, Front(arrivals));
      assert forall i | 0 <= i < |arrivals| - 1 :: Front(arrivals)[i] == arrivals[i];
    }
  }

  lemma {:induction false} ModesOn(q: Queues, r: Queues, a: seq<Arrival>, b: seq<Arrival>)
    requires r.followUpMode == ArriveAll(q, a).followUpMode
    ensures ArriveAll(r, b).followUpMode == ArriveAll(q, a + b).followUpMode
  {
    if b == [] {
      assert a + b == a;
    } else {
      FrontOfConcat(a, b);
      ModesOn(q, r, a, Front(b));
    }
  }

  /**
   What a run that goes on injects before its next response: steering messages if there are any, nothing if a tool
   call wants its result answered, and else follow-ups; all of them, or one, as the mode of the queue has it then.
   */
  lemma InjectedNext(p: Progress, t: TurnPlan)
    requires ValidPlan(t) && !p.ended && !TurnStep(p, t).ended
    ensures var steering := p.queues.steering + Arrived(t.arrivals, Steering);
            var followUps := p.queues.followUp + Arrived(t.arrivals + t.lateArrivals, FollowUps);
            TurnStep(p, t).pending
            == if steering != [] then
                 Tag(Steering, TakenFrom(ArriveAll(p.queues, t.arrivals).steeringMode, steering))
               else if exists i :: 0 <= i < |t.plans| && !AsksToStop(t.plans[i]) then []
               else Tag(FollowUps, TakenFrom(ArriveAll(p.queues, t.arrivals + t.lateArrivals).followUpMode, followUps))
  {
    var turn := Turn(p, t);
    var polled := PollSteering(turn, t.arrivals);
    TurnKeeps(p, t);
    StopIsAsked(ToolCalls(t.reply.result), t.plans);
    PolledSteering(turn, t.arrivals);
    PolledFollowUps(polled, t.lateArrivals);
    ArrivedConcat(t.arrivals, t.lateArrivals, FollowUps);
    ModesOn(p.queues, polled.queues, t.arrivals, t.lateArrivals);
    ConcatAssociative(p.queues.followUp, Arrived(t.arrivals, FollowUps), Arrived(t.lateArrivals, FollowUps));
  }

  // ---------------------------------------------------------------------------------------------
  // The requests of a run
  // ---------------------------------------------------------------------------------------------

  /** As long as a run is not over, each further turn makes one more request. */
  lemma {:induction false} OneRequestATurn(p: Progress, plan: seq<TurnPlan>)
    requires ValidPlans(plan) && !p.ended && (plan != [] ==> !RunAll(p, Front(plan)).ended)
    ensures |RunAll(p, plan).requests| == |p.requests| + |plan|
  {
    if plan != [] {
      var before := RunAll(p, Front(plan));
      if |plan| > 1 {
        if RunAll(p, Front(Front(plan))).ended { assert false; }
      }
      OneRequestATurn(p, Front(plan));
      PollsKeep(before, Last(plan));
      TurnKeeps(before, Last(plan));
    }
  }

  /** The first request: the transcript, the prompts, and what is polled before the first turn. */
  lemma FirstRequest(o: Opening, t: TurnPlan)
    requires ValidPlan(t)
    ensures var waiting := o.queues.steering + Arrived(o.arrivals, Steering);
            var polled := TakenFrom(ArriveAll(o.queues, o.arrivals).steeringMode, waiting);
            Run(o, [t]).requests == [o.context + Untag(o.prompts) + if o.skip then [] else polled]
  {
    var begun := Begin(o.context, o.prompts, o.queues);
    var p := Opened(o);
    assert Front([t]) == [] && RunAll(p, []) == p;
    PolledSteering(begun, o.arrivals);
    PollsKeep(p, t);
    TurnKeeps(p, t);
    assert forall tag, ms: seq<AgentMessage> :: Untag(Tag(tag, ms)) == ms;
    assert begun.context + Untag([]) == begun.context + [];
  }

  /**
   The request after a turn: the request of that turn, the stale partials of its stream, its response, a result
   for each of its tool calls in order, and what is injected.
   */
  lemma NextRequest(o: Opening, plan: seq<TurnPlan>, t: TurnPlan, u: TurnPlan)
    returns (before: seq<AgentMessage>, results: seq<AgentMessage>)
    requires ValidPlans(plan) && ValidPlan(t) && ValidPlan(u) && !Run(o, plan + [t]).ended
    ensures var requests := Run(o, plan + [t] + [u]).requests;
            && |requests| == |plan| + 2
            && requests[|plan|] <= before && |before| == |requests[|plan|]| + Surplus(t.reply)
            && requests[|plan| + 1] == before + [t.reply.result] + results + Untag(Run(o, plan + [t]).pending)
    ensures |results| == |ToolCalls(t.reply.result)|
    ensures forall i | 0 <= i < |results| :: Tells(ToolCalls(t.reply.result)[i], t.plans[i], results[i])
  {
    var q, r := Run(o, plan), Run(o, plan + [t]);
    FrontOfAppend(plan, t);
    FrontOfAppend(plan + [t], u);
    if q.ended { assert false; }
    OneRequestATurn(Opened(o), plan + [t]);
    before, results := ContextAfterTurn(q, t);
    PollsKeep(r, u);
    TurnKeeps(r, u);
  }

  lemma ContextAfterTurn(p: Progress, t: TurnPlan) returns (before: seq<AgentMessage>, results: seq<AgentMessage>)
    requires ValidPlan(t) && !p.ended && !TurnStep(p, t).ended
    ensures var q := TurnStep(p, t);
            && q.requests == p.requests + [p.context + Untag(p.pending)]
            && p.context + Untag(p.pending) <= before
            && |before| == |p.context + Untag(p.pending)| + Surplus(t.reply)
            && q.context == before + [t.reply.result] + results
    ensures |results| == |ToolCalls(t.reply.result)|
    ensures forall i | 0 <= i < |results| :: Tells(ToolCalls(t.reply.result)[i], t.plans[i], results[i])
  {
    var request := Inject(p).context;
    PollsKeep(p, t);
    TurnKeeps(p, t);
    RespondFacts(request, t.reply, NO_TOOLS);
    TurnAfterAnswer(p, t);
    ResultsTell(ToolCalls(t.reply.result), t.plans);
    results := Results(t);
    assert Untag(Tag(Tool, results)) == results;
    before := Front(Respond(request, t.reply).context);
    SplitLast(Respond(request, t.reply).context);
  }

  // ---------------------------------------------------------------------------------------------
  // How turns end
  // ---------------------------------------------------------------------------------------------

  /**
   Each turn ends with an event that holds its response and exactly the results that have just been delivered;
   only the end of the run can follow it.
   */
  lemma EachTurnEnds(o: Opening, plan: seq<TurnPlan>, t: TurnPlan)
    returns (before: seq<Event>, earlier: seq<AgentMessage>, results: seq<AgentMessage>)
    requires ValidPlans(plan) && ValidPlan(t) && !Run(o, plan).ended
    ensures var q := Run(o, plan + [t]);
            q.events == before + [TurnEnd(t.reply.result, results)] + if q.ended then [AgentEnd(Untag(q.added))] else []
    ensures Delivered(before) == earlier + [t.reply.result] + results
    ensures if Failed(t.reply.result) then results == []
            else
              && |results| == |ToolCalls(t.reply.result)|
              && forall i | 0 <= i < |results| :: Tells(ToolCalls(t.reply.result)[i], t.plans[i], results[i])
  {
    var p := Run(o, plan);
    FrontOfAppend(plan, t);
    OpenedSound(o);
    RunSound(Opened(o), plan, o.context);
    StepEvents(p, t);
    before := TurnDelivers(p, t, o.context, Extra(Opened(o), plan));
    results, earlier := Results(t), Untag(p.added) + Untag(p.pending);
    ResultsTell(ToolCalls(t.reply.result), t.plans);
  }

  lemma TurnDelivers(p: Progress, t: TurnPlan, base: seq<AgentMessage>, extra: nat) returns (before: seq<Event>)
    requires ValidPlan(t) && !p.ended && Sound(p, base, extra, Standing(p))
    ensures Turn(p, t).events == before + [TurnEnd(t.reply.result, Results(t))]
    ensures Delivered(before) == Untag(p.added) + Untag(p.pending) + [t.reply.result] + Results(t)
  {
    TurnSound(p, t, base, extra);
    TurnAdds(p, t);
    UntagParts(p.added, p.pending, t.reply.result, Results(t));
    TurnCloses(p, t);
    before := Front(Turn(p, t).events);
    SplitLast(Turn(p, t).events);
    FrontOfAppend(before, TurnEnd(t.reply.result, Results(t)));
  }

  lemma StepEvents(p: Progress, t: TurnPlan)
    requires ValidPlan(t) && !p.ended
    ensures var q := TurnStep(p, t);
            q.events == Turn(p, t).events + if q.ended then [AgentEnd(Untag(q.added))] else []
  {
    var q, turn := TurnStep(p, t), Turn(p, t);
    PollsKeep(p, t);
    if !q.ended {
      PollEvents(turn, t.arrivals, t.lateArrivals);
      assert turn.events + [] == turn.events;
    }
  }

  lemma PollEvents(p: Progress, arrivals: seq<Arrival>, late: seq<Arrival>)
    ensures var polled := PollSteering(p, arrivals);
            && polled.events == p.events
            && (!PollFollowUps(polled, late).ended ==> PollFollowUps(polled, late).events == p.events)
  {
    PollKeeps(p, arrivals);
    PollKeeps(PollSteering(p, arrivals), late);
  }

  lemma TurnCloses(p: Progress, t: TurnPlan)
    requires ValidPlan(t)
    ensures Turn(p, t).events != [] && Last(Turn(p, t).events) == TurnEnd(t.reply.result, Results(t))
  {
    var answered := Answer(Inject(p), t.reply);
    if Failed(t.reply.result) {
      FrontOfAppend(answered.events, TurnEnd(t.reply.result, []));
    } else {
      FrontOfAppend(Act(answered, t).events, TurnEnd(t.reply.result, Results(t)));
    }
  }

  /** After a run's last turn the agent shows the error of its response, if it has one. */
  lemma ErrorIsShown(o: Opening, plan: seq<TurnPlan>, t: TurnPlan, st: AgentState)
    requires ValidPlans(plan) && ValidPlan(t) && !Run(o, plan).ended && t.reply.result.errorMessage != ""
    ensures ReduceAll(st, Run(o, plan + [t]).events).error == Some(t.reply.result.errorMessage)
  {
    var before, _, results := EachTurnEnds(o, plan, t);
    var q := Run(o, plan + [t]);
    ErrorReduced(st, q.events, before, t.reply.result, results, if q.ended then [AgentEnd(Untag(q.added))] else []);
  }

  lemma ErrorReduced(st: AgentState, events: seq<Event>, before: seq<Event>, m: AgentMessage,
                     results: seq<AgentMessage>, end: seq<Event>)
    requires events == before + [TurnEnd(m, results)] + end && (end == [] || (|end| == 1 && end[0].AgentEnd?))
    requires m.Assistant? && m.errorMessage != ""
    ensures ReduceAll(st, events).error == Some(m.errorMessage)
  {
    var ended := before + [TurnEnd(m, results)];
    FrontOfAppend(before, TurnEnd(m, results));
    if end == [] {
      assert events == ended;
    } else {
      FrontOfAppend(ended, end[0]);
      assert events == ended + [end[0]];
    }
  }
}
