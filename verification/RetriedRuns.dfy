/** The runs of the agent loop are runs that the retry machine can follow. */
module RetriedRuns {
  import opened Messages
  import opened Sequences
  import opened Agents
  import opened AgentLoop
  import opened AgentRuns
  import AgentPrompts
  import R = RetryMachine

  ghost predicate UserSideOnly(plan: seq<TurnPlan>)
  {
    forall i | 0 <= i < |plan| :: UserSends(plan[i].arrivals) && UserSends(plan[i].lateArrivals)
  }

  /** A run does not end without a response. */
  lemma {:induction false} EndedRunHasResponse(p: Progress, plan: seq<TurnPlan>)
    requires ValidPlans(plan) && !p.ended && RunAll(p, plan).ended
    ensures R.LastAssistant(Untag(RunAll(p, plan).added)).Some?
  {
    if plan != [] {
      var before := RunAll(p, Front(plan));
      if before.ended {
        EndedRunHasResponse(p, Front(plan));
      } else {
        TurnAdds(before, Last(plan));
        PollsKeep(before, Last(plan));
        UntagParts(before.added, before.pending, Last(plan).reply.result, Results(Last(plan)));
        FindsAssistant(Untag(before.added) + Untag(before.pending), Last(plan).reply.result, Results(Last(plan)));
      }
    }
  }

  lemma {:induction false} FindsAssistant(before: seq<AgentMessage>, m: AgentMessage, after: seq<AgentMessage>)
    requires m.Assistant?
    ensures R.LastAssistant(before + [m] + after).Some?
  {
    if after == [] {
      assert before + [m] + after == before + [m];
      FrontOfAppend(before, m);
    } else {
      FrontOfConcat(before + [m], after);
      FindsAssistant(before, m, Front(after));
    }
  }

  /**
   Whatever the session's handlers and timers have done since the run began: each message of the run can be
   emitted when it is its turn, and the run's end once all of them have been.
   */
  lemma RunMessagesArePossible(o: Opening, plan: seq<TurnPlan>, s: R.State, k: nat)
    requires ValidPlans(plan) && Answerable(o) && UserSideOnly(plan) && k <= |Run(o, plan).added|
    requires s.run == Some(R.Running(o.context, Untag(Run(o, plan).added)[..k], false))
    ensures k < |Run(o, plan).added| ==> R.Possible(s, R.EmitMessageEnd(Untag(Run(o, plan).added)[k]))
    ensures k == |Run(o, plan).added| && Run(o, plan).ended ==> R.Possible(s, R.EmitAgentEnd)
  {
    EveryRequestCanBeSent(o, plan);
    var added := Untag(Run(o, plan).added);
    if k == |added| && Run(o, plan).ended {
      assert added[..k] == added;
      EndedRunHasResponse(Opened(o), plan);
    }
  }

  /** The session's view of a run, nothing else happening: its start, its messages and its end. */
  function Emitted(added: seq<AgentMessage>): seq<R.Action>
  {
    if added == [] then [R.StartRun] else Emitted(Front(added)) + [R.EmitMessageEnd(Last(added))]
  }

  lemma {:induction false} MessagesCanBeFollowed(
    c: R.Config, s: R.State, start: seq<AgentMessage>, added: seq<AgentMessage>)
    requires ResponsesFollowRequests(start, added) && s.run.None? && s.messages == start
    ensures var h := R.After(c, s, Emitted(added));
            && h.Some? && h.value.state.run == Some(R.Running(start, added, false))
            && h.value.state.messages == start + added
  {
    if added == [] {
      assert Front([R.StartRun]) == [] && start + [] == start;
    } else {
      assert forall i | 0 <= i < |Front(added)| :: Front(added)[..i] == added[..i];
      MessagesCanBeFollowed(c, s, start, Front(added));
      SplitLast(added);
      assert added[..|added| - 1] == Front(added);
      OneMoreMessage(c, s, Emitted(Front(added)), start, Front(added), Last(added));
    }
  }

  lemma OneMoreMessage(c: R.Config, s: R.State, actions: seq<R.Action>, start: seq<AgentMessage>,
                       added: seq<AgentMessage>, m: AgentMessage)
    requires R.After(c, s, actions).Some?
    requires var t := R.After(c, s, actions).value.state;
             && t.run == Some(R.Running(start, added, false)) && t.messages == start + added
             && R.Possible(t, R.EmitMessageEnd(m))
    ensures var h := R.After(c, s, actions + [R.EmitMessageEnd(m)]);
            && h.Some? && h.value.state.run == Some(R.Running(start, added + [m], false))
            && h.value.state.messages == start + (added + [m])
  {
    FrontOfAppend(actions, R.EmitMessageEnd(m));
    ConcatAssociative(start, added, [m]);
  }

  /** From a session at rest, the events of any run of the agent loop are possible one after the other, to its end. */
  lemma RunIsAHistory(c: R.Config, s: R.State, o: Opening, plan: seq<TurnPlan>)
    requires ValidPlans(plan) && Answerable(o) && UserSideOnly(plan) && Run(o, plan).ended
    requires s.run.None? && s.messages == o.context
    ensures var added := Untag(Run(o, plan).added);
            var h := R.After(c, s, Emitted(added) + [R.EmitAgentEnd]);
            && h.Some? && h.value.state.messages == o.context + added
            && h.value.state.run == Some(R.Running(o.context, added, true))
  {
    var added := Untag(Run(o, plan).added);
    assert added[..|added|] == added;
    EveryRequestCanBeSent(o, plan);
    MessagesCanBeFollowed(c, s, o.context, added);
    RunMessagesArePossible(o, plan, R.After(c, s, Emitted(added)).value.state, |added|);
    FrontOfAppend(Emitted(added), R.EmitAgentEnd);
  }

  /**
   The machine's timer does what the agent's `continue` does: with no run active it starts a run exactly if
   `continue` finds something to send, from the transcript as it is.
   */
  lemma TimerIsContinue(c: R.Config, s: R.State, q: Queues, arrivals: seq<Arrival>)
    requires s.scheduled > 0
    ensures var drains := q.steering != [] || q.followUp != [];
            var t := R.Step(c, s, R.FireContinue(drains));
            && (s.run.Some? ==> t.run == s.run)
            && (s.run.None? ==>
                  if AgentPrompts.Continuation(s.messages, q, arrivals).Ok?
                  then t.run == Some(R.Running(s.messages, [], false)) else t.run == None)
            && t.scheduled == s.scheduled - 1 && t.messages == s.messages
  {
  }
}
