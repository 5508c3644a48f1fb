/** What the retry machine has counted, told from the actions alone. */
module RetryStreaks {
  import opened Messages
  import opened Sequences
  import opened RetryMachine

  /** What the runs have put in the event queue. */
  function Emitted(actions: seq<Action>): seq<Queued>
  {
    if actions == [] then []
    else
      Emitted(Front(actions))
      + match Last(actions)
        case EmitMessageEnd(m) => [MessageEnded(m)]
        case EmitAgentEnd => [RunEnded]
        case _ => []
  }

  /** How many of these events have been processed: the queue is worked off in order. */
  function Handled(actions: seq<Action>): nat
  {
    if actions == [] then 0 else Handled(Front(actions)) + if Last(actions).ProcessNext? then 1 else 0
  }

  /** The event that the last action processes, if it processes one. */
  function Taken(actions: seq<Action>): Option<Queued>
  {
    if actions != [] && Last(actions).ProcessNext? && Handled(Front(actions)) < |Emitted(actions)|
    then Some(Emitted(actions)[Handled(Front(actions))])
    else None
  }

  /** The last response since the last end of a run. */
  function Response(events: seq<Queued>): Option<AgentMessage>
  {
    if events == [] || Last(events).RunEnded? then None
    else if Last(events).message.Assistant? then Some(Last(events).message)
    else Response(Front(events))
  }

  /** The response that the events processed so far leave for the end of its run. */
  function Awaiting(actions: seq<Action>): Option<AgentMessage>
  {
    Response(if Handled(actions) <= |Emitted(actions)| then Emitted(actions)[..Handled(actions)] else [])
  }

  /** An error that is worth another try, and retries are on. */
  predicate CallsForRetry(c: Config, m: Option<AgentMessage>)
  {
    && c.enabled && m.Some? && m.value.Assistant? && m.value.stopReason == Error && m.value.errorMessage != ""
    && !c.overflows(m.value) && c.transient(m.value.errorMessage)
  }

  predicate Succeeded(e: Queued)
  {
    e.MessageEnded? && e.message.Assistant? && e.message.stopReason != Error
  }

  /** The streak after one more action, which may take an event from the queue. */
  function NextStreak(c: Config, before: nat, awaiting: Option<AgentMessage>, taken: Option<Queued>, a: Action): nat
  {
    if taken.None? then (if a.Cancelled? then 0 else before)
    else if Succeeded(taken.value) then 0
    else if taken.value.MessageEnded? || !CallsForRetry(c, awaiting) then before
    else if before < c.maxRetries then before + 1
    else 0
  }

  /** The backoffs begun since the last success, give-up or cancelled backoff. */
  function Streak(c: Config, actions: seq<Action>): nat
  {
    if actions == [] then 0
    else NextStreak(c, Streak(c, Front(actions)), Awaiting(Front(actions)), Taken(actions), Last(actions))
  }

  /** Events are processed in the order in which they were emitted. */
  lemma {:induction false} EventsInOrder(c: Config, messages: seq<AgentMessage>, actions: seq<Action>)
    requires After(c, Fresh(messages), actions).Some?
    ensures Handled(actions) <= |Emitted(actions)|
    ensures After(c, Fresh(messages), actions).value.state.queue == Emitted(actions)[Handled(actions)..]
  {
    if actions != [] {
      EventsInOrder(c, messages, Front(actions));
      var s := After(c, Fresh(messages), Front(actions)).value.state;
      QueueStep(c, s, Last(actions), Emitted(Front(actions)), Handled(Front(actions)));
    }
  }

  lemma QueueStep(c: Config, s: State, a: Action, emitted: seq<Queued>, handled: nat)
    requires Possible(s, a) && handled <= |emitted| && s.queue == emitted[handled..]
    ensures var more := emitted + match a
                                  case EmitMessageEnd(m) => [MessageEnded(m)]
                                  case EmitAgentEnd => [RunEnded]
                                  case _ => [];
            var next := handled + if a.ProcessNext? then 1 else 0;
            next <= |more| && Step(c, s, a).queue == more[next..]
  {
    if a.ProcessNext? {
      assert emitted[handled..][1..] == emitted[handled + 1..];
    }
    assert emitted + [] == emitted;
  }

  /** The event taken from the queue, and what was processed before it and with it. */
  lemma TakenIsNext(c: Config, messages: seq<AgentMessage>, actions: seq<Action>)
    requires actions != [] && After(c, Fresh(messages), actions).Some?
    ensures var before := After(c, Fresh(messages), Front(actions)).value.state;
            if Last(actions).ProcessNext? then
              && Taken(actions) == Some(before.queue[0])
              && Awaiting(actions)
                 == (match before.queue[0]
                     case RunEnded => None
                     case MessageEnded(m) => if m.Assistant? then Some(m) else Awaiting(Front(actions)))
            else Taken(actions) == None && Awaiting(actions) == Awaiting(Front(actions))
  {
    EventsInOrder(c, messages, Front(actions));
    EventsInOrder(c, messages, actions);
    var all, n := Emitted(actions), Handled(Front(actions));
    assert all[..n] == Emitted(Front(actions))[..n];
    if Last(actions).ProcessNext? {
      FrontOfPrefix(all, n);
    }
  }

  lemma StreakStep(c: Config, s: State, a: Action)
    requires Possible(s, a) && s.attempt <= c.maxRetries
    ensures var taken: Option<Queued> := if a.ProcessNext? then Some(s.queue[0]) else None;
            && Step(c, s, a).attempt == NextStreak(c, s.attempt, s.last, taken, a)
            && Step(c, s, a).last == if taken.None? then s.last
                                     else if taken.value.RunEnded? then None
                                     else if taken.value.message.Assistant? then Some(taken.value.message)
                                     else s.last
  {
  }

  lemma {:induction false} CountsAttempts(c: Config, messages: seq<AgentMessage>, actions: seq<Action>)
    requires After(c, Fresh(messages), actions).Some?
    ensures var s := After(c, Fresh(messages), actions).value.state;
            s.last == Awaiting(actions) && s.attempt == Streak(c, actions)
  {
    if actions != [] {
      CountsAttempts(c, messages, Front(actions));
      RetriesAreBoundedAndAttended(c, messages, Front(actions));
      TakenIsNext(c, messages, actions);
      StreakStep(c, After(c, Fresh(messages), Front(actions)).value.state, Last(actions));
    }
  }

  /** The counter, the time waited and the remembered response are what the actions say. */
  lemma CountsTheStreak(c: Config, messages: seq<AgentMessage>, actions: seq<Action>)
    requires After(c, Fresh(messages), actions).Some?
    ensures var s := After(c, Fresh(messages), actions).value.state;
            && s.last == Awaiting(actions)
            && s.attempt == Streak(c, actions)
            && s.waited == c.baseDelayMs * (Pow2(Streak(c, actions)) - 1)
  {
    CountsAttempts(c, messages, actions);
    RetriesAreBoundedAndAttended(c, messages, actions);
  }

  /**
   What an action does after a streak of `k`. A backoff begins exactly when the end of a run is processed whose
   response calls for a retry, and the streak is below its limit; it lasts base * 2^k, and the failed response
   leaves the transcript. Any other end of a run resolves the promise, and a success starts the count again.
   */
  predicate BacksOff(c: Config, s: State, awaiting: Option<AgentMessage>, k: nat, a: Action)
    requires Possible(s, a)
  {
    var t := Step(c, s, a);
    var ends := a.ProcessNext? && s.queue[0].RunEnded?;
    var begins := ends && CallsForRetry(c, awaiting) && k < c.maxRetries;
    && (!s.handler.Sleeping? && t.handler.Sleeping? <==> begins)
    && (begins ==>
          && t.handler == Sleeping(false) && t.promise && t.attempt == k + 1
          && t.waited == s.waited + c.baseDelayMs * Pow2(k) && (k == 0 ==> t.waited == c.baseDelayMs)
          && t.messages == (if s.messages != [] && s.messages[|s.messages| - 1].Assistant?
                            then s.messages[..|s.messages| - 1] else s.messages))
    && (ends && !begins && awaiting.Some? ==> !t.promise && t.messages == s.messages)
    && (a.ProcessNext? && Succeeded(s.queue[0]) ==> t.attempt == 0 && t.waited == 0)
  }

  lemma NextBackoff(c: Config, messages: seq<AgentMessage>, actions: seq<Action>, a: Action)
    requires After(c, Fresh(messages), actions).Some? && Possible(After(c, Fresh(messages), actions).value.state, a)
    ensures BacksOff(c, After(c, Fresh(messages), actions).value.state, Awaiting(actions), Streak(c, actions), a)
  {
    HistoryKeeps(c, messages, actions);
    CountsAttempts(c, messages, actions);
    BackoffStep(c, After(c, Fresh(messages), actions).value.state, a);
  }

  lemma BackoffStep(c: Config, s: State, a: Action)
    requires Possible(s, a) && Counted(c, s)
    ensures BacksOff(c, s, s.last, s.attempt, a)
  {
  }

  /** The promise is there before the end of a run is processed, exactly if its response calls for a retry. */
  lemma PromiseComesFirst(c: Config, messages: seq<AgentMessage>, actions: seq<Action>)
    requires After(c, Fresh(messages), actions).Some?
    requires Possible(After(c, Fresh(messages), actions).value.state, EmitAgentEnd)
    ensures var s := After(c, Fresh(messages), actions).value.state;
            var failed := Response(Emitted(actions));
            && failed.Some?
            && (Step(c, s, EmitAgentEnd).promise <==> s.promise || CallsForRetry(c, failed))
  {
    LastOfRun(c, messages, actions);
  }

  /** The last response of the run under way is the last one emitted. */
  lemma {:induction false} LastOfRun(c: Config, messages: seq<AgentMessage>, actions: seq<Action>)
    requires After(c, Fresh(messages), actions).Some?
    ensures var s := After(c, Fresh(messages), actions).value.state; Response(Emitted(actions)) == Speaks(s)
  {
    if actions != [] {
      LastOfRun(c, messages, Front(actions));
      LastOfRunStep(c, After(c, Fresh(messages), Front(actions)).value.state, Last(actions), Emitted(Front(actions)));
    }
  }

  function Speaks(s: State): Option<AgentMessage>
  {
    if Underway(s) then LastAssistant(s.run.value.added) else None
  }

  lemma LastOfRunStep(c: Config, s: State, a: Action, emitted: seq<Queued>)
    requires Possible(s, a) && Response(emitted) == Speaks(s)
    ensures var more := emitted + match a
                                  case EmitMessageEnd(m) => [MessageEnded(m)]
                                  case EmitAgentEnd => [RunEnded]
                                  case _ => [];
            Response(more) == Speaks(Step(c, s, a))
  {
    match a
    case EmitMessageEnd(m) =>
      FrontOfAppend(emitted, MessageEnded(m));
      FrontOfAppend(s.run.value.added, m);
    case EmitAgentEnd => FrontOfAppend(emitted, RunEnded);
    case _ => assert emitted + [] == emitted;
  }

  /** Timers set and not fired yet. */
  function Timers(actions: seq<Action>): int
  {
    if actions == [] then 0
    else Timers(Front(actions)) + if Last(actions).Wake? then 1 else if Last(actions).FireContinue? then -1 else 0
  }

  /** Each backoff that is slept through sets one timer, and nothing else does. */
  lemma {:induction false} OneTimerABackoff(c: Config, messages: seq<AgentMessage>, actions: seq<Action>)
    requires After(c, Fresh(messages), actions).Some?
    ensures After(c, Fresh(messages), actions).value.state.scheduled == Timers(actions)
  {
    if actions != [] {
      OneTimerABackoff(c, messages, Front(actions));
    }
  }

  /**
   Aborting a backoff resolves the promise at once, and the retry is given up: the only thing the handler can do is
   to end with the counter at zero, without a timer.
   */
  lemma AbortGivesUp(c: Config, messages: seq<AgentMessage>, actions: seq<Action>)
    requires After(c, Fresh(messages), actions).Some?
    requires After(c, Fresh(messages), actions).value.state.handler.Sleeping?
    ensures var s := After(c, Fresh(messages), actions).value.state;
            var t := Step(c, s, AbortRetry);
            && !t.promise && !Possible(t, Wake) && !Possible(t, ProcessNext) && Possible(t, Cancelled)
            && Step(c, t, Cancelled).attempt == 0 && Step(c, t, Cancelled).waited == 0
            && Step(c, t, Cancelled).scheduled == s.scheduled && Step(c, t, Cancelled).messages == s.messages
  {
  }
}
