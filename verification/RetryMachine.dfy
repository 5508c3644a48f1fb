/** Automatic retries of failed responses: bounded backoff, a promise callers wait on, and the retried transcript. */
module RetryMachine {
  import opened Messages
  import opened Sequences

  /** Fixed settings, with the two tests on error messages that are not modelled further. */
  datatype Config = Config(
    enabled: bool, maxRetries: nat, baseDelayMs: nat, overflows: AgentMessage -> bool, transient: string -> bool)

  predicate IsRetryableError(c: Config, m: AgentMessage)
  {
    m.Assistant? && m.stopReason == Error && m.errorMessage != "" && !c.overflows(m) && c.transient(m.errorMessage)
  }

  /** An agent event waiting to be processed; events without a part in retries are left out. */
  datatype Queued = MessageEnded(message: AgentMessage) | RunEnded

  /** The handler of the event being processed: asleep in a backoff, or about to resolve the promise a last time. */
  datatype Handler = Idle | Sleeping(aborted: bool) | Declined

  /** A run: the transcript it started from, the messages it added, and whether it has emitted its end. */
  datatype Running = Running(start: seq<AgentMessage>, added: seq<AgentMessage>, over: bool)

  /** `waited` is the backoff of the current streak of retries; `scheduled` counts the timers that will continue. */
  datatype State = State(
    attempt: nat, waited: nat, promise: bool, handler: Handler, queue: seq<Queued>, last: Option<AgentMessage>,
    messages: seq<AgentMessage>, run: Option<Running>, scheduled: nat)

  datatype Action =
    | StartRun
    | EmitMessageEnd(message: AgentMessage)
    | EmitAgentEnd
    | Finish
    | ProcessNext
    | Wake
    | Cancelled
    | Settle
    | FireContinue(drains: bool)
    | AbortRetry

  function Pow2(n: nat): nat
  {
    if n == 0 then 1 else 2 * Pow2(n - 1)
  }

  function LastAssistant(messages: seq<AgentMessage>): Option<AgentMessage>
  {
    if messages == [] then None
    else if Last(messages).Assistant? then Some(Last(messages))
    else LastAssistant(Front(messages))
  }

  /** The transcript a retry goes on from. */
  function Dropped(messages: seq<AgentMessage>): seq<AgentMessage>
  {
    if messages != [] && Last(messages).Assistant? then Front(messages) else messages
  }

  /** What the source lets happen in a state; a run emits responses only to requests it could send. */
  predicate Possible(s: State, a: Action)
  {
    match a
    case StartRun => s.run.None?
    case EmitMessageEnd(m) =>
      s.run.Some? && !s.run.value.over && (m.Assistant? ==> Continuable(s.run.value.start + s.run.value.added))
    case EmitAgentEnd => s.run.Some? && !s.run.value.over && LastAssistant(s.run.value.added).Some?
    case Finish => s.run.Some? && s.run.value.over
    case ProcessNext => s.handler == Idle && s.queue != []
    case Wake => s.handler == Sleeping(false)
    case Cancelled => s.handler == Sleeping(true)
    case Settle => s.handler == Declined
    case FireContinue(_) => s.scheduled > 0
    case AbortRetry => true
  }

  /** What the handler of a run's end does with a retryable error. */
  function Retry(c: Config, s: State): State
  {
    if s.attempt + 1 > c.maxRetries then s.(attempt := 0, waited := 0, promise := false, handler := Declined)
    else
      s.(attempt := s.attempt + 1, waited := s.waited + c.baseDelayMs * Pow2(s.attempt), promise := true,
         handler := Sleeping(false), messages := Dropped(s.messages))
  }

  function Process(c: Config, s: State, e: Queued): State
  {
    match e
    case MessageEnded(m) =>
      if !m.Assistant? then s
      else if m.stopReason == Error then s.(last := Some(m))
      else s.(last := Some(m), attempt := 0, waited := 0)
    case RunEnded =>
      if s.last.None? then s
      else if IsRetryableError(c, s.last.value) && c.enabled then Retry(c, s.(last := None))
      else if IsRetryableError(c, s.last.value) then s.(last := None, promise := false, handler := Declined)
      else s.(last := None, promise := false)
  }

  function Step(c: Config, s: State, a: Action): State
    requires Possible(s, a)
  {
    match a
    case StartRun => s.(run := Some(Running(s.messages, [], false)))
    case EmitMessageEnd(m) =>
      s.(messages := s.messages + [m], queue := s.queue + [MessageEnded(m)],
         run := Some(s.run.value.(added := s.run.value.added + [m])))
    case EmitAgentEnd =>
      var failed := LastAssistant(s.run.value.added);
      s.(promise := s.promise || (c.enabled && IsRetryableError(c, failed.value)),
         queue := s.queue + [RunEnded], run := Some(s.run.value.(over := true)))
    case Finish => s.(run := None)
    case ProcessNext => Process(c, s.(queue := s.queue[1..]), s.queue[0])
    case Wake => s.(handler := Idle, scheduled := s.scheduled + 1)
    case Cancelled => s.(attempt := 0, waited := 0, promise := false, handler := Declined)
    case Settle => s.(promise := false, handler := Idle)
    case FireContinue(drains) =>
      var fired := s.(scheduled := s.scheduled - 1);
      if s.run.Some? || s.messages == [] || (Last(s.messages).Assistant? && !drains) then fired
      else fired.(run := Some(Running(s.messages, [], false)))
    case AbortRetry => s.(promise := false, handler := if s.handler.Sleeping? then Sleeping(true) else s.handler)
  }

  // ---------------------------------------------------------------------------------------------
  // The invariant
  // ---------------------------------------------------------------------------------------------

  /** Dropping a trailing response leaves a transcript that can be continued. */
  predicate Droppable(messages: seq<AgentMessage>)
  {
    Continuable(Dropped(messages))
  }

  /** Reads the queue on from `open`, whether a response is waiting for its run to end. */
  function Scan(open: bool, queue: seq<Queued>): Option<bool>
  {
    if queue == [] then Some(open)
    else
      var before := Scan(open, Front(queue));
      if before.None? then None
      else if Last(queue).RunEnded? then (if before.value then Some(false) else None)
      else Some(before.value || Last(queue).message.Assistant?)
  }

  lemma {:induction false} ScanTail(open: bool, queue: seq<Queued>)
    requires queue != [] && Scan(open, queue).Some?
    ensures queue[0].RunEnded? ==> open && Scan(false, queue[1..]) == Scan(open, queue)
    ensures queue[0].MessageEnded? ==> Scan(open || queue[0].message.Assistant?, queue[1..]) == Scan(open, queue)
  {
    if |queue| == 1 {
      assert Front(queue) == [];
    } else {
      ScanTail(open, Front(queue));
      assert Front(queue)[1..] == Front(queue[1..]);
    }
  }

  predicate Underway(s: State)
  {
    s.run.Some? && !s.run.value.over
  }

  predicate AwaitsEnd(s: State)
  {
    Underway(s) && LastAssistant(s.run.value.added).Some?
  }

  predicate Counted(c: Config, s: State)
  {
    s.attempt <= c.maxRetries && s.waited == c.baseDelayMs * (Pow2(s.attempt) - 1)
  }

  /** Where only a timer or a backoff will go on, continuing will work. */
  predicate Resumable(s: State)
  {
    !Underway(s) && RunEnded !in s.queue && (s.handler.Sleeping? || (s.scheduled > 0 && s.promise))
    ==> Continuable(s.messages)
  }

  predicate TranscriptsFit(s: State)
  {
    && (Underway(s) && Continuable(s.run.value.start + s.run.value.added) ==> Continuable(s.messages))
    && (RunEnded in s.queue || s.handler.Sleeping? || AwaitsEnd(s) ==> Droppable(s.messages))
  }

  predicate Inv(c: Config, s: State)
  {
    && Counted(c, s)
    && Scan(s.last.Some?, s.queue) == Some(AwaitsEnd(s))
    && TranscriptsFit(s) && Resumable(s)
    && (s.handler.Declined? && s.promise ==> RunEnded in s.queue)
  }

  /** A session that has not run anything yet, on any transcript. */
  function Fresh(messages: seq<AgentMessage>): State
  {
    State(0, 0, false, Idle, [], None, messages, None, 0)
  }

  lemma QueuedMessage(open: bool, queue: seq<Queued>, m: AgentMessage)
    ensures RunEnded in queue + [MessageEnded(m)] <==> RunEnded in queue
    ensures Scan(open, queue).Some? ==>
              Scan(open, queue + [MessageEnded(m)]) == Some(Scan(open, queue).value || m.Assistant?)
  {
    FrontOfAppend(queue, MessageEnded(m));
  }

  lemma AddedMessage(start: seq<AgentMessage>, added: seq<AgentMessage>, m: AgentMessage)
    ensures LastAssistant(added + [m]) == if m.Assistant? then Some(m) else LastAssistant(added)
    ensures Continuable(start + (added + [m])) <==> !m.Assistant?
  {
    FrontOfAppend(added, m);
    ConcatAssociative(start, added, [m]);
  }

  lemma PushedMessage(messages: seq<AgentMessage>, m: AgentMessage)
    ensures Continuable(messages + [m]) <==> !m.Assistant?
    ensures !m.Assistant? || Continuable(messages) ==> Droppable(messages + [m])
  {
    FrontOfAppend(messages, m);
  }

  lemma EmittedMessage(c: Config, s: State, m: AgentMessage)
    requires Inv(c, s) && Possible(s, EmitMessageEnd(m))
    ensures Inv(c, Step(c, s, EmitMessageEnd(m)))
  {
    QueuedMessage(s.last.Some?, s.queue, m);
    AddedMessage(s.run.value.start, s.run.value.added, m);
    PushedMessage(s.messages, m);
  }

  lemma EmittedEnd(c: Config, s: State)
    requires Inv(c, s) && Possible(s, EmitAgentEnd)
    ensures Inv(c, Step(c, s, EmitAgentEnd))
  {
    FrontOfAppend(s.queue, RunEnded);
    assert RunEnded in s.queue + [RunEnded];
  }

  lemma Doubles(base: nat, k: nat)
    ensures base * (Pow2(k) - 1) + base * Pow2(k) == base * (Pow2(k + 1) - 1)
  {
    assert Pow2(k + 1) == 2 * Pow2(k);
    assert base * (2 * Pow2(k) - 1) == base * Pow2(k) + base * (Pow2(k) - 1);
  }

  /** The end of a run, taken off the queue: `s` is the state without it. */
  lemma ProcessedEnd(c: Config, s: State)
    requires Counted(c, s) && s.last.Some? && s.handler.Idle? && Scan(false, s.queue) == Some(AwaitsEnd(s))
    requires Underway(s) && Continuable(s.run.value.start + s.run.value.added) ==> Continuable(s.messages)
    requires Droppable(s.messages)
    ensures Inv(c, Process(c, s, RunEnded))
  {
    Doubles(c.baseDelayMs, s.attempt);
  }

  lemma ProcessedMessage(c: Config, s: State, m: AgentMessage)
    requires Inv(c, s.(last := if m.Assistant? then Some(m) else s.last)) && s.handler.Idle?
    ensures Inv(c, Process(c, s, MessageEnded(m)))
  {
  }

  lemma Processed(c: Config, s: State)
    requires Inv(c, s) && Possible(s, ProcessNext)
    ensures Inv(c, Step(c, s, ProcessNext))
  {
    var rest := s.(queue := s.queue[1..]);
    ScanTail(s.last.Some?, s.queue);
    assert s.queue == [s.queue[0]] + rest.queue;
    assert RunEnded in s.queue <==> s.queue[0] == RunEnded || RunEnded in rest.queue;
    match s.queue[0]
    case MessageEnded(m) => ProcessedMessage(c, rest, m);
    case RunEnded => ProcessedEnd(c, rest);
  }

  /** Every step keeps the invariant. */
  lemma StepKeeps(c: Config, s: State, a: Action)
    requires Inv(c, s) && Possible(s, a)
    ensures Inv(c, Step(c, s, a))
  {
    match a
    case EmitMessageEnd(m) => EmittedMessage(c, s, m);
    case EmitAgentEnd => EmittedEnd(c, s);
    case ProcessNext => Processed(c, s);
    case StartRun => assert s.messages + [] == s.messages;
    case FireContinue(_) => assert s.messages + [] == s.messages;
    case _ =>
  }

  // ---------------------------------------------------------------------------------------------
  // Who attends to a pending promise
  // ---------------------------------------------------------------------------------------------

  /** Something is left that will resolve a pending promise. */
  predicate Attended(s: State)
  {
    s.promise ==> Underway(s) || RunEnded in s.queue || s.handler.Sleeping? || s.scheduled > 0
  }

  /**
   The last timer fires while the ended run still waits for its listeners: the agent rejects it, and nothing
   else is on its way.
   */
  predicate Lost(s: State, a: Action)
  {
    && a.FireContinue? && s.run.Some? && s.run.value.over
    && s.promise && RunEnded !in s.queue && !s.handler.Sleeping? && s.scheduled == 1
  }

  /** Nobody attends: from a lost timer until the user starts a run or aborts the retry. */
  predicate Dangling(s: State, a: Action, before: bool)
  {
    if before then !a.StartRun? && !a.AbortRetry? else Lost(s, a)
  }

  /** A lost timer is the only step that leaves a promise alone, and a new run or an abort are the only way back. */
  lemma StepAttends(c: Config, s: State, a: Action)
    requires Inv(c, s) && Possible(s, a)
    ensures Attended(Step(c, s, a)) <==> !Dangling(s, a, !Attended(s))
  {
    match a
    case EmitMessageEnd(m) => QueuedMessage(true, s.queue, m);
    case EmitAgentEnd => assert RunEnded in s.queue + [RunEnded];
    case ProcessNext => ProcessAttends(c, s);
    case FireContinue(drains) => TimerAttends(c, s, drains);
    case _ =>
  }

  lemma ProcessAttends(c: Config, s: State)
    requires Inv(c, s) && Possible(s, ProcessNext)
    ensures Attended(Step(c, s, ProcessNext)) <==> Attended(s)
  {
    var rest := s.queue[1..];
    ScanTail(s.last.Some?, s.queue);
    assert s.queue == [s.queue[0]] + rest;
    assert RunEnded in s.queue <==> s.queue[0] == RunEnded || RunEnded in rest;
  }

  lemma TimerAttends(c: Config, s: State, drains: bool)
    requires Inv(c, s) && s.scheduled > 0
    ensures Attended(Step(c, s, FireContinue(drains))) <==> !Lost(s, FireContinue(drains))
  {
  }

  // ---------------------------------------------------------------------------------------------
  // Whole histories
  // ---------------------------------------------------------------------------------------------

  /** Where some actions lead, and whether a lost timer has left the promise alone. */
  datatype History = History(state: State, dangling: bool)

  function After(c: Config, s: State, actions: seq<Action>): Option<History>
  {
    if actions == [] then Some(History(s, false))
    else
      var before, a := After(c, s, Front(actions)), Last(actions);
      if before.None? || !Possible(before.value.state, a) then None
      else Some(History(Step(c, before.value.state, a), Dangling(before.value.state, a, before.value.dangling)))
  }

  lemma {:induction false} HistoryKeeps(c: Config, messages: seq<AgentMessage>, actions: seq<Action>)
    requires After(c, Fresh(messages), actions).Some?
    ensures var h := After(c, Fresh(messages), actions).value;
            Inv(c, h.state) && (Attended(h.state) <==> !h.dangling)
  {
    if actions != [] {
      HistoryKeeps(c, messages, Front(actions));
      var before := After(c, Fresh(messages), Front(actions)).value.state;
      StepKeeps(c, before, Last(actions));
      StepAttends(c, before, Last(actions));
    }
  }

  /**
   In every history: the counter is within its bounds, and a streak of k retries has waited base * (2^k - 1).
   A pending promise has a run, a queued end, a backoff or a timer that will see to it if and only if no lost
   timer has left it alone with the ended run gone.
   */
  lemma RetriesAreBoundedAndAttended(c: Config, messages: seq<AgentMessage>, actions: seq<Action>)
    requires After(c, Fresh(messages), actions).Some?
    ensures var h := After(c, Fresh(messages), actions).value;
            var s := h.state;
            && s.attempt <= c.maxRetries && s.waited == c.baseDelayMs * (Pow2(s.attempt) - 1)
            && ((s.promise ==> s.run.Some? || RunEnded in s.queue || s.handler.Sleeping? || s.scheduled > 0)
                <==> !(h.dangling && s.run.None?))
  {
    HistoryKeeps(c, messages, actions);
  }

  /**
   When a caller waits and nothing else is on its way, a timer is there exactly if none was lost, and its
   `continue` starts a run from the transcript as it is.
   */
  lemma TimerAlwaysContinues(c: Config, messages: seq<AgentMessage>, actions: seq<Action>)
    requires After(c, Fresh(messages), actions).Some?
    requires var s := After(c, Fresh(messages), actions).value.state;
             s.promise && s.run.None? && RunEnded !in s.queue && !s.handler.Sleeping?
    ensures var h := After(c, Fresh(messages), actions).value;
            && (Possible(h.state, FireContinue(false)) <==> !h.dangling)
            && (!h.dangling ==>
                  && Continuable(h.state.messages)
                  && Step(c, h.state, FireContinue(false)).run == Some(Running(h.state.messages, [], false)))
  {
    HistoryKeeps(c, messages, actions);
  }

  /** A promise that nothing will resolve, in a session where nothing happens any more. */
  predicate Orphaned(s: State)
  {
    s.promise && s.run.None? && RunEnded !in s.queue && !s.handler.Sleeping? && s.scheduled == 0
  }

  /** Once the ended run has finished, a lost timer has orphaned the promise. */
  lemma LostTimerOrphans(c: Config, s: State, drains: bool)
    requires Inv(c, s) && Possible(s, FireContinue(drains)) && Lost(s, FireContinue(drains))
    ensures var fired := Step(c, s, FireContinue(drains));
            Possible(fired, Finish) && Orphaned(Step(c, fired, Finish))
  {
  }

  /**
   A timer can be lost: a run that fails at once, and a listener that is still waited for when the backoff is
   over.
   */
  lemma SlowListenerOrphansThePromise(c: Config, user: AgentMessage, failed: AgentMessage)
    returns (actions: seq<Action>)
    requires !user.Assistant? && IsRetryableError(c, failed) && c.enabled && c.maxRetries > 0
    ensures After(c, Fresh([user]), actions).Some? && After(c, Fresh([user]), actions).value.dangling
    ensures Orphaned(After(c, Fresh([user]), actions).value.state)
  {
    var run := Running([user], [failed], true);
    var s0 := Fresh([user]);
    var s4 := State(0, 0, true, Idle, [RunEnded], Some(failed), [user, failed], Some(run), 0);
    actions := FailedRun(c, user, failed);
    var s5 := State(1, c.baseDelayMs, true, Sleeping(false), [], None, [user], Some(run), 0);
    assert Step(c, s4, ProcessNext) == s5 by {
      assert [user, failed][..1] == [user];
      assert [RunEnded][1..] == [];
      assert Pow2(0) == 1;
    }
    actions := Then(c, s0, actions, s4, ProcessNext, s5);
    actions := Then(c, s0, actions, s5, Wake, s5.(handler := Idle, scheduled := 1));
    actions := Then(c, s0, actions, s5.(handler := Idle, scheduled := 1), FireContinue(false), s5.(handler := Idle));
    actions := Then(c, s0, actions, s5.(handler := Idle), Finish, s5.(handler := Idle, run := None));
  }

  /** A run that fails at once, up to the end it has queued. */
  lemma FailedRun(c: Config, user: AgentMessage, failed: AgentMessage) returns (actions: seq<Action>)
    requires !user.Assistant? && IsRetryableError(c, failed) && c.enabled
    ensures After(c, Fresh([user]), actions).Some?
    ensures var run := Running([user], [failed], true);
            After(c, Fresh([user]), actions).value
            == History(State(0, 0, true, Idle, [RunEnded], Some(failed), [user, failed], Some(run), 0), false)
  {
    var run := Running([user], [failed], false);
    var s0 := Fresh([user]);
    var s1 := s0.(run := Some(Running([user], [], false)));
    var s2 := State(0, 0, false, Idle, [MessageEnded(failed)], None, [user, failed], Some(run), 0);
    var s3 := s2.(queue := [], last := Some(failed));
    actions := Then(c, s0, [], s0, StartRun, s1);
    assert Possible(s1, EmitMessageEnd(failed)) by { assert [user] + [] == [user]; }
    assert [user] + [failed] == [user, failed] && [] + [failed] == [failed];
    assert [] + [MessageEnded(failed)] == [MessageEnded(failed)];
    actions := Then(c, s0, actions, s1, EmitMessageEnd(failed), s2);
    actions := Then(c, s0, actions, s2, ProcessNext, s3);
    actions := Then(c, s0, actions, s3, EmitAgentEnd,
                    s3.(promise := true, queue := [RunEnded], run := Some(run.(over := true))));
  }

  /** One more action. */
  lemma Then(c: Config, s0: State, actions: seq<Action>, s: State, a: Action, t: State) returns (more: seq<Action>)
    requires After(c, s0, actions).Some? && After(c, s0, actions).value.state == s
    requires Possible(s, a) && Step(c, s, a) == t
    ensures more == actions + [a]
    ensures After(c, s0, more) == Some(History(t, Dangling(s, a, After(c, s0, actions).value.dangling)))
  {
    more := actions + [a];
    FrontOfAppend(actions, a);
  }

  // ---------------------------------------------------------------------------------------------
  // The session's handlers
  // ---------------------------------------------------------------------------------------------

  /** The fields of a session that automatic retries use, and of its agent those they look at. */
  class RetrySession {
    const config: Config
    var retryAttempt: nat
    var retryPromise: bool
    var handler: Handler
    var agentEventQueue: seq<Queued>
    var lastAssistantMessage: Option<AgentMessage>
    var messages: seq<AgentMessage>
    var run: Option<Running>
    var scheduled: nat
    ghost var waited: nat

    ghost function Now(): State
      reads this
    {
      State(retryAttempt, waited, retryPromise, handler, agentEventQueue, lastAssistantMessage, messages, run,
            scheduled)
    }

    constructor (config: Config, messages: seq<AgentMessage>)
      ensures this.config == config && Now() == Fresh(messages) && Inv(config, Now())
    {
      this.config, this.messages := config, messages;
      retryAttempt, retryPromise, handler, agentEventQueue := 0, false, Idle, [];
      lastAssistantMessage, run, scheduled, waited := None, None, 0, 0;
    }

    static method FindLastAssistantInMessages(messages: seq<AgentMessage>) returns (found: Option<AgentMessage>)
      ensures found == LastAssistant(messages)
    {
      var i := |messages| - 1;
      assert messages[..i + 1] == messages;
      while i >= 0
        invariant -1 <= i < |messages| && LastAssistant(messages) == LastAssistant(messages[..i + 1])
      {
        FrontOfPrefix(messages, i);
        if messages[i].Assistant? {
          return Some(messages[i]);
        }
        i := i - 1;
      }
      return None;
    }

    method HandleMessageEnd(message: AgentMessage)
      requires Inv(config, Now()) && Possible(Now(), EmitMessageEnd(message))
      modifies this
      ensures Now() == Step(config, old(Now()), EmitMessageEnd(message)) && Inv(config, Now())
    {
      StepKeeps(config, Now(), EmitMessageEnd(message));
      messages := messages + [message];
      run := Some(run.value.(added := run.value.added + [message]));
      agentEventQueue := agentEventQueue + [MessageEnded(message)];
    }

    /** Creates the promise at once, before the end of the run is queued, so that callers cannot miss it. */
    method HandleAgentEnd()
      requires Inv(config, Now()) && Possible(Now(), EmitAgentEnd)
      modifies this
      ensures Now() == Step(config, old(Now()), EmitAgentEnd) && Inv(config, Now())
    {
      StepKeeps(config, Now(), EmitAgentEnd);
      if !retryPromise && config.enabled {
        var lastAssistant := FindLastAssistantInMessages(run.value.added);
        if lastAssistant.Some? && IsRetryableError(config, lastAssistant.value) {
          retryPromise := true;
        }
      }
      agentEventQueue := agentEventQueue + [RunEnded];
      run := Some(run.value.(over := true));
    }

    method ProcessAgentEvent()
      requires Inv(config, Now()) && Possible(Now(), ProcessNext)
      modifies this
      ensures Now() == Step(config, old(Now()), ProcessNext) && Inv(config, Now())
      ensures var event := old(agentEventQueue)[0];
              event.MessageEnded? && event.message.Assistant? && event.message.stopReason != Error ==>
                retryAttempt == 0 && waited == 0 && retryPromise == old(retryPromise)
    {
      StepKeeps(config, Now(), ProcessNext);
      var event := agentEventQueue[0];
      agentEventQueue := agentEventQueue[1..];
      match event {
        case MessageEnded(message) =>
          if message.Assistant? {
            TrackAssistant(message);
          }
        case RunEnded => AfterRun();
      }
    }

    /** Remembers the response for the end of the run; a success ends the streak of retries. */
    method TrackAssistant(message: AgentMessage)
      requires message.Assistant? && Counted(config, Now())
      modifies this`lastAssistantMessage, this`retryAttempt, this`waited
      ensures Now() == Process(config, old(Now()), MessageEnded(message))
    {
      lastAssistantMessage := Some(message);
      if message.stopReason != Error && retryAttempt > 0 {
        retryAttempt, waited := 0, 0;
      }
    }

    method AfterRun()
      requires handler.Idle?
      modifies this`lastAssistantMessage, this`retryAttempt, this`waited, this`retryPromise, this`messages, this`handler
      ensures Now() == Process(config, old(Now()), RunEnded)
    {
      if lastAssistantMessage.Some? {
        var message := lastAssistantMessage.value;
        lastAssistantMessage := None;
        if IsRetryableError(config, message) {
          HandleRetryableError();
          return;
        }
        retryPromise := false;
      }
    }

    /** Counts the attempt and falls asleep, unless retries are off or used up. */
    method HandleRetryableError()
      requires handler.Idle?
      modifies this`retryAttempt, this`waited, this`retryPromise, this`messages, this`handler
      ensures Now() == if config.enabled then Retry(config, old(Now()))
                         else old(Now()).(promise := false, handler := Declined)
    {
      if !config.enabled {
        retryPromise, handler := false, Declined;
        return;
      }
      retryPromise := true;
      retryAttempt := retryAttempt + 1;
      if retryAttempt > config.maxRetries {
        retryAttempt, waited, retryPromise, handler := 0, 0, false, Declined;
        return;
      }
      waited := waited + config.baseDelayMs * Pow2(retryAttempt - 1);
      if |messages| > 0 && messages[|messages| - 1].Assistant? {
        messages := messages[..|messages| - 1];
      }
      handler := Sleeping(false);
    }

    /** The backoff is over: after a wake-up a timer will continue, after an abort the retry is given up. */
    method EndSleep()
      requires Inv(config, Now()) && handler.Sleeping?
      modifies this
      ensures Now() == Step(config, old(Now()), if old(handler.aborted) then Cancelled else Wake)
      ensures Inv(config, Now())
    {
      StepKeeps(config, Now(), if handler.aborted then Cancelled else Wake);
      if handler.aborted {
        retryAttempt, waited, retryPromise, handler := 0, 0, false, Declined;
        return;
      }
      scheduled, handler := scheduled + 1, Idle;
    }

    method AbortRetry()
      requires Inv(config, Now())
      modifies this`retryPromise, this`handler
      ensures Now() == Step(config, old(Now()), Action.AbortRetry) && Inv(config, Now())
    {
      StepKeeps(config, Now(), Action.AbortRetry);
      if handler.Sleeping? {
        handler := Sleeping(true);
      }
      retryPromise := false;
    }

    method ContinueFromTimer(drains: bool)
      requires Inv(config, Now()) && scheduled > 0
      modifies this`scheduled, this`run
      ensures Now() == Step(config, old(Now()), FireContinue(drains)) && Inv(config, Now())
    {
      StepKeeps(config, Now(), FireContinue(drains));
      scheduled := scheduled - 1;
      if run.None? && |messages| > 0 && (!messages[|messages| - 1].Assistant? || drains) {
        run := Some(Running(messages, [], false));
      }
    }
  }
}
