/** Executing the tool calls of one assistant message, one after the other or in parallel. */
module ToolBatch {
  import opened Messages
  import opened Sequences
  import opened AgentEvents
  import opened Agents

  datatype ToolOutput = ToolOutput(output: string, terminate: bool)

  datatype Execution = Returned(result: ToolOutput) | Threw(reason: string)

  /** What the hook after a tool call may do to its result. */
  datatype AfterHook =
    | NoOverride
    | Override(output: Option<string>, terminate: Option<bool>, isError: Option<bool>)
    | HookThrew(reason: string)

  /** How the environment treats one call: no such tool, bad arguments or a block, or an execution. */
  datatype CallPlan = Refused(reason: string) | Ready(updates: nat, execution: Execution, after: AfterHook)

  datatype Finalized = Finalized(call: ToolCall, result: ToolOutput, isError: bool)

  function Or<T>(o: Option<T>, default: T): T
  {
    if o.Some? then o.value else default
  }

  function Finalize(call: ToolCall, plan: CallPlan): Finalized
  {
    match plan
    case Refused(reason) => Finalized(call, ToolOutput(reason, false), true)
    case Ready(_, execution, after) =>
      var executed := match execution
        case Returned(result) => Finalized(call, result, false)
        case Threw(reason) => Finalized(call, ToolOutput(reason, false), true);
      match after
      case NoOverride => executed
      case HookThrew(reason) => Finalized(call, ToolOutput(reason, false), true)
      case Override(output, terminate, isError) =>
        Finalized(call, ToolOutput(Or(output, executed.result.output), Or(terminate, executed.result.terminate)),
                  Or(isError, executed.isError))
  }

  function ResultMessage(f: Finalized): AgentMessage
  {
    ToolResult(f.call.id, f.call.name, f.result.output, f.isError)
  }

  function FinalizeAll(calls: seq<ToolCall>, plans: seq<CallPlan>): seq<Finalized>
    requires |calls| == |plans|
  {
    seq(|calls|, i requires 0 <= i < |calls| => Finalize(calls[i], plans[i]))
  }

  function ResultMessages(fs: seq<Finalized>): seq<AgentMessage>
  {
    seq(|fs|, i requires 0 <= i < |fs| => ResultMessage(fs[i]))
  }

  /** The batch ends the loop only if every call asks for it. */
  predicate ShouldTerminate(fs: seq<Finalized>)
  {
    |fs| > 0 && forall i | 0 <= i < |fs| :: fs[i].result.terminate
  }

  /** A call that is refused, or fails without its hook asking to stop, keeps the loop going. */
  lemma OneCallKeepsTheLoopGoing(calls: seq<ToolCall>, plans: seq<CallPlan>, i: nat)
    requires |calls| == |plans| && i < |calls|
    requires plans[i].Ready? ==>
               plans[i].execution.Threw? && (plans[i].after.Override? ==> plans[i].after.terminate != Some(true))
    ensures !ShouldTerminate(FinalizeAll(calls, plans))
  {
    var f := FinalizeAll(calls, plans)[i];
    assert !f.result.terminate;
  }

  /**
   The message tells how the call went: the tool's output or the reason for its failure, as the hook after it left
   them; a call that was refused, threw, or whose hook threw is an error, unless the hook decided otherwise.
   */
  predicate Tells(call: ToolCall, plan: CallPlan, m: AgentMessage)
  {
    && m.ToolResult? && m.toolCallId == call.id && m.toolName == call.name
    && (plan.Refused? ==> m.isError && m.output == plan.reason)
    && (plan.Ready? && plan.after.HookThrew? ==> m.isError && m.output == plan.after.reason)
    && (plan.Ready? && plan.after.NoOverride? ==>
          && (m.isError <==> plan.execution.Threw?)
          && m.output == match plan.execution case Returned(result) => result.output case Threw(reason) => reason)
    && (plan.Ready? && plan.after.Override? ==>
          && (m.isError <==> plan.after.isError == Some(true) || (plan.after.isError.None? && plan.execution.Threw?))
          && (plan.after.output.Some? ==> m.output == plan.after.output.value)
          && (plan.after.output.None? ==>
                m.output == match plan.execution case Returned(result) => result.output case Threw(reason) => reason))
  }

  lemma ResultsTell(calls: seq<ToolCall>, plans: seq<CallPlan>)
    requires |calls| == |plans|
    ensures |ResultMessages(FinalizeAll(calls, plans))| == |calls|
    ensures forall i | 0 <= i < |calls| :: Tells(calls[i], plans[i], ResultMessages(FinalizeAll(calls, plans))[i])
  {
    forall i | 0 <= i < |calls| ensures Tells(calls[i], plans[i], ResultMessages(FinalizeAll(calls, plans))[i]) {
      assert FinalizeAll(calls, plans)[i] == Finalize(calls[i], plans[i]);
    }
  }

  /** A step of the executions under way: one of them reports progress, or finishes. */
  datatype Step = Update(index: nat) | Finish(index: nat)

  /** Every prepared call finishes exactly once, after its last update; nothing else happens. */
  ghost predicate ValidSchedule(plans: seq<CallPlan>, schedule: seq<Step>)
  {
    && (forall s | 0 <= s < |schedule| :: schedule[s].index < |plans| && plans[schedule[s].index].Ready?)
    && (forall i | 0 <= i < |plans| && plans[i].Ready? :: Finish(i) in schedule)
    && (forall s, t | 0 <= s < t < |schedule| && schedule[s].Finish? :: schedule[t].index != schedule[s].index)
  }

  // ---------------------------------------------------------------------------------------------
  // The events of a batch
  // ---------------------------------------------------------------------------------------------

  function Bracketed(messages: seq<AgentMessage>): seq<Event>
  {
    if messages == [] then []
    else Bracketed(Front(messages)) + [MessageStart(Last(messages)), MessageEnd(Last(messages))]
  }

  function Repeat(e: Event, n: nat): seq<Event>
  {
    if n == 0 then [] else Repeat(e, n - 1) + [e]
  }

  function CallEvents(call: ToolCall, plan: CallPlan): seq<Event>
  {
    [ToolStart(call.id)] + Repeat(ToolUpdate(call.id), if plan.Ready? then plan.updates else 0) + [ToolEnd(call.id)]
    + Bracketed([ResultMessage(Finalize(call, plan))])
  }

  function SequentialEvents(calls: seq<ToolCall>, plans: seq<CallPlan>): seq<Event>
    requires |calls| == |plans|
  {
    if calls == [] then []
    else SequentialEvents(Front(calls), Front(plans)) + CallEvents(Last(calls), Last(plans))
  }

  function PrepareEvents(calls: seq<ToolCall>, plans: seq<CallPlan>): seq<Event>
    requires |calls| == |plans|
  {
    if calls == [] then []
    else
      PrepareEvents(Front(calls), Front(plans))
      + [ToolStart(Last(calls).id)] + if Last(plans).Refused? then [ToolEnd(Last(calls).id)] else []
  }

  function ScheduleEvents(calls: seq<ToolCall>, schedule: seq<Step>): seq<Event>
    requires forall s | 0 <= s < |schedule| :: schedule[s].index < |calls|
  {
    if schedule == [] then []
    else
      var id := calls[schedule[|schedule| - 1].index].id;
      ScheduleEvents(calls, Front(schedule)) + [if Last(schedule).Finish? then ToolEnd(id) else ToolUpdate(id)]
  }

  function BatchEvents(sequential: bool, calls: seq<ToolCall>, plans: seq<CallPlan>, schedule: seq<Step>): seq<Event>
    requires |calls| == |plans| && forall s | 0 <= s < |schedule| :: schedule[s].index < |calls|
  {
    if sequential then SequentialEvents(calls, plans)
    else
      PrepareEvents(calls, plans) + ScheduleEvents(calls, schedule)
      + Bracketed(ResultMessages(FinalizeAll(calls, plans)))
  }

  // ---------------------------------------------------------------------------------------------
  // What they deliver, and that they match
  // ---------------------------------------------------------------------------------------------

  lemma {:induction false} BracketedFacts(messages: seq<AgentMessage>, open: Option<multiset<string>>)
    ensures Delivered(Bracketed(messages)) == messages
    ensures PhaseAfter(InTurn(None), Bracketed(messages)) == InTurn(None)
    ensures ToolsAfter(open, Bracketed(messages)) == open
  {
    if messages != [] {
      var front, m := Bracketed(Front(messages)), Last(messages);
      BracketedFacts(Front(messages), open);
      AppendTwo(front, MessageStart(m), MessageEnd(m), InTurn(None), open);
      SplitLast(messages);
    }
  }

  lemma AppendOne(events: seq<Event>, e: Event, p: Phase, open: Option<multiset<string>>)
    ensures Delivered(events + [e]) == Delivered(events) + if e.MessageEnd? then [e.message] else []
    ensures PhaseAfter(p, events + [e]) == PhaseStep(PhaseAfter(p, events), e)
    ensures ToolsAfter(open, events + [e]) == ToolStep(ToolsAfter(open, events), e)
  {
    FrontOfAppend(events, e);
  }

  lemma AppendTwo(events: seq<Event>, e: Event, f: Event, p: Phase, open: Option<multiset<string>>)
    ensures Delivered(events + [e, f])
         == Delivered(events) + (if e.MessageEnd? then [e.message] else []) + if f.MessageEnd? then [f.message] else []
    ensures PhaseAfter(p, events + [e, f]) == PhaseStep(PhaseStep(PhaseAfter(p, events), e), f)
    ensures ToolsAfter(open, events + [e, f]) == ToolStep(ToolStep(ToolsAfter(open, events), e), f)
  {
    AppendOne(events, e, p, open);
    AppendOne(events + [e], f, p, open);
    assert events + [e, f] == events + [e] + [f];
  }

  lemma ConcatFacts(a: seq<Event>, b: seq<Event>, p: Phase, open: Option<multiset<string>>)
    ensures Delivered(a + b) == Delivered(a) + Delivered(b)
    ensures PhaseAfter(p, a + b) == PhaseAfter(PhaseAfter(p, a), b)
    ensures ToolsAfter(open, a + b) == ToolsAfter(ToolsAfter(open, a), b)
  {
    DeliveredConcat(a, b);
    PhaseConcat(p, a, b);
    ToolsConcat(open, a, b);
  }

  lemma AddRemove(open: multiset<string>, id: string)
    ensures open + multiset{id} - multiset{id} == open && id in open + multiset{id}
  {
  }

  lemma {:induction false} RepeatFacts(id: string, n: nat, open: multiset<string>)
    requires id in open
    ensures Delivered(Repeat(ToolUpdate(id), n)) == []
    ensures PhaseAfter(InTurn(None), Repeat(ToolUpdate(id), n)) == InTurn(None)
    ensures ToolsAfter(Some(open), Repeat(ToolUpdate(id), n)) == Some(open)
  {
    if n > 0 {
      RepeatFacts(id, n - 1, open);
      UpdateKeeps(Repeat(ToolUpdate(id), n - 1), id, open);
    }
  }

  lemma UpdateKeeps(events: seq<Event>, id: string, open: multiset<string>)
    requires id in open && Delivered(events) == []
    requires PhaseAfter(InTurn(None), events) == InTurn(None) && ToolsAfter(Some(open), events) == Some(open)
    ensures var more := events + [ToolUpdate(id)];
            && Delivered(more) == []
            && PhaseAfter(InTurn(None), more) == InTurn(None) && ToolsAfter(Some(open), more) == Some(open)
  {
    AppendOne(events, ToolUpdate(id), InTurn(None), Some(open));
  }

  lemma CallFacts(call: ToolCall, plan: CallPlan)
    ensures Delivered(CallEvents(call, plan)) == [ResultMessage(Finalize(call, plan))]
    ensures PhaseAfter(InTurn(None), CallEvents(call, plan)) == InTurn(None)
    ensures ToolsAfter(Some(multiset{}), CallEvents(call, plan)) == Some(multiset{})
  {
    var none, p := Some(multiset{}), InTurn(None);
    var updates := Repeat(ToolUpdate(call.id), if plan.Ready? then plan.updates else 0);
    var result := [ResultMessage(Finalize(call, plan))];
    AppendOne([], ToolStart(call.id), p, none);
    assert [] + [ToolStart(call.id)] == [ToolStart(call.id)];
    AddRemove(multiset{}, call.id);
    assert multiset{} + multiset{call.id} == multiset{call.id};
    RepeatFacts(call.id, if plan.Ready? then plan.updates else 0, multiset{call.id});
    ConcatFacts([ToolStart(call.id)], updates, p, none);
    AppendOne([ToolStart(call.id)] + updates, ToolEnd(call.id), p, none);
    BracketedFacts(result, none);
    ConcatFacts([ToolStart(call.id)] + updates + [ToolEnd(call.id)], Bracketed(result), p, none);
  }

  lemma {:induction false} SequentialFacts(calls: seq<ToolCall>, plans: seq<CallPlan>)
    requires |calls| == |plans|
    ensures var events := SequentialEvents(calls, plans);
            && Delivered(events) == ResultMessages(FinalizeAll(calls, plans))
            && PhaseAfter(InTurn(None), events) == InTurn(None)
            && ToolsAfter(Some(multiset{}), events) == Some(multiset{})
  {
    if calls != [] {
      SequentialFacts(Front(calls), Front(plans));
      CallFacts(Last(calls), Last(plans));
      ConcatFacts(SequentialEvents(Front(calls), Front(plans)), CallEvents(Last(calls), Last(plans)),
                  InTurn(None), Some(multiset{}));
      FinalizeLast(calls, plans);
    }
  }

  lemma FinalizeLast(calls: seq<ToolCall>, plans: seq<CallPlan>)
    requires |calls| == |plans| && calls != []
    ensures ResultMessages(FinalizeAll(calls, plans))
         == ResultMessages(FinalizeAll(Front(calls), Front(plans)))
            + [ResultMessage(Finalize(Last(calls), Last(plans)))]
  {
  }

  /** For each call, its id while it is prepared and not done. */
  ghost function Slots(calls: seq<ToolCall>, plans: seq<CallPlan>, done: set<nat>): seq<Option<string>>
    requires |calls| == |plans|
  {
    seq(|calls|, i requires 0 <= i < |calls| => if plans[i].Ready? && i !in done then Some(calls[i].id) else None)
  }

  ghost function OpenIds(slots: seq<Option<string>>): multiset<string>
  {
    if slots == [] then multiset{} else OpenIds(Front(slots)) + OpenIn(Last(slots))
  }

  ghost function OpenIn(slot: Option<string>): multiset<string>
  {
    if slot.Some? then multiset{slot.value} else multiset{}
  }

  /** The ids of the prepared calls that are not done. */
  ghost function Waiting(calls: seq<ToolCall>, plans: seq<CallPlan>, done: set<nat>): multiset<string>
    requires |calls| == |plans|
  {
    OpenIds(Slots(calls, plans, done))
  }

  lemma {:induction false} PrepareFacts(calls: seq<ToolCall>, plans: seq<CallPlan>)
    requires |calls| == |plans|
    ensures var events := PrepareEvents(calls, plans);
            && Delivered(events) == []
            && PhaseAfter(InTurn(None), events) == InTurn(None)
            && ToolsAfter(Some(multiset{}), events) == Some(Waiting(calls, plans, {}))
  {
    if calls != [] {
      PrepareFacts(Front(calls), Front(plans));
      PrepareOne(PrepareEvents(Front(calls), Front(plans)), Last(calls).id, Last(plans).Refused?,
                 Waiting(Front(calls), Front(plans), {}));
      WaitingMore(calls, plans);
    }
  }

  lemma WaitingMore(calls: seq<ToolCall>, plans: seq<CallPlan>)
    requires |calls| == |plans| && calls != []
    ensures Waiting(calls, plans, {})
         == Waiting(Front(calls), Front(plans), {})
            + if Last(plans).Refused? then multiset{} else multiset{Last(calls).id}
  {
    assert Front(Slots(calls, plans, {})) == Slots(Front(calls), Front(plans), {});
    OpenLast(Slots(calls, plans, {}));
  }

  lemma PrepareOne(front: seq<Event>, id: string, refused: bool, open: multiset<string>)
    requires Delivered(front) == [] && PhaseAfter(InTurn(None), front) == InTurn(None)
    requires ToolsAfter(Some(multiset{}), front) == Some(open)
    ensures var events := front + [ToolStart(id)] + if refused then [ToolEnd(id)] else [];
            && Delivered(events) == []
            && PhaseAfter(InTurn(None), events) == InTurn(None)
            && ToolsAfter(Some(multiset{}), events) == Some(open + if refused then multiset{} else multiset{id})
  {
    AppendOne(front, ToolStart(id), InTurn(None), Some(multiset{}));
    AddRemove(open, id);
    if refused {
      AppendOne(front + [ToolStart(id)], ToolEnd(id), InTurn(None), Some(multiset{}));
      assert open + multiset{} == open;
    } else {
      assert front + [ToolStart(id)] + [] == front + [ToolStart(id)];
    }
  }

  lemma {:induction false} OpenWithout(slots: seq<Option<string>>, i: nat)
    requires i < |slots| && slots[i].Some?
    ensures OpenIds(slots) == OpenIds(slots[i := None]) + multiset{slots[i].value}
  {
    var last, one := OpenIn(Last(slots)), multiset{slots[i].value};
    UpdateFront(slots, i, None);
    if i == |slots| - 1 {
      OneMore(OpenIds(Front(slots)), OpenIds(Front(slots)), last, multiset{}, one);
    } else {
      OpenWithout(Front(slots), i);
      OneMore(OpenIds(Front(slots)), OpenIds(Front(slots)[i := None]), last, last, one);
    }
    OpenLast(slots);
    OpenLast(slots[i := None]);
  }

  lemma OpenLast(slots: seq<Option<string>>)
    requires slots != []
    ensures OpenIds(slots) == OpenIds(Front(slots)) + OpenIn(Last(slots))
  {
  }

  lemma UpdateFront<T>(s: seq<T>, i: nat, x: T)
    requires i < |s|
    ensures i == |s| - 1 ==> Front(s[i := x]) == Front(s) && Last(s[i := x]) == x
    ensures i < |s| - 1 ==> Front(s[i := x]) == Front(s)[i := x] && Last(s[i := x]) == Last(s)
  {
  }

  lemma OneMore(before: multiset<string>, after: multiset<string>, last: multiset<string>, lastAfter: multiset<string>,
                one: multiset<string>)
    requires (before == after && last == one && lastAfter == multiset{}) || (before == after + one && last == lastAfter)
    ensures before + last == (after + lastAfter) + one
  {
  }

  lemma WaitingOne(calls: seq<ToolCall>, plans: seq<CallPlan>, done: set<nat>, i: nat)
    requires |calls| == |plans| && i < |calls| && plans[i].Ready? && i !in done
    ensures Waiting(calls, plans, done) == Waiting(calls, plans, done + {i}) + multiset{calls[i].id}
  {
    SlotsWithout(calls, plans, done, i);
    OpenWithout(Slots(calls, plans, done), i);
  }

  lemma SlotsWithout(calls: seq<ToolCall>, plans: seq<CallPlan>, done: set<nat>, i: nat)
    requires |calls| == |plans| && i < |calls| && plans[i].Ready? && i !in done
    ensures Slots(calls, plans, done)[i := None] == Slots(calls, plans, done + {i})
    ensures Slots(calls, plans, done)[i] == Some(calls[i].id)
  {
  }

  lemma {:induction false} NoneOpen(slots: seq<Option<string>>)
    requires forall i | 0 <= i < |slots| :: slots[i].None?
    ensures OpenIds(slots) == multiset{}
  {
    if slots != [] {
      NoneOpen(Front(slots));
    }
  }

  ghost function FinishedIn(schedule: seq<Step>): set<nat>
  {
    if schedule == [] then {}
    else FinishedIn(Front(schedule)) + if Last(schedule).Finish? then {Last(schedule).index} else {}
  }

  lemma {:induction false} FinishedMember(schedule: seq<Step>, i: nat)
    ensures i in FinishedIn(schedule) <==> Finish(i) in schedule
  {
    if schedule != [] {
      FinishedMember(Front(schedule), i);
      SplitLast(schedule);
    }
  }

  /** However the executions interleave, each event belongs to an execution still under way. */
  lemma {:induction false} ScheduleFacts(calls: seq<ToolCall>, plans: seq<CallPlan>, schedule: seq<Step>, n: nat)
    requires |calls| == |plans| && n <= |schedule| && ValidSchedule(plans, schedule)
    ensures var events := ScheduleEvents(calls, schedule[..n]);
            && Delivered(events) == []
            && PhaseAfter(InTurn(None), events) == InTurn(None)
            && ToolsAfter(Some(Waiting(calls, plans, {})), events)
               == Some(Waiting(calls, plans, FinishedIn(schedule[..n])))
  {
    if n > 0 {
      var step, done := schedule[n - 1], FinishedIn(schedule[..n - 1]);
      var events := ScheduleEvents(calls, schedule[..n - 1]);
      ScheduleFacts(calls, plans, schedule, n - 1);
      ScheduleStep(calls, schedule, n - 1);
      NotFinishedBefore(plans, schedule, n - 1);
      WaitingOne(calls, plans, done, step.index);
      ScheduleOne(events, calls[step.index].id, step.Finish?, Waiting(calls, plans, {}),
                  Waiting(calls, plans, done), Waiting(calls, plans, done + {step.index}));
    }
  }

  lemma ScheduleStep(calls: seq<ToolCall>, schedule: seq<Step>, n: nat)
    requires n < |schedule| && forall s | 0 <= s < |schedule| :: schedule[s].index < |calls|
    ensures var step := schedule[n];
            var id := calls[step.index].id;
            && ScheduleEvents(calls, schedule[..n + 1])
               == ScheduleEvents(calls, schedule[..n]) + [if step.Finish? then ToolEnd(id) else ToolUpdate(id)]
            && FinishedIn(schedule[..n + 1])
               == (if step.Finish? then FinishedIn(schedule[..n]) + {step.index} else FinishedIn(schedule[..n]))
  {
    FrontOfPrefix(schedule, n);
    if !schedule[n].Finish? {
      assert FinishedIn(schedule[..n]) + {} == FinishedIn(schedule[..n]);
    }
  }

  lemma ScheduleOne(events: seq<Event>, id: string, finish: bool,
                    all: multiset<string>, open: multiset<string>, rest: multiset<string>)
    requires Delivered(events) == [] && PhaseAfter(InTurn(None), events) == InTurn(None)
    requires ToolsAfter(Some(all), events) == Some(open) && open == rest + multiset{id}
    ensures var longer := events + [if finish then ToolEnd(id) else ToolUpdate(id)];
            && Delivered(longer) == [] && PhaseAfter(InTurn(None), longer) == InTurn(None)
            && ToolsAfter(Some(all), longer) == Some(if finish then rest else open)
  {
    AddRemove(rest, id);
    AppendOne(events, if finish then ToolEnd(id) else ToolUpdate(id), InTurn(None), Some(all));
  }

  lemma NotFinishedBefore(plans: seq<CallPlan>, schedule: seq<Step>, n: nat)
    requires ValidSchedule(plans, schedule) && n < |schedule|
    ensures schedule[n].index !in FinishedIn(schedule[..n])
    ensures schedule[n].index < |plans| && plans[schedule[n].index].Ready?
  {
    var i := schedule[n].index;
    FinishedMember(schedule[..n], i);
  }

  lemma ParallelFacts(calls: seq<ToolCall>, plans: seq<CallPlan>, schedule: seq<Step>)
    requires |calls| == |plans| && ValidSchedule(plans, schedule)
    ensures var events := BatchEvents(false, calls, plans, schedule);
            && Delivered(events) == ResultMessages(FinalizeAll(calls, plans))
            && PhaseAfter(InTurn(None), events) == InTurn(None)
            && ToolsAfter(Some(multiset{}), events) == Some(multiset{})
  {
    var none, p := Some(multiset{}), InTurn(None);
    var results := ResultMessages(FinalizeAll(calls, plans));
    PrepareFacts(calls, plans);
    ScheduleFacts(calls, plans, schedule, |schedule|);
    assert schedule[..|schedule|] == schedule;
    forall i | 0 <= i < |calls| && plans[i].Ready? ensures i in FinishedIn(schedule) {
      FinishedMember(schedule, i);
    }
    NoneOpen(Slots(calls, plans, FinishedIn(schedule)));
    ConcatFacts(PrepareEvents(calls, plans), ScheduleEvents(calls, schedule), p, none);
    BracketedFacts(results, none);
    ConcatFacts(PrepareEvents(calls, plans) + ScheduleEvents(calls, schedule), Bracketed(results), p, none);
  }

  /**
   A batch delivers one result for each call, in source order, whichever mode runs it and in whichever
   order the executions finish; and it leaves no execution open.
   */
  lemma BatchFacts(sequential: bool, calls: seq<ToolCall>, plans: seq<CallPlan>, schedule: seq<Step>)
    requires |calls| == |plans| && ValidSchedule(plans, schedule)
    ensures var events := BatchEvents(sequential, calls, plans, schedule);
            && Delivered(events) == ResultMessages(FinalizeAll(calls, plans))
            && PhaseAfter(InTurn(None), events) == InTurn(None)
            && ToolsAfter(Some(multiset{}), events) == Some(multiset{})
  {
    if sequential {
      SequentialFacts(calls, plans);
    } else {
      ParallelFacts(calls, plans, schedule);
    }
  }

  // ---------------------------------------------------------------------------------------------
  // The two ways to execute a batch
  // ---------------------------------------------------------------------------------------------

  /** Where an agent stood before some events. */
  datatype Base = Base(trace: seq<Event>, state: AgentState, activeRun: bool)

  /** Since then the agent has been given exactly these events. */
  ghost predicate Follows(agent: Agent, base: Base, events: seq<Event>)
    reads agent
  {
    && agent.trace == base.trace + events
    && agent.State() == ReduceAll(base.state, events)
    && agent.activeRun == base.activeRun
  }

  method Emit(agent: Agent, event: Event, ghost base: Base, ghost before: seq<Event>)
    requires Follows(agent, base, before)
    modifies agent
    ensures Follows(agent, base, before + [event])
  {
    agent.ProcessEvents(event);
    FrontOfAppend(before, event);
    ConcatAssociative(base.trace, before, [event]);
  }

  method EmitMessage(agent: Agent, message: AgentMessage, ghost base: Base, ghost before: seq<Event>)
    requires Follows(agent, base, before)
    modifies agent
    ensures Follows(agent, base, before + Bracketed([message]))
  {
    Emit(agent, MessageStart(message), base, before);
    Emit(agent, MessageEnd(message), base, before + [MessageStart(message)]);
    assert Front([message]) == [];
    assert before + [MessageStart(message)] + [MessageEnd(message)] == before + Bracketed([message]);
  }

  /** The hook may replace each part of a result; a hook that throws replaces all of it with an error. */
  method FinalizeExecutedToolCall(call: ToolCall, execution: Execution, after: AfterHook) returns (finalized: Finalized)
    ensures forall updates: nat :: finalized == Finalize(call, Ready(updates, execution, after))
  {
    var result, isError := ToolOutput("", false), false;
    match execution {
      case Returned(r) => result := r;
      case Threw(reason) => result, isError := ToolOutput(reason, false), true;
    }
    match after {
      case NoOverride =>
      case HookThrew(reason) => result, isError := ToolOutput(reason, false), true;
      case Override(output, terminate, error) =>
        if output.Some? {
          result := result.(output := output.value);
        }
        if terminate.Some? {
          result := result.(terminate := terminate.value);
        }
        if error.Some? {
          isError := error.value;
        }
    }
    return Finalized(call, result, isError);
  }

  /** Runs one call to its end: progress reports, then the end of the execution, then its result. */
  method ExecuteOne(agent: Agent, call: ToolCall, plan: CallPlan, ghost base: Base, ghost before: seq<Event>)
    returns (finalized: Finalized)
    requires Follows(agent, base, before)
    modifies agent
    ensures finalized == Finalize(call, plan)
    ensures Follows(agent, base, before + CallEvents(call, plan))
  {
    Emit(agent, ToolStart(call.id), base, before);
    var n := if plan.Ready? then plan.updates else 0;
    ghost var started := before + [ToolStart(call.id)];
    assert started + [] == started;
    for i := 0 to n
      invariant Follows(agent, base, started + Repeat(ToolUpdate(call.id), i))
    {
      Emit(agent, ToolUpdate(call.id), base, started + Repeat(ToolUpdate(call.id), i));
      ConcatAssociative(started, Repeat(ToolUpdate(call.id), i), [ToolUpdate(call.id)]);
    }
    match plan {
      case Refused(reason) => finalized := Finalized(call, ToolOutput(reason, false), true);
      case Ready(_, execution, after) => finalized := FinalizeExecutedToolCall(call, execution, after);
    }
    Emit(agent, ToolEnd(call.id), base, started + Repeat(ToolUpdate(call.id), n));
    EmitMessage(agent, ResultMessage(finalized), base, started + Repeat(ToolUpdate(call.id), n) + [ToolEnd(call.id)]);
    CallEventsFrom(before, call, plan);
  }

  lemma CallEventsFrom(before: seq<Event>, call: ToolCall, plan: CallPlan)
    ensures before + [ToolStart(call.id)] + Repeat(ToolUpdate(call.id), if plan.Ready? then plan.updates else 0)
            + [ToolEnd(call.id)] + Bracketed([ResultMessage(Finalize(call, plan))])
         == before + CallEvents(call, plan)
  {
  }

  lemma FinalizeNext(calls: seq<ToolCall>, plans: seq<CallPlan>, i: nat)
    requires |calls| == |plans| && i < |calls|
    ensures FinalizeAll(calls[..i + 1], plans[..i + 1])
         == FinalizeAll(calls[..i], plans[..i]) + [Finalize(calls[i], plans[i])]
    ensures ResultMessages(FinalizeAll(calls[..i + 1], plans[..i + 1]))
         == ResultMessages(FinalizeAll(calls[..i], plans[..i])) + [ResultMessage(Finalize(calls[i], plans[i]))]
  {
  }

  method ExecuteSequential(agent: Agent, calls: seq<ToolCall>, plans: seq<CallPlan>,
                           ghost base: Base, ghost before: seq<Event>)
    returns (messages: seq<AgentMessage>, terminate: bool)
    requires |calls| == |plans| && Follows(agent, base, before)
    modifies agent
    ensures messages == ResultMessages(FinalizeAll(calls, plans))
    ensures terminate == ShouldTerminate(FinalizeAll(calls, plans))
    ensures Follows(agent, base, before + SequentialEvents(calls, plans))
  {
    var finalizedCalls: seq<Finalized> := [];
    messages := [];
    assert before + [] == before;
    for i := 0 to |calls|
      invariant finalizedCalls == FinalizeAll(calls[..i], plans[..i]) && messages == ResultMessages(finalizedCalls)
      invariant Follows(agent, base, before + SequentialEvents(calls[..i], plans[..i]))
    {
      FrontOfPrefix(calls, i);
      FrontOfPrefix(plans, i);
      ghost var events := SequentialEvents(calls[..i], plans[..i]);
      var finalized := ExecuteOne(agent, calls[i], plans[i], base, before + events);
      ConcatAssociative(before, events, CallEvents(calls[i], plans[i]));
      FinalizeNext(calls, plans, i);
      finalizedCalls := finalizedCalls + [finalized];
      messages := messages + [ResultMessage(finalized)];
    }
    assert calls[..|calls|] == calls && plans[..|plans|] == plans;
    terminate := |finalizedCalls| > 0 && forall i | 0 <= i < |finalizedCalls| :: finalizedCalls[i].result.terminate;
  }

  /** Prepares the calls in order; a refused one ends at once, the others wait in their slot. */
  method Prepare(agent: Agent, calls: seq<ToolCall>, plans: seq<CallPlan>, ghost base: Base, ghost before: seq<Event>)
    returns (slots: seq<Option<Finalized>>)
    requires |calls| == |plans| && Follows(agent, base, before)
    modifies agent
    ensures |slots| == |calls|
    ensures forall i | 0 <= i < |calls| :: slots[i] == Slot(calls[i], plans[i], false)
    ensures Follows(agent, base, before + PrepareEvents(calls, plans))
  {
    slots := [];
    assert before + [] == before;
    for i := 0 to |calls|
      invariant |slots| == i && forall k | 0 <= k < i :: slots[k] == Slot(calls[k], plans[k], false)
      invariant Follows(agent, base, before + PrepareEvents(calls[..i], plans[..i]))
    {
      FrontOfPrefix(calls, i);
      FrontOfPrefix(plans, i);
      ghost var events := PrepareEvents(calls[..i], plans[..i]);
      Emit(agent, ToolStart(calls[i].id), base, before + events);
      if plans[i].Refused? {
        Emit(agent, ToolEnd(calls[i].id), base, before + events + [ToolStart(calls[i].id)]);
        slots := slots + [Some(Finalized(calls[i], ToolOutput(plans[i].reason, false), true))];
      } else {
        slots := slots + [None];
      }
      ThreeParts(before, events, [ToolStart(calls[i].id)], if plans[i].Refused? then [ToolEnd(calls[i].id)] else []);
    }
    assert calls[..|calls|] == calls && plans[..|plans|] == plans;
  }

  lemma ThreeParts<T>(a: seq<T>, b: seq<T>, c: seq<T>, d: seq<T>)
    ensures a + (b + c + d) == a + b + c + d && (d == [] ==> a + b + c + d == a + b + c)
  {
  }

  /** What a slot holds once its execution is done, or before. */
  function Slot(call: ToolCall, plan: CallPlan, done: bool): Option<Finalized>
  {
    if plan.Refused? || done then Some(Finalize(call, plan)) else None
  }

  /** Lets the prepared executions run in any interleaving; each one fills its own slot. */
  method RunSchedule(agent: Agent, calls: seq<ToolCall>, plans: seq<CallPlan>, schedule: seq<Step>,
                     prepared: seq<Option<Finalized>>, ghost base: Base, ghost before: seq<Event>)
    returns (slots: seq<Option<Finalized>>)
    requires |calls| == |plans| == |prepared| && ValidSchedule(plans, schedule) && Follows(agent, base, before)
    requires forall i | 0 <= i < |calls| :: prepared[i] == Slot(calls[i], plans[i], false)
    modifies agent
    ensures |slots| == |calls| && forall i | 0 <= i < |calls| :: slots[i] == Some(Finalize(calls[i], plans[i]))
    ensures Follows(agent, base, before + ScheduleEvents(calls, schedule))
  {
    slots := prepared;
    assert before + [] == before;
    for s := 0 to |schedule|
      invariant |slots| == |calls|
      invariant forall i | 0 <= i < |calls| :: slots[i] == Slot(calls[i], plans[i], i in FinishedIn(schedule[..s]))
      invariant Follows(agent, base, before + ScheduleEvents(calls, schedule[..s]))
    {
      FrontOfPrefix(schedule, s);
      ghost var events := ScheduleEvents(calls, schedule[..s]);
      var i := schedule[s].index;
      var event := if schedule[s].Finish? then ToolEnd(calls[i].id) else ToolUpdate(calls[i].id);
      Emit(agent, event, base, before + events);
      ConcatAssociative(before, events, [event]);
      if schedule[s].Finish? {
        var finalized := FinalizeExecutedToolCall(calls[i], plans[i].execution, plans[i].after);
        slots := slots[i := Some(finalized)];
      }
    }
    assert schedule[..|schedule|] == schedule;
    forall i | 0 <= i < |calls| ensures slots[i] == Some(Finalize(calls[i], plans[i])) {
      FinishedMember(schedule, i);
    }
  }

  method EmitResults(agent: Agent, finalized: seq<Finalized>, ghost base: Base, ghost before: seq<Event>)
    returns (messages: seq<AgentMessage>)
    requires Follows(agent, base, before)
    modifies agent
    ensures messages == ResultMessages(finalized)
    ensures Follows(agent, base, before + Bracketed(messages))
  {
    messages := [];
    assert before + [] == before;
    for i := 0 to |finalized|
      invariant messages == ResultMessages(finalized[..i])
      invariant Follows(agent, base, before + Bracketed(messages))
    {
      var message := ResultMessage(finalized[i]);
      EmitMessage(agent, message, base, before + Bracketed(messages));
      ConcatAssociative(before, Bracketed(messages), Bracketed([message]));
      BracketedAppend(messages, message);
      messages := messages + [message];
    }
    assert finalized[..|finalized|] == finalized;
  }

  lemma BracketedAppend(messages: seq<AgentMessage>, m: AgentMessage)
    ensures Bracketed(messages + [m]) == Bracketed(messages) + Bracketed([m])
  {
    FrontOfAppend(messages, m);
    assert Front([m]) == [];
  }

  /** The results of all slots. */
  method InOrder(ghost calls: seq<ToolCall>, ghost plans: seq<CallPlan>, slots: seq<Option<Finalized>>)
    returns (ordered: seq<Finalized>)
    requires |calls| == |plans| == |slots|
    requires forall i | 0 <= i < |calls| :: slots[i] == Some(Finalize(calls[i], plans[i]))
    ensures ordered == FinalizeAll(calls, plans)
  {
    ordered := seq(|slots|, i requires 0 <= i < |slots| && slots[i].Some? => slots[i].value);
  }

  /** Every interleaving of the executions gives the results the sequential mode gives. */
  method ExecuteParallel(agent: Agent, calls: seq<ToolCall>, plans: seq<CallPlan>, schedule: seq<Step>,
                         ghost base: Base, ghost before: seq<Event>)
    returns (messages: seq<AgentMessage>, terminate: bool)
    requires |calls| == |plans| && ValidSchedule(plans, schedule) && Follows(agent, base, before)
    modifies agent
    ensures messages == ResultMessages(FinalizeAll(calls, plans))
    ensures terminate == ShouldTerminate(FinalizeAll(calls, plans))
    ensures Follows(agent, base, before + BatchEvents(false, calls, plans, schedule))
  {
    ghost var prepare, run := PrepareEvents(calls, plans), ScheduleEvents(calls, schedule);
    var slots := Prepare(agent, calls, plans, base, before);
    slots := RunSchedule(agent, calls, plans, schedule, slots, base, before + prepare);
    var ordered := InOrder(calls, plans, slots);
    messages := EmitResults(agent, ordered, base, before + prepare + run);
    ThreeParts(before, prepare, run, Bracketed(messages));
    terminate := |ordered| > 0 && forall i | 0 <= i < |ordered| :: ordered[i].result.terminate;
  }

  method ExecuteToolCalls(agent: Agent, calls: seq<ToolCall>, plans: seq<CallPlan>, sequential: bool,
                          schedule: seq<Step>, ghost base: Base, ghost before: seq<Event>)
    returns (messages: seq<AgentMessage>, terminate: bool)
    requires |calls| == |plans| && ValidSchedule(plans, schedule) && Follows(agent, base, before)
    modifies agent
    ensures messages == ResultMessages(FinalizeAll(calls, plans))
    ensures |messages| == |calls| && forall i | 0 <= i < |calls| :: Tells(calls[i], plans[i], messages[i])
    ensures terminate == ShouldTerminate(FinalizeAll(calls, plans))
    ensures Follows(agent, base, before + BatchEvents(sequential, calls, plans, schedule))
  {
    ResultsTell(calls, plans);
    if sequential {
      messages, terminate := ExecuteSequential(agent, calls, plans, base, before);
    } else {
      messages, terminate := ExecuteParallel(agent, calls, plans, schedule, base, before);
    }
  }
}
