/** In which order the events of a batch of tool calls come, in either mode. */
module BatchOrder {
  import opened Messages
  import opened Sequences
  import opened AgentEvents
  import opened Agents
  import opened ToolBatch

  /** The ids of the executions that start, in order. */
  function StartedIds(events: seq<Event>): seq<string>
  {
    if events == [] then []
    else StartedIds(Front(events)) + if Last(events).ToolStart? then [Last(events).id] else []
  }

  function CallIds(calls: seq<ToolCall>): seq<string>
  {
    seq(|calls|, i requires 0 <= i < |calls| => calls[i].id)
  }

  lemma {:induction false} StartedConcat(a: seq<Event>, b: seq<Event>)
    ensures StartedIds(a + b) == StartedIds(a) + StartedIds(b)
  {
    if b == [] {
      assert a + b == a;
    } else {
      StartedConcat(a, Front(b));
      FrontOfConcat(a, b);
    }
  }

  lemma {:induction false} NoneStarted(events: seq<Event>)
    requires forall i | 0 <= i < |events| :: !events[i].ToolStart?
    ensures StartedIds(events) == []
  {
    if events != [] {
      NoneStarted(Front(events));
    }
  }

  /** The events of one call, one by one: its start, its reports, its end and its result. */
  lemma {:induction false} RepeatIs(e: Event, n: nat)
    ensures |Repeat(e, n)| == n && forall i | 0 <= i < n :: Repeat(e, n)[i] == e
  {
    if n > 0 {
      RepeatIs(e, n - 1);
    }
  }

  lemma CallIsBracketed(call: ToolCall, plan: CallPlan)
    ensures var events := CallEvents(call, plan);
            var n := if plan.Ready? then plan.updates else 0;
            && |events| == n + 4
            && events[0] == ToolStart(call.id) && events[n + 1] == ToolEnd(call.id)
            && (forall i | 1 <= i <= n :: events[i] == ToolUpdate(call.id))
            && events[n + 2].MessageStart? && events[n + 3] == MessageEnd(events[n + 2].message)
            && Tells(call, plan, events[n + 2].message)
  {
    var m := ResultMessage(Finalize(call, plan));
    assert Front([m]) == [] && Bracketed([m]) == [MessageStart(m), MessageEnd(m)];
    RepeatIs(ToolUpdate(call.id), if plan.Ready? then plan.updates else 0);
  }

  lemma CallStarts(call: ToolCall, plan: CallPlan)
    ensures StartedIds(CallEvents(call, plan)) == [call.id]
  {
    var events := CallEvents(call, plan);
    CallIsBracketed(call, plan);
    StartedConcat([events[0]], events[1..]);
    assert [events[0]] + events[1..] == events && Front([events[0]]) == [];
    NoneStarted(events[1..]);
  }

  lemma {:induction false} BracketedStarts(messages: seq<AgentMessage>)
    ensures StartedIds(Bracketed(messages)) == []
  {
    if messages != [] {
      BracketedStarts(Front(messages));
      StartedConcat(Bracketed(Front(messages)), [MessageStart(Last(messages)), MessageEnd(Last(messages))]);
      NoneStarted([MessageStart(Last(messages)), MessageEnd(Last(messages))]);
    }
  }

  lemma IdsLast(calls: seq<ToolCall>)
    requires calls != []
    ensures CallIds(calls) == CallIds(Front(calls)) + [Last(calls).id]
  {
  }

  lemma {:induction false} SequentialStarts(calls: seq<ToolCall>, plans: seq<CallPlan>)
    requires |calls| == |plans|
    ensures StartedIds(SequentialEvents(calls, plans)) == CallIds(calls)
  {
    if calls != [] {
      SequentialStarts(Front(calls), Front(plans));
      CallStarts(Last(calls), Last(plans));
      StartedConcat(SequentialEvents(Front(calls), Front(plans)), CallEvents(Last(calls), Last(plans)));
      IdsLast(calls);
    }
  }

  lemma {:induction false} PrepareStarts(calls: seq<ToolCall>, plans: seq<CallPlan>)
    requires |calls| == |plans|
    ensures StartedIds(PrepareEvents(calls, plans)) == CallIds(calls)
  {
    if calls != [] {
      var front, id := PrepareEvents(Front(calls), Front(plans)), Last(calls).id;
      PrepareStarts(Front(calls), Front(plans));
      IdsLast(calls);
      FrontOfAppend(front, ToolStart(id));
      if Last(plans).Refused? {
        FrontOfAppend(front + [ToolStart(id)], ToolEnd(id));
      } else {
        assert front + [ToolStart(id)] + [] == front + [ToolStart(id)];
      }
    }
  }

  /** What the executions report while they are under way, one event for each step. */
  lemma {:induction false} StepsAreReported(calls: seq<ToolCall>, schedule: seq<Step>)
    requires forall s | 0 <= s < |schedule| :: schedule[s].index < |calls|
    ensures |ScheduleEvents(calls, schedule)| == |schedule|
    ensures forall s | 0 <= s < |schedule| ::
              var id := calls[schedule[s].index].id;
              ScheduleEvents(calls, schedule)[s] == if schedule[s].Finish? then ToolEnd(id) else ToolUpdate(id)
  {
    if schedule != [] {
      StepsAreReported(calls, Front(schedule));
    }
  }

  /** In either mode, executions start in the order of their calls. */
  lemma CallsStartInOrder(sequential: bool, calls: seq<ToolCall>, plans: seq<CallPlan>, schedule: seq<Step>)
    requires |calls| == |plans| && ValidSchedule(plans, schedule)
    ensures StartedIds(BatchEvents(sequential, calls, plans, schedule)) == CallIds(calls)
  {
    var prepare, run := PrepareEvents(calls, plans), ScheduleEvents(calls, schedule);
    var results := ResultMessages(FinalizeAll(calls, plans));
    if sequential {
      SequentialStarts(calls, plans);
    } else {
      PrepareStarts(calls, plans);
      StepsAreReported(calls, schedule);
      NoneStarted(run);
      BracketedStarts(results);
      StartedConcat(prepare, run);
      StartedConcat(prepare + run, Bracketed(results));
    }
  }

  /** At most one execution is open after each of these events. */
  ghost predicate OneByOne(events: seq<Event>)
  {
    forall n | 0 <= n <= |events| ::
      ToolsAfter(Some(multiset{}), events[..n]).Some? && |ToolsAfter(Some(multiset{}), events[..n]).value| <= 1
  }

  lemma OneByOneConcat(a: seq<Event>, b: seq<Event>)
    requires OneByOne(a) && OneByOne(b) && ToolsAfter(Some(multiset{}), a) == Some(multiset{})
    ensures OneByOne(a + b)
  {
    forall n | 0 <= n <= |a + b|
      ensures var open := ToolsAfter(Some(multiset{}), (a + b)[..n]); open.Some? && |open.value| <= 1
    {
      if n <= |a| {
        assert (a + b)[..n] == a[..n];
      } else {
        assert (a + b)[..n] == a + b[..n - |a|];
        ToolsConcat(Some(multiset{}), a, b[..n - |a|]);
      }
    }
  }

  lemma OneByOneCall(call: ToolCall, plan: CallPlan)
    ensures OneByOne(CallEvents(call, plan))
  {
    var events, k := CallEvents(call, plan), if plan.Ready? then plan.updates else 0;
    CallIsBracketed(call, plan);
    forall n | 0 <= n <= |events|
      ensures var open := ToolsAfter(Some(multiset{}), events[..n]); open.Some? && |open.value| <= 1
    {
      OpenAt(call.id, events, k, n);
    }
  }

  lemma OpenStep(id: string, e: Event, first: bool, last: bool)
    requires first ==> !last && e == ToolStart(id)
    requires last ==> e == ToolEnd(id)
    ensures first ==> ToolStep(Some(multiset{}), e) == Some(multiset{id})
    ensures last ==> ToolStep(Some(multiset{id}), e) == Some(multiset{})
    ensures e == ToolUpdate(id) ==> ToolStep(Some(multiset{id}), e) == Some(multiset{id})
    ensures e.MessageStart? || e.MessageEnd? ==> ToolStep(Some(multiset{}), e) == Some(multiset{})
  {
    assert multiset{} + multiset{id} == multiset{id} && multiset{id} - multiset{id} == multiset{};
  }

  lemma {:induction false} OpenAt(id: string, events: seq<Event>, k: nat, n: nat)
    requires n <= |events| == k + 4 && events[0] == ToolStart(id) && events[k + 1] == ToolEnd(id)
    requires forall i | 1 <= i <= k :: events[i] == ToolUpdate(id)
    requires events[k + 2].MessageStart? && events[k + 3].MessageEnd?
    ensures ToolsAfter(Some(multiset{}), events[..n]) == Some(if 1 <= n <= k + 1 then multiset{id} else multiset{})
    decreases n
  {
    if n == 0 {
      assert events[..0] == [];
    } else {
      var e := events[n - 1];
      OpenAt(id, events, k, n - 1);
      FrontOfPrefix(events, n - 1);
      OpenStep(id, e, n == 1, n == k + 2);
      if 1 < n < k + 2 {
        assert e == ToolUpdate(id);
      }
    }
  }

  /** The sequential mode starts a call only when the one before is done. */
  lemma {:induction false} SequentialIsOneByOne(calls: seq<ToolCall>, plans: seq<CallPlan>)
    requires |calls| == |plans|
    ensures OneByOne(SequentialEvents(calls, plans))
  {
    if calls != [] {
      SequentialIsOneByOne(Front(calls), Front(plans));
      SequentialFacts(Front(calls), Front(plans));
      OneByOneCall(Last(calls), Last(plans));
      OneByOneConcat(SequentialEvents(Front(calls), Front(plans)), CallEvents(Last(calls), Last(plans)));
    }
  }

  /** The parallel mode has all prepared executions open at once, before any result is delivered. */
  lemma ParallelIsAllAtOnce(calls: seq<ToolCall>, plans: seq<CallPlan>, schedule: seq<Step>) returns (n: nat)
    requires |calls| == |plans| && ValidSchedule(plans, schedule)
    ensures var events := BatchEvents(false, calls, plans, schedule);
            && n <= |events| && StartedIds(events[..n]) == CallIds(calls) && Delivered(events[..n]) == []
            && ToolsAfter(Some(multiset{}), events[..n]) == Some(Waiting(calls, plans, {}))
  {
    var prepare, events := PrepareEvents(calls, plans), BatchEvents(false, calls, plans, schedule);
    n := |prepare|;
    assert events[..n] == prepare;
    PrepareStarts(calls, plans);
    PrepareFacts(calls, plans);
  }
}
